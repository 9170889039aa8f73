# A Dafny model of the x86_vcpu crate

The crate drives Intel VMX: a `VmxVcpu` owns a VMCS, enters a guest with a few lines of assembly that use
the vCPU structure itself as a stack, and handles what it can of each VM exit. This project models that
code against the hardware it runs on and proves what every run keeps, for every guest.

| file | models |
|---|---|
| `WorldSwitch.dfy` | the entry and exit assembly, interpreted instruction by instruction |
| `LaunchProtocol.dfy` | setup, bind, run and unbind of any number of vCPUs on any number of processors |
| `Controls.dfy` | machine words as sets of bit positions; `set_control` |
| `ControlRegisters.dfy` | `set_cr`, `cr`, `update_efer`, guest/host mask and read shadow, VM-entry checks on the mode |
| `Processor.dfy` | what each control bit makes the processor do, by bit number |
| `Interruption.dfy` | the VM-entry interruption field, `inject_event`, VM-entry checks on it |
| `VcpuModel.dfy` | one vCPU's state, the guest's turn, `inner_run` and exit handling, as functions |
| `VcpuRuns.dfy` | runs: sequences of everything a host may do with a vCPU, with arbitrary guests |
| `EventRuns.dfy` | conservation, order and progress of events over runs |
| `ExtendedStateRuns.dfy` | XCR0 and IA32_XSS over runs |
| `ModeRuns.dfy` | CR0, CR4, EFER and the control fields over runs, and which guests can be entered again |
| `ConfiguredRuns.dfy` | what the requested controls achieve over runs: exits, bitmaps, EFER and PAT of host and guest |
| `ModeFailures.dfy` | runs from setup that end in a state VM entry refuses |
| `LaunchRuns.dfy` | runs as histories of the launch protocol |
| `Emulation.dfy` | registers and RIP after exit handling; CPUID |
| `VcpuStory.dfy` | the invariant between a vCPU object's past and its state |
| `Vcpu.dfy` | the class `VmxVcpu`, whose callers' methods keep that invariant |
| `Registers.dfy` | the register block, sub-registers, EDX:EAX, the register diff |
| `Bitmaps.dfy` | the MSR and I/O bitmaps, bytes changed in place |
| `PerCpu.dfy` | turning VMX operation on and off |

The hardware is explicit state. Between VM entry and VM exit the guest and the processor take an arbitrary
`Turn`: any register values, any MOVs to CR0 and CR4 that the mask lets through, any new CR3, EFER, PAT, RFLAGS,
interruptibility, XCR0 and IA32_XSS, and any exit, restricted only by what the Intel SDM guarantees
(`VcpuModel.TurnOk`). Which exits those are depends on the control fields: the hardware side reads them bit by
bit and by number (`Processor.dfy`), and never through a name or a function of the code, so that each bit setup
requests is one some theorem needs. The same goes for the other formats the code writes: the entry field, the
exit qualification, real CR0 and its mask, CPUID's answers and RIP are specified by bits and arithmetic of their
own. Section numbers of the SDM follow the edition the code's own comments cite. Masks are sets of the positions
of their one-bits; numbers are integers, with shifts and masks written as division and remainder.

The class `VmxVcpu` carries a ghost story of its past: events queued, shown to the processor and taken, the plain
CR0 and CR4, the guest's extended state, the last setup. `Valid()` ties the story to the state, and every method
a caller uses keeps it. The private stages of `inner_run` and `setup_vmcs` (`InjectPendingEvents`,
`SwitchToGuest`, `SetCr`, `BuiltinVmexitHandler` and so on) are methods too, each proved equal to the function
of `VcpuModel` that the theorems are about; they have no row of their own below.

Assumptions, all explicit in the statements or the state:

- Capability MSRs are constant. Where a result needs more of them it says so (`ModeRuns.CapsOk`,
  `ModeRuns.LimitsOk`).
- No host interrupt arrives while RSP points into the vCPU, and a guest writes neither the vCPU's first two
  fields nor the host's saved frame (`WorldSwitch.Confined`).
- A vCPU does not move in memory while it is bound: HOST_RSP is "the address of vCPU v's `host_stack_top`".
- A true VM exit clears the valid bit of the VM-entry interruption field and stores EFER.LMA in the
  IA-32e-mode-guest control, which every processor with unrestricted guest does (bit 5 of IA32_VMX_MISC). A VM
  entry that fails on guest state does neither, and is modelled.
- The interruption field of a new VMCS is not valid.
- VMLAUNCH and VMRESUME fail on the launch state, on the interruption field (on a processor that wants an
  instruction length of at least 1 and error codes exactly where the architecture has them), on a host that is not
  64-bit and on an unrestricted guest without EPT; the control fields are proved legal, and their addresses and the
  rest of the host state are taken to pass.
- For the results on accepted entries: the processor enters only a state that passes its checks, and a VM exit
  saves one that does (`ModeRuns.Coherent`).

## Results that are not what one would expect

Each of these is proved as an exact condition, not only as an example.

- Every queued event is shown at one VM entry exactly when no run follows a failed entry with a valid field
  without injecting, and is taken exactly when no run overwrites such a field: the code never looks at the field
  it left behind (`EventRuns.EventsConserved`, `EventRuns.FieldValidIff`, `EventRuns.FailedEntryThenRun`).
- After an interrupt-window exit the head of the queue is injected exactly when it is an exception or the
  guest reports no blocking of any kind: blocking by NMI also counts, and then window exits repeat without
  delivering anything, for as long as one likes (`EventRuns.WindowExitInjectsIff`,
  `EventRuns.NmiBlockingStarves`, `EventRuns.StarvingRunExists`).
- From setup on, VM entry accepts the guest's mode exactly when every MOV to CR0 or CR4 so far was absorbed or
  respected the conditions of `ModeRuns.TrappedMovOk`. On every processor that accepts the first entry, turning
  on 32-bit paging right after setup breaks them, and so does leaving long mode with the caches turned off in the
  same MOV; leaving it by clearing PG alone does not, because the mask absorbs that
  (`ModeRuns.EveryEntryAcceptedIff`, `ModeFailures.ThirtyTwoBitPagingRefused`,
  `ModeFailures.LeavingLongModeRefused`, `ModeFailures.PagingOffAbsorbed`).
- Vectors 21 to 31, error codes above 16 bits or in real mode, and INT1, INT3 or INTO without an instruction
  length cannot be injected (`Interruption.InjectAcceptedIff`), and the code tries all the same. So a run panics on
  a VMfail exactly when the first entry since binding failed or the event it injects is one of these: `queue_event`
  with vector 25 does it, and right after setup so does every exception with an error code
  (`LaunchRuns.EveryRunEntersRight`, `EventRuns.FieldRefusedIff`, `EventRuns.ErrorCodeAfterSetupPanics`).
- An NMI is injected even while MOV SS blocks, the entry then fails, and the next event is written over the NMI
  (`EventRuns.InjectionRespectsBlockingIff`, `EventRuns.NmiLost`).
- `handle_cr` panics over runs from setup exactly on CLTS and LMSW, and these exit at all exactly where the
  processor fixes one of the four low bits of CR0: there an LMSW right after setup does it
  (`ConfiguredRuns.CrExitPanicsIff`, `ConfiguredRuns.LmswPanics`).
- After a run the host's EFER and PAT are as before it exactly when the host has not changed them since it bound
  the vCPU (`ConfiguredRuns.HostMsrsBackIff`).
- CR4 refines a plain register exactly when the processor demands or forbids VMXE
  (`ControlRegisters.Cr4RefinesPlainIff`); `cr(0)` returns what the guest wrote exactly when that respects the
  limits (`ControlRegisters.ReadsOfHeldRegister`).
- A first entry that fails on guest state makes the next run panic until the vCPU is unbound
  (`LaunchProtocol.FailedFirstEntry`); a setup that fails leaves the VMCS as if bound; a setup after a run makes
  the next run panic (`LaunchProtocol.RulesAreNeeded`), and one after a failed entry can leave an event in the
  field that VM entry now refuses (`VcpuStory.StaleFieldRefused`).
- The I/O bitmap can be changed only for ports whose offset in their half is below 0x2000, the reach of its
  1024-byte slices (`Bitmaps.IOBitmap.SetInterceptOfRange`).
- No value passes the test of `handle_xsetbv`, so XSETBV always panics (`VcpuModel.NoXcr0Passes`,
  `VcpuModel.XsetbvPanics`).
- CPUID leaf 7 hides WAITPKG and LA57 exactly when all 64 bits of RCX are zero (`Emulation.CpuidLeaf7HidesIff`);
  leaf 1
  leaves machine checks announced and misreports the model number exactly when it is 8 or more
  (`Emulation.CpuidLeaf1Model`).
- The test of the host's CR0 and CR4 in `hardware_enable` refuses next to nothing (`PerCpu.CrIsValidIff`); a
  processor that passes it and violates the fixed bits faults on VMXON with VMXE set
  (`PerCpu.VmxPerCpuState.HardwareEnable`).

## Model

| member | source | states |
|---|---|---|
| `WorldSwitch.WorldSwitchCorrect` | src/vmx/vcpu.rs:858-910 | for every memory, host register file and confined guest: the guest enters with exactly `guest_regs`; on return `guest_regs` holds its exit registers with the RSP slot untouched, the 15 host registers are back, RSP has popped the return address and control is there; no other memory differs |
| `WorldSwitch.EntryEffect` | src/vmx/vcpu.rs:858-872 | the entry half writes only the 128-byte frame below RSP and `host_stack_top` |
| `WorldSwitch.ExitEffect` | src/vmx/vcpu.rs:901-910 | the exit half, entered at `host_stack_top`, stores the guest in `guest_regs` and reloads the host frame |
| `WorldSwitch.SaveEffect` | src/regs/mod.rs:80-100 | the push sequence lays out the register block in encoding order and skips the RSP slot |
| `WorldSwitch.RestoreEffect` | src/regs/mod.rs:102-122 | the pop sequence is its inverse |
| `WorldSwitch.GuestResumesWhereItStopped` | src/vmx/vcpu.rs:883-910 | two successive entries, from any stacks: the second starts with the registers of the first exit |
| `LaunchProtocol.EveryEntryIsRight` | src/vmx/vcpu.rs:313-324 | after any respectful history, at each entry the current VMCS is the vCPU's own, active nowhere else, with host state from the executing processor and its own HOST_RSP; VMLAUNCH or VMRESUME suits the launch state iff the first entry since binding did not fail |
| `LaunchProtocol.ReachableInv` | src/vmx/vcpu.rs:250-273 | the invariant behind it, over all interleavings of all vCPUs and processors |
| `LaunchProtocol.LaunchedAgrees` | src/vmx/vcpu.rs:1395-1402 | over calls whose entries succeed nothing panics and `launched` equals every VMCS's launch state |
| `LaunchProtocol.SetupKeepsInv` | src/vmx/vcpu.rs:549-560 | setup of any vCPU that has not run since it was bound keeps the invariant; a failed setup counts as a bind and may be retried, a successful one as an unbind |
| `LaunchProtocol.RunKeepsInv` | src/vmx/vcpu.rs:313-324 | a run panics iff the vCPU's first entry since binding failed or VM entry refuses the control fields, and otherwise keeps the invariant |
| `LaunchProtocol.FailedFirstEntry` | src/vmx/vcpu.rs:317-323 | after a failed first entry the next run panics; unbinding and rebinding avoids it |
| `LaunchProtocol.RulesAreNeeded` | src/vmx/vcpu.rs:250-260 | without the caller's rules an entry uses another vCPU's VMCS or one active on two processors, or a run after setup panics |
| `LaunchProtocol.Platform.Bind` | src/vmx/vcpu.rs:1395-1397 | keeps the invariant; the VMCS is current and active here alone, with this processor's host state |
| `LaunchProtocol.Platform.SetupVmcs` | src/vmx/vcpu.rs:549-560 | keeps the invariant; the VMCS is clear, and inactive unless a control was refused |
| `LaunchProtocol.Platform.Unbind` | src/vmx/vcpu.rs:1399-1402 | keeps the invariant; flag and launch state are clear and the VMCS is active nowhere |
| `LaunchProtocol.Platform.EnterGuest` | src/vmx/vcpu.rs:313-324 | keeps the invariant; the guest is entered through the right VMCS, and it panics iff the first entry since binding failed or the control fields are refused |
| `LaunchRuns.RunsFollowProtocol` | src/vmx/vcpu.rs:295-324 | every run of a vCPU, interleaved with calls on other vCPUs, is a respectful history of the protocol, with the same flag and launch state |
| `LaunchRuns.EveryRunEntersRight` | src/vmx/vcpu.rs:295-324 | wherever such a run may go on with `inner_run`, the entry is through the right VMCS, and it panics on a VMfail iff the first entry since the last bind failed, or the event it injects is not in order, or the controls were inconsistent from the start |
| `LaunchRuns.SetupIsConsistent` | src/vmx/vcpu.rs:655-748 | setup rules the last case out |
| `Controls.SetControlExact` | src/vmx/vmcs.rs:653-692 | writes v iff v is acceptable to the processor, has the requested bits on and off, and keeps every other free bit of the old value |
| `Controls.SetControlErrors` | src/vmx/vmcs.rs:663-684 | which error is returned, exactly |
| `Controls.SetControlIdempotent` | src/vmx/vmcs.rs:685-690 | repeating a request on its own result changes nothing |
| `Controls.SetControlComposes` | src/vmx/vmcs.rs:685-690 | two requests in a row are one in which the second overrides the first |
| `ControlRegisters.Cr0RefinesPlain` | src/vmx/vcpu.rs:805-821 | over every sequence of MOVs, trapped or absorbed, the guest sees the last value written; real CR0 and the mask are given bit by bit: NW and CD the processor's, PE and PG the guest's, every other bit as the limits allow |
| `ControlRegisters.Cr4RefinesPlain` | src/vmx/vcpu.rs:823-831 | the same for CR4, with VMXE reading as 1 |
| `ControlRegisters.Cr4RefinesPlainIff` | src/vmx/vcpu.rs:823-831 | it holds for all sequences iff the host owns VMXE |
| `ControlRegisters.ReadsOfHeldRegister` | src/vmx/vcpu.rs:840-854 | `cr(4)` returns what the guest sees; `cr(0)` does iff that value respects the limits |
| `ControlRegisters.HeldCr0IsLegal` | src/vmx/vcpu.rs:806-818 | the same of any state that holds a value: every bit of real CR0 and of the mask; FIXED0/FIXED1 respected, for an unrestricted guest |
| `ControlRegisters.HeldCr4IsLegal` | src/vmx/vcpu.rs:824-828 | every bit of real CR4 and of its mask; FIXED0/FIXED1 respected |
| `ControlRegisters.UpdateEferEffect` | src/vmx/vmcs.rs:789-822 | EFER bit by bit: LMA on, defined bits kept; the IA-32e control on with it; it fails iff that control is not supported |
| `ControlRegisters.PagingOnIsFourLevels` | src/vmx/vcpu.rs:776-795 | after a trapped write with PG while PAE is set, the paging level is 4 |
| `ControlRegisters.PagingLevelOfAccepted` | src/vmx/vcpu.rs:776-795 | in every state VM entry accepts, `get_paging_level` is that of the guest's paging mode |
| `Interruption.EncodeDecode` | src/vmx/vmcs.rs:531-547 | the field decodes under the exit layout to the vector, type, error-code presence and validity it was made of; bits 30:12 are zero |
| `Interruption.DecodeEncode` | src/vmx/vmcs.rs:723-736 | and the other way round |
| `Interruption.InjectAnnounces` | src/vmx/vmcs.rs:738-755 | the three fields written, in the SDM's layout by number; error code and length are touched only for the vectors they matter for |
| `Interruption.InjectedFieldsDecode` | src/vmx/vmcs.rs:738-755 | what `inject_event` writes decodes to the vector, the type by number, and, for the seven vectors that have one, the error code asked for or else the last exit's |
| `Interruption.InjectAcceptedIff` | src/vmx/definitions.rs:251-287 | VM entry takes it iff the vector is not 21 to 31, an error code fits 16 bits and meets protected mode, and soft types have an instruction length |
| `EventRuns.EventsConserved` | src/vmx/vcpu.rs:925-942 | over every run, failed entries included: the deliveries the processor finds in the entry field are the queued events, one for one and in order, followed by those pending, iff no run replays; those that successful entries take, with one still in the field, are so iff no run overwrites |
| `EventRuns.LogOfStep` | src/vmx/vcpu.rs:295-351 | every operation keeps the account: shown + pending = queued + replays, taken + in the field + overwritten + pending = queued |
| `EventRuns.EachEventTakenOnce` | src/vmx/vcpu.rs:925-942 | over runs whose entries succeed every event no longer pending was shown at exactly one VM entry and taken by it, in order, and nothing else ever was |
| `EventRuns.FieldValidIff` | src/vmx/vcpu.rs:313-324 | between operations the field is valid, and the next run replays or overwrites, iff the last run failed to enter with a valid field |
| `EventRuns.FailedEntryThenRun` | src/vmx/vcpu.rs:313-324 | after any entry that fails with an event in the field, the next run overwrites it or shows it again unrefused; it meets no mismatch of the launch state iff the entry was resumed |
| `EventRuns.NmiLost` | src/vmx/vcpu.rs:925-942 | an NMI and an exception queued while MOV SS blocks: the first entry is refused, the second accepted, and the NMI is lost |
| `EventRuns.EntryFieldOfRun` | src/vmx/vcpu.rs:295-324 | the field at entry announces the head of the queue, error code and all, iff the run injects, and the head leaves the queue exactly then; afterwards the field is as at entry if the entry failed and not valid if it succeeded |
| `EventRuns.NeverOverwritten` | src/vmx/vcpu.rs:932-935 | over runs whose entries succeed the field is never valid between runs: no event is written over a valid one or shown twice |
| `EventRuns.InjectionRespectsBlockingIff` | src/vmx/vcpu.rs:917-922 | over every run, replays included, an entry passes the interruptibility checks iff it does not show an NMI while MOV SS blocks |
| `EventRuns.FieldRefusedIff` | src/vmx/vcpu.rs:925-942 | over every run, replays included, with consistent controls: VM entry is refused with a VMfail iff flag and launch state differ or the run injects an event not in order |
| `EventRuns.RefusedEventPanics` | src/vmx/vcpu.rs:912-914 | a run that injects an event not in order panics, whatever the guest |
| `EventRuns.ErrorCodeAfterSetupPanics` | src/vmx/vmcs.rs:738-755 | right after setup a run whose head has an error code panics |
| `EventRuns.EventIsReached` | src/vmx/vcpu.rs:925-942 | over every run an event with k ahead of it has been shown to the processor after k + 1 entries with interrupts open |
| `EventRuns.WaitingMeansArmed` | src/vmx/vcpu.rs:936-939 | at every entry the queue was empty, its head is what the processor finds in the field, or interrupts are not open and the window is armed |
| `EventRuns.InjectsIff` | src/vmx/vcpu.rs:917-935 | a run injects iff the head is an exception or IF is on and nothing blocks |
| `EventRuns.WindowExitInjectsIff` | src/vmx/vcpu.rs:955 | after a window exit the next run injects the head iff it is an exception or nothing at all blocks |
| `EventRuns.NmiBlockingStarves` | src/vmx/vcpu.rs:919-921 | under NMI blocking any number of window exits shows the processor nothing |
| `EventRuns.StarvingRunExists` | src/vmx/vcpu.rs:919-921 | and such runs exist, of every length, from every such state |
| `ExtendedStateRuns.ExtendedStateOfRun` | src/vmx/vcpu.rs:135-162 | after any run XCR0 and XSS are the host's again and the guest's are kept, exactly when the processor has XSAVE and XSAVES; otherwise the guest's stay |
| `ExtendedStateRuns.NestedSwitch` | src/vmx/vcpu.rs:1127-1133 | CPUID leaf 0xD runs with the guest's values and the switch undoes itself |
| `ExtendedStateRuns.GuestSeesItsOwn` | src/vmx/vcpu.rs:299-325 | over every run, whatever the host does between, each entry shows the guest the XCR0 it last had where there is XSAVE, and the IA32_XSS it last had where there is XSAVES |
| `ExtendedStateRuns.HostSeesItsOwn` | src/vmx/vcpu.rs:299-325 | over every run, whatever the guests do, the host finds the values it last set, under the same conditions |
| `ModeRuns.SetupControlsExact` | src/vmx/vcpu.rs:655-748 | setup stores the five control fields iff each has a value the processor grants with the requested bits, given by number |
| `ModeRuns.RunsKeepMode` | src/vmx/vcpu.rs:295-351 | from setup on, over every run: plain CR0 and CR4 holding what the guest moved from its own sixteen registers, only the window and IA-32e bits changed, LMA equal to the IA-32e control |
| `ModeRuns.EveryEntryIsLegal` | src/vmx/vcpu.rs:295-351 | hence at every entry all control fields are legal and have the effects setup is for, real CR0 and CR4 are right bit by bit, the guest sees the plain values, and LMA matches |
| `ModeRuns.LegalIsEffective` | src/vmx/vcpu.rs:655-748 | what the requested bits make the processor do: exits, bitmaps, EPT, unrestricted guest, 64-bit host, EFER and PAT loaded and saved |
| `ModeRuns.TogglingLegalIff` | src/vmx/vcpu.rs:485-495 | turning a control bit on and off stays legal iff the bit is flexible |
| `ModeRuns.HandleCrCrs` | src/vmx/vcpu.rs:1053-1087 | a trapped MOV makes the named register hold the operand and leaves the other alone |
| `Emulation.HandleCrReadsOperand` | src/vmx/vcpu.rs:1061-1072 | for each of the sixteen registers, RSP included, CR0 or CR4 is set from that register of the guest |
| `ModeRuns.NextEntryAcceptedIff` | src/vmx/vcpu.rs:1053-1087 | after any coherent turn the next entry passes the mode checks iff the turn did not end in a MOV that the mask did not absorb and the emulation gets wrong |
| `ModeRuns.FirstEntryAcceptedIff` | src/vmx/vcpu.rs:599-653 | the first entry after setup passes them unless the processor demands PCIDE, or CET without WP; PE and PG are free because setup requested unrestricted guest |
| `ModeRuns.EveryEntryAcceptedIff` | src/vmx/vcpu.rs:1053-1087 | over every run from setup an entry passes the mode checks iff every MOV to CR0 or CR4 so far was absorbed or kept PE, PAE and LME with PG, paging with LMA, PAE with LMA, PCIDE off outside it, and WP with CET |
| `ConfiguredRuns.FirstEntryFlags` | src/vmx/vcpu.rs:639-646 | RFLAGS and interruptibility at the first entry pass the checks, with interrupts off |
| `ConfiguredRuns.ExitsAsConfigured` | src/vmx/vcpu.rs:655-748 | over every run from setup: no host interrupt or NMI reaches the guest, an interrupt exit names its vector, CR3 and CR8 accesses do not exit, ports and MSRs exit only if intercepted or not covered |
| `ConfiguredRuns.CrExitPanicsIff` | src/vmx/vcpu.rs:1053-1087 | over every run from setup `handle_cr` panics iff the access is CLTS or LMSW, and never where the four low bits of CR0 are free |
| `ConfiguredRuns.LmswPanics` | src/vmx/vcpu.rs:1082-1086 | where a low bit of CR0 is fixed, an LMSW right after setup panics |
| `ConfiguredRuns.PortAccessExitsIff` | src/vmx/vcpu.rs:497-526 | over every run from setup, a port access exits iff setup or the host intercepts the port; setup intercepts 0x604 |
| `ConfiguredRuns.MsrAccessExitsIff` | src/vmx/vcpu.rs:527-547 | over every run from setup, an MSR access exits iff it is to 0xE1, 0x800 to 0x83F or an MSR the bitmaps do not cover |
| `ConfiguredRuns.MsrExitsOverRuns` | src/vmx/vcpu.rs:960-970 | and of the MSR accesses that exit the vCPU passes on exactly those not to x2APIC registers |
| `ConfiguredRuns.HostMsrsBackIff` | src/vmx/vcpu.rs:562-565 | over every run from setup, after a run the host's EFER and PAT are as before iff unchanged since the vCPU was bound; the guest starts with its own PAT and EFER |
| `ModeFailures.RefusedRunExists` | src/vmx/vcpu.rs:1053-1087 | every sequence of trapping MOVs whose last one breaks the conditions is a run that ends refused |
| `ModeFailures.ThirtyTwoBitPagingRefused` | src/vmx/vmcs.rs:795-810 | on every processor that accepts the first entry: one run from setup that turns on 32-bit paging, its entry accepted and the next refused |
| `ModeFailures.LeavingLongModeRefused` | src/vmx/vcpu.rs:1074-1076 | on every processor that accepts the first entry: three runs from setup, into long mode and out with the caches off, all entries accepted and the next refused |
| `ModeFailures.PagingOffAbsorbed` | src/vmx/vcpu.rs:806-820 | a MOV that clears PG alone never reaches the code |
| `Emulation.HandlerEmulates` | src/vmx/vcpu.rs:947-974 | a handled exit adds the instruction length to RIP modulo 2^64 and changes only the registers the instruction writes, with the values it should; an unhandled one changes nothing |
| `Emulation.HandlerOutcome` | src/vmx/vcpu.rs:947-974 | which exits end handled, passed on or in a panic |
| `Emulation.PaddingOverRuns` | src/regs/diff.rs:35-37 | the RSP slot never changes over runs, host register setters included, so `is_same` between any two points is decided by named registers alone |
| `Emulation.CrAccessDecodes` | src/vmx/vmcs.rs:824-835 | the exit qualification decodes to register number, access type and operand |
| `Emulation.CpuidAnswersRight` | src/vmx/vcpu.rs:1089-1164 | for every leaf, the answer bit by bit: VMX, WAITPKG and LA57 hidden, the hypervisor announced with its vendor, the frequency defaulted, everything else as the processor says |
| `Emulation.CpuidAsks` | src/vmx/vcpu.rs:1127-1133 | leaf 0xD is asked under the guest's XCR0 and IA32_XSS, every other leaf under the host's |
| `Emulation.CpuidLeaf1Model` | src/vmx/vcpu.rs:1105-1114 | machine checks stay announced in EDX; the model number in EAX is 8 too small iff it is 8 or more |
| `Emulation.CpuidLeaf7HidesIff` | src/vmx/vcpu.rs:1116-1126 | leaf 7 hides WAITPKG and LA57 iff all of RCX is zero, whatever the upper half of RAX |
| `VcpuModel.NoXcr0Passes` | src/vmx/vcpu.rs:1186-1212 | no value passes the XSETBV test, so the handler always errs |
| `VcpuModel.XsetbvPanics` | src/vmx/vcpu.rs:1177-1222 | so XSETBV always ends in a panic, with nothing changed |
| `VcpuStory.StepKeeps` | src/vmx/vcpu.rs:295-351 | every operation keeps the whole story true: events, CR0 and CR4, control fields, extended state, padding |
| `VcpuStory.DoneSetup` | src/vmx/vcpu.rs:549-560 | a successful setup starts the plain CR0 and CR4 anew over legal controls and keeps the rest of the story |
| `VcpuStory.VmfailIff` | src/vmx/vcpu.rs:313-324 | from any state a run meets a VMfail iff flag and launch state differ, or the controls are inconsistent, or it injects an event not in order, or it shows again a field VM entry refuses |
| `VcpuStory.StaleFieldRefused` | src/vmx/vcpu.rs:549-560 | an error code left in the field by a failed entry is refused after setup |
| `Vcpu.VmxVcpu.constructor` | src/vmx/vcpu.rs:216-238 | establishes the invariant, with an empty story; host and guest extended state both start as the processor's, where it has them |
| `Vcpu.VmxVcpu.QueueEvent` | src/vmx/vcpu.rs:478-480 | keeps the invariant; the event is the last to be accounted for |
| `Vcpu.VmxVcpu.SetInterruptWindow` | src/vmx/vcpu.rs:485-495 | changes the window bit alone and keeps the invariant |
| `Vcpu.VmxVcpu.SetupVmcs` | src/vmx/vcpu.rs:549-560 | keeps the invariant, queued events included; succeeds iff every control is granted, and then the vCPU is as set up, with exactly port 0x604, MSR 0xE1 and 0x800 to 0x83F added to what is intercepted; the VMCS is clear and the flag untouched |
| `Vcpu.VmxVcpu.RunOnce` | src/vmx/vcpu.rs:295-351 | keeps the invariant unless it panics, which it does when flag and launch state differ or VM entry refuses the event it shows; the story grows by what the processor found in the field; the guest found its own extended state and the host finds its own; after setup the entry was legal and showed the plain CR0 and CR4 |
| `Vcpu.VmxVcpu.Unbind` | src/vmx/vcpu.rs:1399-1402 | keeps the invariant; the vCPU can be launched again |
| `Vcpu.VmxVcpu.SetGpr` | src/vmx/vcpu.rs:1404-1406 | keeps the invariant; one named register changes, by its number modulo 256, or it panics |
| `Vcpu.VmxVcpu.SetStackPointer` | src/vmx/vcpu.rs:399-401 | keeps the invariant; the guest's RSP alone changes |
| `Vcpu.VmxVcpu.AdvanceRip` | src/vmx/vcpu.rs:472-474 | keeps the invariant; RIP becomes RIP plus the length, modulo 2^64, and nothing else changes |
| `Vcpu.VmxVcpu.Bind` | src/vmx/vcpu.rs:562-565 | keeps the invariant; VM exits will load the processor's present EFER and PAT |
| `Vcpu.VmxVcpu.InterceptPorts` | src/vmx/vcpu.rs:497-501 | keeps the invariant; the intercepted ports become the union or difference with the range, or it panics |
| `Vcpu.VmxVcpu.InterceptMsr` | src/vmx/vcpu.rs:503-508 | keeps the invariant; one MSR changes, in both directions, or it panics |
| `Registers.PaddingSlotKept` | src/regs/accessors.rs:104-126 | no sequence of world switches and setters changes the RSP slot |
| `Registers.ChangedRegisters` | src/regs/diff.rs:41-61 | the diff loop reports exactly the changed named registers, in order; with equal padding it is empty iff the blocks are equal |
| `Registers.IsSameIffNothingReported` | src/regs/diff.rs:35-37 | between any two states of one block `is_same` holds iff no named register differs |
| `Registers.WritesFollowLastWriter` | src/regs/accessors.rs:134-256 | over any sequence of setter calls every lane of every register holds what its last writer put there (32-bit writes zero the upper half) |
| `Registers.LanesFixReads` | src/regs/accessors.rs:147-160 | every getter is determined by the lanes |
| `Registers.SliceWriteByLanes` | src/regs/accessors.rs:161-177 | one setter call, lane by lane |
| `Registers.EdxEaxRoundTrip` | src/vmx/vcpu.rs:977-985 | EDX:EAX is the low halves of RDX and RAX; it round-trips, acts as the 32-bit setters, and is the identity the other way iff both registers fit 32 bits |
| `Registers.GeneralRegisters.GetRegOfIndex` | src/regs/accessors.rs:49-71 | the named register, or refusal |
| `Registers.GeneralRegisters.SetRegOfIndex` | src/regs/accessors.rs:104-126 | one register changes, or none on refusal |
| `Registers.GeneralRegisters.SetSub` | src/regs/accessors.rs:161-177 | one slice write |
| `Bitmaps.SdmBitInjective` | src/vmx/structs.rs:141-161 | the bit positions of section 24.6.9 are distinct for distinct accesses and lie in the frame |
| `Bitmaps.MsrBitmap.SetIntercept` | src/vmx/structs.rs:141-167 | exactly one (MSR, direction) pair changes |
| `Bitmaps.MsrBitmap.SetupMsrBitmap` | src/vmx/vcpu.rs:527-547 | exactly 0xE1 and 0x800 to 0x83F are added, in both directions |
| `Bitmaps.TrappedMsrsHandled` | src/vmx/vcpu.rs:960-970 | of these the handler takes every x2APIC access and passes on exactly 0xE1 |
| `Bitmaps.IOBitmap.SetIntercept` | src/vmx/structs.rs:94-109 | one port changes, or the index is out of bounds |
| `Bitmaps.IOBitmap.SetInterceptOfRange` | src/vmx/structs.rs:111-115 | the port set becomes the union or difference with the interval; it panics iff the range leaves the two reachable windows |
| `PerCpu.VmxPerCpuState.HardwareEnable` | src/vmx/percpu.rs:58-134 | in VMX operation iff it returns Ok, and then VMXE is set and the region live with the reported revision; Ok, and the fault of VMXON that leaves the processor half enabled, each exactly when |
| `PerCpu.VmxPerCpuState.HardwareDisable` | src/vmx/percpu.rs:136-156 | VMXOFF, then VMXE, then the region; faults iff half enabled |
| `PerCpu.VmxPerCpuState.constructor` | src/vmx/percpu.rs:47-52 | outside VMX operation, with no region |
| `PerCpu.CrIsValidIff` | src/vmx/percpu.rs:82-98 | the test of CR0 and CR4 fails only for zero where FIXED0 is all ones and for all ones where FIXED1 is zero |

## Left out

- `run` and the translation of exits to `AxVCpuExitReason`, `io_exit_info`, `ept_violation_info`, `exit_info`: one table lookup or field extraction each.
- `handle_apic_access`: it ends in `unimplemented!`; modelled as a panic.
- `EmulatedLocalApic`: another crate; its result is a parameter that may fail.
- `inject_interrupt`: a check for vector 0 and a truncation to 8 bits in front of `queue_event`.
- That the fixed instruction lengths (2 and 3 bytes) equal the real ones; RIP wraps at 64 bits where a debug build would panic.
- RFLAGS in the world switch: SUB and ADD change it; the guest's is in the VMCS and the caller does not rely on it.
- Redelivery of events interrupted during delivery: the code does not read the IDT-vectoring field, so conservation speaks of events written to the entry field.
- Host-state fields other than their origin, EFER and PAT; guest segments, descriptor tables, EPT pointer, preemption timer: plain writes of constants or of values read.
- The CPUID instruction, VMREAD, VMWRITE, INVEPT and the failure of VMREAD or VMWRITE on a current VMCS: hardware.
- The five checks on IA32_VMX_BASIC in `hardware_enable`: one parameter.
- `get_cpu_mode`, `gla2gva`, `get_ptw_info`, `get_tr_base`: single expressions over fields.
- Vcpu.VmxVcpu.constructor: allocation of the VMCS region and bitmaps can fail in the source and is not modelled there.
