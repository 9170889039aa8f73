/** One vCPU and the processor state it works on: `setup_vmcs_control`, `inject_pending_events`,
    the extended-state switch, `inner_run` and `builtin_vmexit_handler`, as functions of the state.
    The guest and the hardware between VM entry and VM exit are an arbitrary `Turn`.
    Models `src/vmx/vcpu.rs` and `src/vmx/vmcs.rs`. */
module VcpuModel {
  import opened Wrappers
  import opened Bits
  import opened Controls
  import opened Processor
  import opened ControlRegisters
  import opened Interruption
  import opened Registers

  // ---------------------------------------------------------------------------------------------
  // State
  // ---------------------------------------------------------------------------------------------

  /** The capability MSRs, constant for the life of the machine. The defaults are the low halves of the
      older capability MSRs, which `setup_vmcs_control` passes as old values. */
  datatype Caps = Caps(cr0: Limits, cr4: Limits, pin: Capability, primary: Capability, secondary: Capability,
                       exit: Capability, entry: Capability, pinDefault: Bits32, primaryDefault: Bits32,
                       secondaryDefault: Bits32, exitDefault: Bits32, entryDefault: Bits32)

  datatype Features = Features(rdtscp: bool, invpcid: bool, xsaves: bool)

  /** What the I/O and MSR bitmaps intercept. */
  datatype Traps = Traps(ports: set<nat>, msrReads: set<nat>, msrWrites: set<nat>)

  /** `host` is the part of the host-state area that this model follows, `traps` what the bitmaps that the VMCS points
      at say. */
  datatype Vmcs = Vmcs(cr0: Cr, cr3: Bits64, cr4: Cr, efer: Bits64, pat: nat, rflags: Bits64, interruptibility: Bits32,
                       rip: Word, rsp: Word, controls: ControlFields, inject: EntryFields, exitErr: U32, exitLen: U32,
                       host: Msrs, traps: Traps)

  datatype Event = Event(vector: Vector, err: Option<U32>)

  /** XCR0 and IA32_XSS of the processor. */
  datatype Phys = Phys(xcr0: Word, xss: Word)

  datatype XState =
    XState(hostXcr0: Word, guestXcr0: Word, hostXss: Word, guestXss: Word, xsave: bool, xsaves: bool)

  /** `launched` is the field of the vCPU, `vmxLaunched` the launch state of its VMCS; `phys` and `msrs` are what the
      executing processor has. */
  datatype Vcpu = Vcpu(regs: seq<Word>, launched: bool, pending: seq<Event>, xstate: XState,
                       vmcs: Vmcs, vmxLaunched: bool, phys: Phys, msrs: Msrs)

  const RFLAGS_IF: nat := 9
  /** Interruptibility state: blocking by STI, by MOV SS and by NMI. */
  const BY_STI: nat := 0
  const BY_MOV_SS: nat := 1
  const BY_NMI: nat := 3
  /** Primary control "interrupt-window exiting". */
  const WINDOW: nat := 2

  // ---------------------------------------------------------------------------------------------
  // Setup of the control fields
  // ---------------------------------------------------------------------------------------------

  // Pin-based controls
  const EXTERNAL_INTERRUPT_EXITING: nat := 0
  const NMI_EXITING: nat := 3
  // Primary processor-based controls
  const CR3_LOAD_EXITING: nat := 15
  const CR3_STORE_EXITING: nat := 16
  const CR8_LOAD_EXITING: nat := 19
  const CR8_STORE_EXITING: nat := 20
  const USE_IO_BITMAPS: nat := 25
  const USE_MSR_BITMAPS: nat := 28
  const SECONDARY_CONTROLS: nat := 31
  // Secondary processor-based controls
  const ENABLE_EPT: nat := 1
  const ENABLE_RDTSCP: nat := 3
  const UNRESTRICTED_GUEST: nat := 7
  const ENABLE_INVPCID: nat := 12
  const ENABLE_XSAVES: nat := 20
  // VM-exit controls
  const HOST_ADDRESS_SPACE_SIZE: nat := 9
  const ACK_INTERRUPT_ON_EXIT: nat := 15
  const SAVE_PAT: nat := 18
  const EXIT_LOAD_PAT: nat := 19
  const SAVE_EFER: nat := 20
  const EXIT_LOAD_EFER: nat := 21
  // VM-entry controls
  const ENTRY_LOAD_PAT: nat := 14
  const ENTRY_LOAD_EFER: nat := 15

  const PIN_ON: Bits32 := {NMI_EXITING, EXTERNAL_INTERRUPT_EXITING}
  const PRIMARY_ON: Bits32 := {USE_IO_BITMAPS, USE_MSR_BITMAPS, SECONDARY_CONTROLS}
  const PRIMARY_OFF: Bits32 := {CR3_LOAD_EXITING, CR3_STORE_EXITING, CR8_LOAD_EXITING, CR8_STORE_EXITING}
  const EXIT_ON: Bits32 :=
    {HOST_ADDRESS_SPACE_SIZE, ACK_INTERRUPT_ON_EXIT, SAVE_PAT, EXIT_LOAD_PAT, SAVE_EFER, EXIT_LOAD_EFER}
  const ENTRY_ON: Bits32 := {ENTRY_LOAD_PAT, ENTRY_LOAD_EFER}

  function SecondaryOn(f: Features): Bits32 {
    {ENABLE_EPT, UNRESTRICTED_GUEST}
    + (if f.rdtscp then {ENABLE_RDTSCP} else {})
    + (if f.invpcid then {ENABLE_INVPCID} else {})
    + (if f.xsaves then {ENABLE_XSAVES} else {})
  }

  /** `setup_vmcs_control` for a guest: five requests in order, stopping at the first that fails. */
  function SetupControls(c: Caps, f: Features): (r: Option<ControlFields>) {
    var pin := SetControl(c.pin, c.pinDefault, PIN_ON, {});
    if !pin.Written? then None else
    var primary := SetControl(c.primary, c.primaryDefault, PRIMARY_ON, PRIMARY_OFF);
    if !primary.Written? then None else
    var secondary := SetControl(c.secondary, c.secondaryDefault, SecondaryOn(f), {});
    if !secondary.Written? then None else
    var exit := SetControl(c.exit, c.exitDefault, EXIT_ON, {});
    if !exit.Written? then None else
    var entry := SetControl(c.entry, c.entryDefault, ENTRY_ON, {});
    if !entry.Written? then None else
    Some(ControlFields(pin.value, primary.value, secondary.value, exit.value, entry.value))
  }

  /** `QEMU_EXIT_PORT`, the one port that `setup_io_bitmap` intercepts. */
  const EXIT_PORT: nat := 0x604

  /** The MSRs that `setup_msr_bitmap` intercepts: IA32_UMWAIT_CONTROL and the x2APIC ones. */
  const SETUP_MSRS: set<nat> := {0xe1} + (set m: nat | 0x800 <= m <= 0x83f)

  function SetupTraps(t: Traps): Traps {
    Traps(t.ports + {EXIT_PORT}, t.msrReads + SETUP_MSRS, t.msrWrites + SETUP_MSRS)
  }

  /** What `setup_vmcs_guest`, the bitmaps' setup and the sampling of the host state leave: fresh control registers,
      EFER zero, the processor's PAT, interrupts off. The queue and the entry field are not touched. */
  predicate GuestFresh(c: Caps, v: Vcpu) {
    && |v.regs| == COUNT
    && v.vmcs.cr0 == SetCr0(c.cr0, {NW, CD, ET})
    && v.vmcs.cr4 == SetCr4(c.cr4, {})
    && v.vmcs.efer == {}
    && v.vmcs.rflags == {1}
    && v.vmcs.interruptibility == {}
    && v.vmcs.pat == v.msrs.pat
    && v.vmcs.host == v.msrs
    && v.vmcs.traps == SetupTraps(v.vmcs.traps)
  }

  /** The vCPU after a successful `setup`. */
  predicate JustSetUp(c: Caps, f: Features, v: Vcpu) {
    GuestFresh(c, v) && SetupControls(c, f) == Some(v.vmcs.controls)
  }

  // ---------------------------------------------------------------------------------------------
  // Events
  // ---------------------------------------------------------------------------------------------

  function SetWindow(m: Vmcs, enable: bool): Vmcs {
    var p := m.controls.primary;
    m.(controls := m.controls.(primary := if enable then p + {WINDOW} else p - {WINDOW}))
  }

  predicate AllowInterrupt(m: Vmcs) {
    RFLAGS_IF in m.rflags && m.interruptibility == {}
  }

  /** The head of the queue goes into the entry field on this run. */
  predicate Injects(v: Vcpu) {
    v.pending != [] && (v.pending[0].vector < 32 || AllowInterrupt(v.vmcs))
  }

  function InjectPending(v: Vcpu): Vcpu {
    if v.pending == [] then v
    else if Injects(v) then
      var e := v.pending[0];
      v.(vmcs := v.vmcs.(inject := InjectEvent(v.vmcs.inject, e.vector, e.err, v.vmcs.exitErr, v.vmcs.exitLen)),
         pending := v.pending[1..])
    else v.(vmcs := SetWindow(v.vmcs, true))
  }

  // ---------------------------------------------------------------------------------------------
  // Extended state
  // ---------------------------------------------------------------------------------------------

  function ToGuest(v: Vcpu): Vcpu {
    var x, p := v.xstate, v.phys;
    if !x.xsave then v
    else
      var x1, p1 := x.(hostXcr0 := p.xcr0), p.(xcr0 := x.guestXcr0);
      if !x.xsaves then v.(xstate := x1, phys := p1)
      else v.(xstate := x1.(hostXss := p1.xss), phys := p1.(xss := x1.guestXss))
  }

  function ToHost(v: Vcpu): Vcpu {
    var x, p := v.xstate, v.phys;
    if !x.xsave then v
    else
      var x1, p1 := x.(guestXcr0 := p.xcr0), p.(xcr0 := x.hostXcr0);
      if !x.xsaves then v.(xstate := x1, phys := p1)
      else v.(xstate := x1.(guestXss := p1.xss), phys := p1.(xss := x1.hostXss))
  }

  // ---------------------------------------------------------------------------------------------
  // The guest's turn
  // ---------------------------------------------------------------------------------------------

  datatype CpuidResult = CpuidResult(eax: U32, ebx: U32, ecx: U32, edx: U32)

  /** What the processor answers to the CPUID instruction the handler executes, which may depend on the XCR0 and
      IA32_XSS in force then. */
  datatype CpuidTable = CpuidTable(at: map<Phys, CpuidResult>, elsewhere: CpuidResult) {
    function Of(p: Phys): CpuidResult { if p in at then at[p] else elsewhere }
  }

  /** The exit reasons that are told apart here, with what the environment supplies for each: the processor's CPUID
      answers, and the outcome of the emulated local APIC. */
  datatype Exit =
    | ExternalInterrupt(info: U32)
    | InterruptWindow
    | PreemptionTimer
    | Xsetbv
    | CrAccessExit(qualification: Word)
    | Cpuid(table: CpuidTable)
    | IoInstruction(port: nat)
    | MsrRead(apic: Option<Word>)
    | MsrWrite(apicOk: bool)
    | ApicAccess
    | OtherExit(reason: nat)

  /** The exit reasons that have their own case above. */
  const OWN_CASE: set<nat> := {1, 7, 10, 28, 30, 31, 32, 44, 52, 55}

  /** What happens between VM entry and VM exit: the MOVs to CR0 and CR4 that did not exit, whether the guest's own
      handlers took an interrupt or NMI of the host, the state at the exit, and its cause. A turn with `entered` false
      is a VM entry that failed on guest state. */
  datatype Turn = Turn(entered: bool, cr0Writes: seq<Bits64>, cr4Writes: seq<Bits64>,
                       tookInterrupt: bool, tookNmi: bool, regs: seq<Word>, cr3: Bits64, efer: Bits64, pat: nat,
                       rflags: Bits64, interruptibility: Bits32, rip: Word, rsp: Word, phys: Phys,
                       exit: Exit, exitErr: U32, exitLen: U32)

  // The exit qualification of a control-register access, section 27.2.1: the register in bits 3:0, the kind of access
  // in bits 5:4, the general-purpose register in bits 11:8, the operand of LMSW in bits 31:16.

  predicate MovTo(exit: Exit, cr: nat) {
    exit.CrAccessExit? && exit.qualification % 16 == cr && exit.qualification / 16 % 4 == 0
  }

  /** The operand of a MOV, in the sixteen registers as the guest has them. */
  function Operand(regs: seq<Word>, rsp: Word, qualification: Word): Bits64
    requires |regs| == COUNT
  {
    OneBits(regs[RSP := rsp][qualification / 256 % 16])
  }

  /** LMSW exits if it would change a host-owned bit among the low four of the shadow; it never clears PE. */
  predicate LmswExits(cr: Cr, source: Bits64) {
    || (0 in cr.mask && 0 in source && 0 !in cr.shadow)
    || (exists i: nat :: 1 <= i <= 3 && i in cr.mask && (i in source) != (i in cr.shadow))
  }

  /** Section 25.1.3 of Intel SDM Vol. 3C: the accesses to control registers that exit. */
  predicate CrExits(m: Vmcs, q: Word, val: Bits64) {
    var cr, kind := q % 16, q / 16 % 4;
    if kind == 0 then
      if cr == 0 then !Absorbed(m.cr0, val)
      else if cr == 3 then Cr3LoadsExit(m.controls)
      else if cr == 4 then !Absorbed(m.cr4, val)
      else cr == 8 && Cr8LoadsExit(m.controls)
    else if kind == 1 then (cr == 3 && Cr3StoresExit(m.controls)) || (cr == 8 && Cr8StoresExit(m.controls))
    else if kind == 2 then 3 in m.cr0.mask && 3 in m.cr0.shadow
    else LmswExits(m.cr0, OneBits(q / 0x1_0000 % 0x1_0000))
  }

  /** The exits that the processor can raise under the fields `m`, with the guest as it is at the exit. The interrupt
      window opens only when it is asked for, IF is 1 and neither STI nor MOV SS blocks (section 25.2). */
  predicate ExitOk(m: Vmcs, t: Turn)
    requires |t.regs| == COUNT
  {
    var k, msr := m.controls, t.regs[RCX] % TWO32;
    match t.exit
    case ExternalInterrupt(info) => InterruptsExit(k) && (InterruptsAcknowledged(k) <==> info / 0x8000_0000 == 1)
    case InterruptWindow =>
      WindowArmed(k) && 9 in t.rflags && 0 !in t.interruptibility && 1 !in t.interruptibility
    case PreemptionTimer => TimerExits(k)
    case CrAccessExit(q) => CrExits(m, q, Operand(t.regs, t.rsp, q))
    case IoInstruction(port) => PortExits(k, port in m.traps.ports)
    case MsrRead(_) => MsrExits(k, Covered(msr), msr in m.traps.msrReads)
    case MsrWrite(_) => MsrExits(k, Covered(msr), msr in m.traps.msrWrites)
    case ApicAccess => ApicAccessesExit(k)
    case OtherExit(reason) => reason !in OWN_CASE
    case _ => true
  }

  /** What the hardware guarantees of a turn. Mask and shadow do not change during it. */
  predicate TurnOk(m: Vmcs, t: Turn) {
    && |t.regs| == COUNT
    && (forall i :: 0 <= i < |t.cr0Writes| ==> Absorbed(m.cr0, t.cr0Writes[i]))
    && (forall i :: 0 <= i < |t.cr4Writes| ==> Absorbed(m.cr4, t.cr4Writes[i]))
    && (t.tookInterrupt ==> !InterruptsExit(m.controls))
    && (t.tookNmi ==> !NmisExit(m.controls))
    && ExitOk(m, t)
    && (!t.entered ==> t.exit.OtherExit?)
  }

  /** VMLAUNCH or VMRESUME, chosen by the flag, suits the launch state of the VMCS. */
  predicate LaunchOk(v: Vcpu) { v.launched == v.vmxLaunched }

  /** The entry field passes the checks of VM entry. */
  predicate FieldAccepted(m: Vmcs) { EntryChecks(m.inject, PE in m.cr0.actual) }

  predicate ControlsAccepted(m: Vmcs) { Consistent(m.controls) && FieldAccepted(m) }

  /** A run from `v` does not meet a VMfail. */
  predicate CanEnter(v: Vcpu) { LaunchOk(v) && ControlsAccepted(AtEntry(v).vmcs) }

  /** Section 26.3.1.5 of Intel SDM Vol. 3C: an external interrupt needs IF and no blocking by STI or MOV
      SS; an NMI needs no blocking by MOV SS. An entry that violates this fails on guest state. */
  predicate InterruptibilityAccepts(m: Vmcs) {
    var kind := m.inject.info / 0x100 % 8;
    m.inject.IsValid() ==>
      && (kind == 0 ==> RFLAGS_IF in m.rflags && BY_STI !in m.interruptibility && BY_MOV_SS !in m.interruptibility)
      && (kind == 2 ==> BY_MOV_SS !in m.interruptibility)
  }

  /** The world switch brings the guest's registers into `guest_regs`. VM exit saves the guest state, clears the valid
      bit of the entry field, stores EFER.LMA in the IA-32e-mode-guest control, and loads the host's MSRs. A failed
      entry also loads them, and changes nothing else. */
  function Enter(v: Vcpu, t: Turn): Vcpu
    requires |v.regs| == |t.regs| == COUNT
  {
    var m, k := v.vmcs, v.vmcs.controls;
    if !t.entered then v.(launched := true, msrs := AtHostEntry(k, m.host, v.msrs))
    else
      var entry := if 10 in t.efer then k.entry + {9} else k.entry - {9};
      var left := Msrs(t.efer, t.pat);
      var saved := SavedAtExit(k, Msrs(m.efer, m.pat), left);
      v.(launched := true, vmxLaunched := true, regs := AfterExit(v.regs, t.regs), phys := t.phys,
         msrs := AtHostEntry(k, m.host, left),
         vmcs := m.(cr0 := AbsorbAll(m.cr0, t.cr0Writes), cr3 := t.cr3, cr4 := AbsorbAll(m.cr4, t.cr4Writes),
                    efer := saved.efer, pat := saved.pat, rflags := t.rflags, interruptibility := t.interruptibility,
                    rip := t.rip, rsp := t.rsp, controls := k.(entry := entry), inject := m.inject.Consumed(),
                    exitErr := t.exitErr, exitLen := t.exitLen))
  }

  // ---------------------------------------------------------------------------------------------
  // Exit handling
  // ---------------------------------------------------------------------------------------------

  datatype Outcome = Handled | NotHandled | Panicked

  /** An instruction length as `advance_rip` takes it. */
  type Length = n: nat | n < 256

  function RipAfter(rip: Word, n: Length): Word {
    if rip + n < TWO64 then rip + n else rip + n - TWO64
  }

  function AdvanceRip(m: Vmcs, n: Length): Vmcs {
    m.(rip := RipAfter(m.rip, n))
  }

  datatype CrAccess = CrAccess(crNumber: nat, accessType: nat, gpr: nat)

  /** `cr_access_info`. */
  function CrAccessOf(qualification: Word): (r: CrAccess)
    ensures r.crNumber < 16 && r.accessType < 4 && r.gpr < 16
  {
    CrAccess(qualification % 16, qualification / 16 % 4, qualification / 256 % 16)
  }

  /** The value `handle_cr` takes for a MOV to CR: RSP comes from the VMCS, the rest from `guest_regs`. */
  function MovSource(regs: seq<Word>, rsp: Word, gpr: nat): Word
    requires |regs| == COUNT && gpr < 16
  {
    if gpr == RSP then rsp else regs[gpr]
  }

  /** `handle_cr`. */
  function HandleCr(c: Caps, v: Vcpu, qualification: Word): (Vcpu, Outcome)
    requires |v.regs| == COUNT
  {
    var a := CrAccessOf(qualification);
    if a.accessType != 0 || !(a.crNumber == 0 || a.crNumber == 4) then (v, Panicked)
    else
      var val := OneBits(MovSource(v.regs, v.vmcs.rsp, a.gpr));
      var m := AdvanceRip(v.vmcs, 3);
      if a.crNumber == 4 then (v.(vmcs := m.(cr4 := SetCr4(c.cr4, val))), Handled)
      else
        var m1 := m.(cr0 := SetCr0(c.cr0, val));
        if PG !in val then (v.(vmcs := m1), Handled)
        else
          var u := UpdateEfer(c.entry, m1.efer, m1.controls.entry);
          (v.(vmcs := m1.(efer := u.efer, controls := m1.controls.(entry := u.entry))),
           if u.ok then Handled else Panicked)
  }

  predicate IsX2Apic(regs: seq<Word>)
    requires |regs| == COUNT
  {
    0x800 <= regs[RCX] % TWO32 <= 0x8ff
  }

  function ClearBit(n: U32, weight: nat): U32
    requires weight > 0
  {
    if n / weight % 2 == 1 && n >= weight then n - weight else n
  }

  /** The rewriting of the processor's answer in `handle_cpuid`. */
  function CpuidAnswer(rax: Word, rcx: Word, raw: CpuidResult): CpuidResult {
    match rax % TWO32
    case 0x1 =>
      var ecx := ClearBit(raw.ecx, 0x20);
      raw.(ecx := if ecx < 0x8000_0000 then ecx + 0x8000_0000 else ecx, eax := ClearBit(raw.eax, 0x80))
    case 0x7 => if rcx == 0 then raw.(ecx := ClearBit(ClearBit(raw.ecx, 0x20), 0x1_0000)) else raw
    case 0x16 => if raw.eax == 0 then raw.(eax := 3000) else raw
    case 0x4000_0000 => CpuidResult(0x4000_0001, 0x524d_5652, 0x5652_4d56, 0x4d56_524d)
    case 0x4000_0001 => CpuidResult(0, 0, 0, 0)
    case _ => raw
  }

  /** `handle_cpuid`: leaf 0xD is asked with the guest's extended state in force. */
  function HandleCpuid(v: Vcpu, table: CpuidTable): Vcpu
    requires |v.regs| == COUNT
  {
    var leafD := v.regs[RAX] % TWO32 == 0xd;
    var asked := if leafD then ToGuest(v) else v;
    var r := CpuidAnswer(v.regs[RAX], v.regs[RCX], table.Of(asked.phys));
    var v1 := if leafD then ToHost(asked) else asked;
    v1.(regs := v1.regs[RAX := r.eax][RBX := r.ebx][RCX := r.ecx][RDX := r.edx], vmcs := AdvanceRip(v1.vmcs, 2))
  }

  const XCR0_X87: nat := 0
  const XCR0_SSE: nat := 1
  const XCR0_AVX: nat := 2
  const XCR0_BNDREG: nat := 3
  const XCR0_BNDCSR: nat := 4
  const XCR0_OPMASK: nat := 5
  const XCR0_ZMM_HI256: nat := 6
  const XCR0_HI16_ZMM: nat := 7

  /** The test that `handle_xsetbv` applies to the value. */
  predicate Xcr0Passes(x: Bits64) {
    && XCR0_X87 in x
    && !(XCR0_AVX in x && XCR0_SSE !in x)
    && (XCR0_BNDCSR in x <==> XCR0_BNDREG in x)
    && !(XCR0_OPMASK in x || XCR0_ZMM_HI256 in x || XCR0_HI16_ZMM in x || XCR0_AVX !in x
         || XCR0_OPMASK !in x || XCR0_ZMM_HI256 !in x || XCR0_HI16_ZMM !in x)
  }

  /** No value passes, not even the x87, SSE and AVX state every processor with AVX supports. */
  lemma NoXcr0Passes(x: Bits64)
    ensures !Xcr0Passes(x)
  {
  }

  /** The bits that `Xcr0::from_bits` knows. */
  const XCR0_KNOWN: Bits64 := {0, 1, 2, 3, 4, 5, 6, 7, 9}

  function AcceptXsetbv(v: Vcpu, value: Word): Vcpu {
    v.(xstate := v.xstate.(guestXcr0 := value), vmcs := AdvanceRip(v.vmcs, 3))
  }

  /** `handle_xsetbv`. */
  function HandleXsetbv(v: Vcpu): (Vcpu, Outcome)
    requires |v.regs| == COUNT
  {
    var value := ReadEdxEax(v.regs);
    if v.regs[RCX] % TWO32 != 0 || !(OneBits(value) <= XCR0_KNOWN && Xcr0Passes(OneBits(value))) then (v, Panicked)
    else (AcceptXsetbv(v, value), Handled)
  }

  /** So XSETBV always ends in a panic. */
  lemma XsetbvPanics(v: Vcpu)
    requires |v.regs| == COUNT
    ensures HandleXsetbv(v) == (v, Panicked)
  {
    NoXcr0Passes(OneBits(ReadEdxEax(v.regs)));
  }

  /** `builtin_vmexit_handler`, with the panic that `inner_run` adds when it reports an error. */
  function Handle(c: Caps, v: Vcpu, exit: Exit): (Vcpu, Outcome)
    requires |v.regs| == COUNT
  {
    match exit
    case InterruptWindow => (v.(vmcs := SetWindow(v.vmcs, false)), Handled)
    case PreemptionTimer => (v, Handled)
    case Xsetbv => HandleXsetbv(v)
    case CrAccessExit(q) => HandleCr(c, v, q)
    case Cpuid(table) => (HandleCpuid(v, table), Handled)
    case MsrRead(apic) =>
      if !IsX2Apic(v.regs) then (v, NotHandled)
      else
        var v1 := v.(vmcs := AdvanceRip(v.vmcs, 2));
        if apic.None? then (v1, Panicked) else (v1.(regs := WriteEdxEax(v1.regs, apic.value)), Handled)
    case MsrWrite(apicOk) =>
      if !IsX2Apic(v.regs) then (v, NotHandled)
      else (v.(vmcs := AdvanceRip(v.vmcs, 2)), if apicOk then Handled else Panicked)
    case ApicAccess => (v, Panicked)
    case ExternalInterrupt(_) => (v, NotHandled)
    case IoInstruction(_) => (v, NotHandled)
    case OtherExit(_) => (v, NotHandled)
  }

  /** The state at VM entry. */
  function AtEntry(v: Vcpu): Vcpu { ToGuest(InjectPending(v)) }

  /** The state when exit handling starts. */
  function AtExit(v: Vcpu, t: Turn): Vcpu
    requires |v.regs| == |t.regs| == COUNT
  {
    ToHost(Enter(AtEntry(v), t))
  }

  /** `inner_run`: a VMfail at the entry, or an error from the handler, panics. */
  function InnerRun(c: Caps, v: Vcpu, t: Turn): (Vcpu, Outcome)
    requires |v.regs| == COUNT && TurnOk(AtEntry(v).vmcs, t)
  {
    if !CanEnter(v) then (AtEntry(v).(launched := true), Panicked)
    else Handle(c, AtExit(v, t), t.exit)
  }

  /** The call gets as far as handling the exit of turn `t`. */
  predicate Runs(v: Vcpu, t: Turn) {
    |v.regs| == COUNT && TurnOk(AtEntry(v).vmcs, t) && CanEnter(v)
  }
}
