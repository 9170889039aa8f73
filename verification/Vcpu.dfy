/** The vCPU object: the methods of `VmxVcpu` and `XState` that change state. Those that callers use keep the
    invariant `Valid()`, which ties the state to everything that has happened to the object; the others are the
    steps `inner_run` is made of, each proved to do what the function of `VcpuModel` says. Models
    `src/vmx/vcpu.rs` and `src/vmx/vmcs.rs`. */
module Vcpu {
  import opened Wrappers
  import opened Bits
  import opened Controls
  import opened ControlRegisters
  import opened Processor
  import opened Interruption
  import opened Registers
  import Model = VcpuModel
  import opened VcpuModel
  import opened VcpuRuns
  import opened EventRuns
  import opened ExtendedStateRuns
  import opened ModeRuns
  import opened VcpuStory

  class VmxVcpu {
    /** The capability MSRs of the processors it runs on. */
    const caps: Caps

    var guestRegs: seq<Word>
    var launched: bool
    var pendingEvents: seq<Event>
    var xstate: XState
    /** The fields of its VMCS, current while its methods run, and the launch state of that VMCS. */
    var vmcs: Vmcs
    var vmxLaunched: bool
    /** XCR0 and IA32_XSS, IA32_EFER and IA32_PAT of the executing processor. */
    var phys: Phys
    var msrs: Msrs
    /** What has happened to it since `new`. */
    ghost var story: Story

    ghost function View(): Model.Vcpu
      reads this
    {
      Model.Vcpu(guestRegs, launched, pendingEvents, xstate, vmcs, vmxLaunched, phys, msrs)
    }

    /** The padding slot is zero; the events shown to the processor, those it took and those pending account for
        the events queued; the guest's extended state is kept; and since the last successful setup the guest sees
        CR0 and CR4 as plain registers, over legal control fields. */
    ghost predicate Valid()
      reads this
    {
      IsTrue(caps, story, View())
    }

    /** `new`: the extended state is the host's, and both sides start from it; the bitmaps let everything through. */
    constructor (caps: Caps, vmcs: Vmcs, phys: Phys, msrs: Msrs, xsave: bool, xsaves: bool)
      requires !vmcs.inject.IsValid()
      ensures Valid() && this.caps == caps && this.vmcs == vmcs.(traps := Traps({}, {}, {}))
      ensures this.phys == phys && this.msrs == msrs
      ensures !launched && !vmxLaunched && pendingEvents == [] && guestRegs == seq(COUNT, _ => 0)
      ensures xstate.xsave == xsave && xstate.xsaves == (xsave && xsaves)
      ensures story == Story(EventLog([], [], [], 0, 0), RESET, phys, None)
    {
      this.caps := caps;
      this.vmcs := vmcs.(traps := Traps({}, {}, {}));
      this.phys := phys;
      this.msrs := msrs;
      guestRegs := seq(COUNT, _ => 0);
      launched, vmxLaunched := false, false;
      pendingEvents := [];
      var xcr0: Word := if xsave then phys.xcr0 else 0;
      var xss: Word := if xsave && xsaves then phys.xss else 0;
      xstate := XState(xcr0, xcr0, xss, xss, xsave, xsave && xsaves);
      story := Story(EventLog([], [], [], 0, 0), RESET, phys, None);
    }

    // -------------------------------------------------------------------------------------------
    // Events
    // -------------------------------------------------------------------------------------------

    /** The event is the last to be accounted for. */
    method QueueEvent(vector: Vector, err: Option<U32>)
      requires Valid()
      modifies this
      ensures Valid() && View() == old(View()).(pending := old(pendingEvents) + [Event(vector, err)])
      ensures story == old(story).(log := old(story).log.(queued := old(story).log.queued + [Event(vector, err)]))
    {
      pendingEvents := pendingEvents + [Event(vector, err)];
      StepKeeps(caps, story, old(View()), Queue(Event(vector, err)), View());
      story := Recorded(story, old(View()), Queue(Event(vector, err)));
    }

    /** Between runs the window bit may be changed freely. */
    method SetInterruptWindow(enable: bool)
      modifies this`vmcs
      ensures vmcs == SetWindow(old(vmcs), enable)
      ensures vmcs == old(vmcs).(controls := old(vmcs).controls.(primary := vmcs.controls.primary))
      ensures forall i :: 0 <= i < 32 ==> (i in vmcs.controls.primary <==>
                if i == 2 then enable else i in old(vmcs).controls.primary)
      ensures old(Valid()) ==> Valid()
    {
      var ctrl := vmcs.controls.primary;
      if enable {
        ctrl := ctrl + {WINDOW};
      } else {
        ctrl := ctrl - {WINDOW};
      }
      vmcs := vmcs.(controls := vmcs.controls.(primary := ctrl));
      if old(Valid()) {
        StepKeeps(caps, story, old(View()), Window(enable), View());
      }
    }

    method InjectEvent(vector: Vector, err: Option<U32>)
      modifies this`vmcs
      ensures vmcs == old(vmcs).(inject :=
                Interruption.InjectEvent(old(vmcs).inject, vector, err, old(vmcs).exitErr, old(vmcs).exitLen))
    {
      var errCode := None;
      if HasErrorCode(vector) {
        errCode := err;
        if errCode.None? {
          errCode := Some(vmcs.exitErr);
        }
      }
      var info := Info(vector, FromVector(vector), errCode, true);
      var f := vmcs.inject;
      if errCode.Some? {
        f := f.(err := errCode.value);
      }
      if info.kind.IsSoft() {
        f := f.(len := vmcs.exitLen);
      }
      f := f.(info := Encode(info));
      vmcs := vmcs.(inject := f);
    }

    method InjectPendingEvents()
      modifies this`vmcs, this`pendingEvents
      ensures View() == InjectPending(old(View()))
    {
      if pendingEvents != [] {
        var e := pendingEvents[0];
        if e.vector < 32 || AllowInterrupt(vmcs) {
          InjectEvent(e.vector, e.err);
          pendingEvents := pendingEvents[1..];
        } else {
          SetInterruptWindow(true);
        }
      }
    }

    // -------------------------------------------------------------------------------------------
    // Extended state
    // -------------------------------------------------------------------------------------------

    method SwitchToGuest()
      modifies this`xstate, this`phys
      ensures View() == ToGuest(old(View()))
    {
      if xstate.xsave {
        xstate := xstate.(hostXcr0 := phys.xcr0);
        phys := phys.(xcr0 := xstate.guestXcr0);
        if xstate.xsaves {
          xstate := xstate.(hostXss := phys.xss);
          phys := phys.(xss := xstate.guestXss);
        }
      }
    }

    method SwitchToHost()
      modifies this`xstate, this`phys
      ensures View() == ToHost(old(View()))
    {
      if xstate.xsave {
        xstate := xstate.(guestXcr0 := phys.xcr0);
        phys := phys.(xcr0 := xstate.hostXcr0);
        if xstate.xsaves {
          xstate := xstate.(guestXss := phys.xss);
          phys := phys.(xss := xstate.hostXss);
        }
      }
    }

    // -------------------------------------------------------------------------------------------
    // Control registers
    // -------------------------------------------------------------------------------------------

    /** Real value, shadow and mask become those of a register that holds `val`; `ok` false is `unreachable!`. */
    method SetCr(index: nat, val: Bits64) returns (ok: bool)
      modifies this`vmcs
      ensures ok <==> index in {0, 3, 4}
      ensures vmcs == if index == 0 then old(vmcs).(cr0 := SetCr0(caps.cr0, val))
                      else if index == 3 then old(vmcs).(cr3 := val)
                      else if index == 4 then old(vmcs).(cr4 := SetCr4(caps.cr4, val))
                      else old(vmcs)
    {
      if index == 0 {
        var must0 := caps.cr0.fixed1 * Not64({NW, CD});
        var must1 := caps.cr0.fixed0 * Not64({PG, PE});
        vmcs := vmcs.(cr0 := vmcs.cr0.(actual := (val * must0) + must1));
        vmcs := vmcs.(cr0 := vmcs.cr0.(shadow := val));
        vmcs := vmcs.(cr0 := vmcs.cr0.(mask := must1 + Not64(must0)));
      } else if index == 3 {
        vmcs := vmcs.(cr3 := val);
      } else if index == 4 {
        var must0, must1 := caps.cr4.fixed1, caps.cr4.fixed0;
        var v := val + {VMXE};
        vmcs := vmcs.(cr4 := vmcs.cr4.(actual := (v * must0) + must1));
        vmcs := vmcs.(cr4 := vmcs.cr4.(shadow := v));
        vmcs := vmcs.(cr4 := vmcs.cr4.(mask := must1 + Not64(must0)));
      } else {
        return false;
      }
      return true;
    }

    method UpdateGuestEfer() returns (ok: bool)
      modifies this`vmcs
      ensures var u := UpdateEfer(caps.entry, old(vmcs).efer, old(vmcs).controls.entry);
              && ok == u.ok
              && vmcs == old(vmcs).(efer := u.efer, controls := old(vmcs).controls.(entry := u.entry))
    {
      var flags := vmcs.efer * EFER_KNOWN;
      if LME in flags && LMA in flags {
        return true;
      }
      flags := flags + {LMA};
      vmcs := vmcs.(efer := flags);
      var r := SetControl(caps.entry, vmcs.controls.entry, {IA32E}, {});
      ok := r.Written?;
      if ok {
        vmcs := vmcs.(controls := vmcs.controls.(entry := r.value));
      }
    }

    method HandleCrAccess(qualification: Word) returns (o: Outcome)
      requires |guestRegs| == COUNT
      modifies this`vmcs
      ensures (View(), o) == HandleCr(caps, old(View()), qualification)
    {
      var a := CrAccessOf(qualification);
      if a.accessType == 0 {
        var val := OneBits(MovSource(guestRegs, vmcs.rsp, a.gpr));
        if a.crNumber == 0 || a.crNumber == 4 {
          vmcs := Model.AdvanceRip(vmcs, 3);
          var done := SetCr(a.crNumber, val);
          if a.crNumber == 0 && PG in val {
            var ok := UpdateGuestEfer();
            return if ok then Handled else Panicked;
          }
          return Handled;
        }
      }
      return Panicked;
    }

    // -------------------------------------------------------------------------------------------
    // Setup
    // -------------------------------------------------------------------------------------------

    /** `setup_vmcs`, as far as the fields of the VMCS go: it is cleared, and `launched` is left as it was. The
        events queued stay queued, and one still in the entry field stays there. Port 0x604, IA32_UMWAIT_CONTROL and
        the x2APIC registers join what is intercepted. */
    method SetupVmcs(f: Features, entry: Word) returns (ok: bool)
      requires Valid()
      modifies this
      ensures Valid() && launched == old(launched) && !vmxLaunched
      ensures vmcs.rip == entry && vmcs.rsp == 0 && vmcs.cr3 == {}
      ensures pendingEvents == old(pendingEvents) && vmcs.inject == old(vmcs).inject
      ensures ok <==> SetupControls(caps, f).Some?
      ensures ok ==> JustSetUp(caps, f, View())
      ensures ok ==> vmcs.traps.ports == old(vmcs).traps.ports + {0x604}
      ensures forall m: nat :: m in vmcs.traps.msrReads <==>
                m in old(vmcs).traps.msrReads || m == 0xe1 || 0x800 <= m <= 0x83f
      ensures forall m: nat :: m in vmcs.traps.msrWrites <==>
                m in old(vmcs).traps.msrWrites || m == 0xe1 || 0x800 <= m <= 0x83f
      ensures story == if ok then old(story).(plain := RESET, base := Some(Base(f, vmcs.controls)))
                       else old(story).(base := None)
    {
      vmxLaunched := false;
      Sample();
      ok := SetupVmcsFields(f, entry);
      if ok {
        DoneSetup(caps, story, f, old(View()), View());
        story := story.(plain := RESET, base := Some(Base(f, vmcs.controls)));
      } else {
        FailedSetup(caps, story, old(View()), View());
        story := story.(base := None);
      }
    }

    /** `setup_vmcs_host`, as far as EFER and PAT go. */
    method Sample()
      modifies this`vmcs
      ensures vmcs == old(vmcs).(host := msrs)
    {
      vmcs := vmcs.(host := vmcs.host.(pat := msrs.pat));
      vmcs := vmcs.(host := vmcs.host.(efer := msrs.efer));
    }

    /** The MSR bitmap, the guest state, the controls and the I/O bitmap, in this order. */
    method SetupVmcsFields(f: Features, entry: Word) returns (ok: bool)
      requires |guestRegs| == COUNT && vmcs.host == msrs
      modifies this`vmcs
      ensures SetupKeeps(old(View()), View()) && vmcs.rip == entry && vmcs.rsp == 0 && vmcs.cr3 == {}
      ensures ok <==> SetupControls(caps, f).Some?
      ensures ok ==> JustSetUp(caps, f, View())
      ensures vmcs.traps.msrReads == old(vmcs).traps.msrReads + SETUP_MSRS
      ensures vmcs.traps.msrWrites == old(vmcs).traps.msrWrites + SETUP_MSRS
      ensures ok ==> vmcs.traps.ports == old(vmcs).traps.ports + {0x604}
    {
      var t := vmcs.traps;
      vmcs := vmcs.(traps := t.(msrReads := t.msrReads + SETUP_MSRS, msrWrites := t.msrWrites + SETUP_MSRS));
      SetupVmcsGuest(entry);
      ok := SetupVmcsControl(f);
      if ok {
        vmcs := vmcs.(traps := vmcs.traps.(ports := vmcs.traps.ports + {EXIT_PORT}));
        assert vmcs.traps == SetupTraps(t);
        assert SetupTraps(SetupTraps(t)) == SetupTraps(t);
      }
    }

    method SetupVmcsGuest(entry: Word)
      modifies this`vmcs
      ensures vmcs == old(vmcs).(cr0 := SetCr0(caps.cr0, {NW, CD, ET}), cr3 := {}, cr4 := SetCr4(caps.cr4, {}),
                                 rsp := 0, rip := entry, rflags := {1}, interruptibility := {},
                                 pat := msrs.pat, efer := {})
    {
      var ok := SetCr(0, {NW, CD, ET});
      ok := SetCr(4, {});
      vmcs := vmcs.(cr3 := {}, rsp := 0, rip := entry, rflags := {1}, interruptibility := {});
      vmcs := vmcs.(pat := msrs.pat, efer := {});
    }

    method SetupVmcsControl(f: Features) returns (ok: bool)
      modifies this`vmcs
      ensures ok <==> SetupControls(caps, f).Some?
      ensures ok ==> vmcs == old(vmcs).(controls := SetupControls(caps, f).value)
      ensures vmcs == old(vmcs).(controls := vmcs.controls)
    {
      var r := SetControl(caps.pin, caps.pinDefault, PIN_ON, {});
      if !r.Written? { return false; }
      vmcs := vmcs.(controls := vmcs.controls.(pin := r.value));
      r := SetControl(caps.primary, caps.primaryDefault, PRIMARY_ON, PRIMARY_OFF);
      if !r.Written? { return false; }
      vmcs := vmcs.(controls := vmcs.controls.(primary := r.value));
      r := SetControl(caps.secondary, caps.secondaryDefault, SecondaryOn(f), {});
      if !r.Written? { return false; }
      vmcs := vmcs.(controls := vmcs.controls.(secondary := r.value));
      r := SetControl(caps.exit, caps.exitDefault, EXIT_ON, {});
      if !r.Written? { return false; }
      vmcs := vmcs.(controls := vmcs.controls.(exit := r.value));
      r := SetControl(caps.entry, caps.entryDefault, ENTRY_ON, {});
      if !r.Written? { return false; }
      vmcs := vmcs.(controls := vmcs.controls.(entry := r.value));
      return true;
    }

    // -------------------------------------------------------------------------------------------
    // Between runs
    // -------------------------------------------------------------------------------------------

    /** `set_gpr`, which truncates the index to 8 bits; `ok` false is the panic on RSP and on numbers that name no
        register. */
    method SetGpr(reg: nat, value: Word) returns (ok: bool)
      requires Valid()
      modifies this`guestRegs
      ensures Valid() && (ok <==> Named(reg % 256))
      ensures guestRegs == if ok then old(guestRegs)[reg % 256 := value] else old(guestRegs)
    {
      var index := reg % 256;
      ok := index < COUNT && index != RSP;
      if ok {
        guestRegs := guestRegs[index := value];
        StepKeeps(caps, story, old(View()), SetReg(Write(index, Whole, value)), View());
      }
    }

    method SetStackPointer(rsp: Word)
      requires Valid()
      modifies this`vmcs
      ensures Valid() && vmcs == old(vmcs).(rsp := rsp)
    {
      vmcs := vmcs.(rsp := rsp);
      StepKeeps(caps, story, old(View()), SetRsp(rsp), View());
    }

    method AdvanceRip(n: Length)
      requires Valid()
      modifies this`vmcs
      ensures Valid() && vmcs == old(vmcs).(rip := (old(vmcs).rip + n) % 0x1_0000_0000_0000_0000)
    {
      vmcs := Model.AdvanceRip(vmcs, n);
      StepKeeps(caps, story, old(View()), Advance(n), View());
    }

    /** The processor's EFER and PAT become those that VM exits load. */
    method Bind()
      requires Valid()
      modifies this`vmcs
      ensures Valid() && vmcs == old(vmcs).(host := msrs)
    {
      Sample();
      StepKeeps(caps, story, old(View()), Op.Bind(0), View());
    }

    /** `set_io_intercept_of_range`; `ok` false is a panic, after which the bitmap is as `IOBitmap` says. */
    method InterceptPorts(base: nat, count: nat, on: bool) returns (ok: bool)
      requires Valid()
      modifies this`vmcs
      ensures Valid() && vmcs == old(vmcs).(traps := old(vmcs).traps.(ports := vmcs.traps.ports))
      ensures ok <==> count == 0 || base + count <= 0x2000 || (0x8000 <= base && base + count <= 0xa000)
      ensures ok ==> vmcs.traps.ports == if on then old(vmcs).traps.ports + Interval(base, base + count)
                                         else old(vmcs).traps.ports - Interval(base, base + count)
    {
      ok := count == 0 || base + count <= 0x2000 || (0x8000 <= base && base + count <= 0xa000);
      if ok {
        var ports := Changed(vmcs.traps.ports, Interval(base, base + count), on);
        vmcs := vmcs.(traps := vmcs.traps.(ports := ports));
        StepKeeps(caps, story, old(View()), Op.InterceptPorts(base, count, on), View());
      }
    }

    /** `set_msr_intercept_of_range`, which is about one MSR; `ok` false is a panic. */
    method InterceptMsr(msr: nat, on: bool) returns (ok: bool)
      requires Valid()
      modifies this`vmcs
      ensures Valid() && (ok <==> Covered(msr))
      ensures vmcs == old(vmcs).(traps := vmcs.traps) && vmcs.traps.ports == old(vmcs).traps.ports
      ensures forall m: nat :: m in vmcs.traps.msrReads <==>
                if ok && m == msr then on else m in old(vmcs).traps.msrReads
      ensures forall m: nat :: m in vmcs.traps.msrWrites <==>
                if ok && m == msr then on else m in old(vmcs).traps.msrWrites
    {
      ok := Covered(msr);
      if ok {
        var t := vmcs.traps;
        t := t.(msrReads := Changed(t.msrReads, {msr}, on));
        t := t.(msrWrites := Changed(t.msrWrites, {msr}, on));
        vmcs := vmcs.(traps := t);
        StepKeeps(caps, story, old(View()), Op.InterceptMsr(msr, on), View());
      }
    }

    /** The vCPU can be launched again, on this processor or another. */
    method Unbind()
      requires Valid()
      modifies this`launched, this`vmxLaunched
      ensures Valid() && !launched && !vmxLaunched && LaunchOk(View())
    {
      launched := false;
      vmxLaunched := false;
      StepKeeps(caps, story, old(View()), Op.Unbind, View());
    }

    // -------------------------------------------------------------------------------------------
    // Running the guest
    // -------------------------------------------------------------------------------------------

    method HandleCpuidExit(table: CpuidTable)
      requires |guestRegs| == COUNT
      modifies this`guestRegs, this`vmcs, this`xstate, this`phys
      ensures View() == HandleCpuid(old(View()), table)
    {
      var before := guestRegs;
      var raw;
      if before[RAX] % TWO32 == 0xd {
        SwitchToGuest();
        raw := table.Of(phys);
        SwitchToHost();
      } else {
        raw := table.Of(phys);
      }
      var r := CpuidAnswer(before[RAX], before[RCX], raw);
      guestRegs := guestRegs[RAX := r.eax];
      guestRegs := guestRegs[RBX := r.ebx];
      guestRegs := guestRegs[RCX := r.ecx];
      guestRegs := guestRegs[RDX := r.edx];
      vmcs := Model.AdvanceRip(vmcs, 2);
    }

    /** The test of the value always fails, so the assignments that would follow it are never reached. */
    method HandleXsetbvExit() returns (o: Outcome)
      requires |guestRegs| == COUNT
      ensures (View(), o) == HandleXsetbv(View())
    {
      XsetbvPanics(View());
      return Panicked;
    }

    method BuiltinVmexitHandler(exit: Exit) returns (o: Outcome)
      requires |guestRegs| == COUNT
      modifies this`guestRegs, this`vmcs, this`xstate, this`phys
      ensures (View(), o) == Handle(caps, old(View()), exit)
    {
      match exit
      case InterruptWindow =>
        SetInterruptWindow(false);
        return Handled;
      case PreemptionTimer => return Handled;
      case Xsetbv => o := HandleXsetbvExit();
      case CrAccessExit(q) => o := HandleCrAccess(q);
      case Cpuid(table) =>
        HandleCpuidExit(table);
        return Handled;
      case MsrRead(apic) =>
        if !IsX2Apic(guestRegs) { return NotHandled; }
        vmcs := Model.AdvanceRip(vmcs, 2);
        if apic.None? { return Panicked; }
        guestRegs := WriteEdxEax(guestRegs, apic.value);
        return Handled;
      case MsrWrite(apicOk) =>
        if !IsX2Apic(guestRegs) { return NotHandled; }
        vmcs := Model.AdvanceRip(vmcs, 2);
        return if apicOk then Handled else Panicked;
      case ApicAccess => return Panicked;
      case ExternalInterrupt(_) => return NotHandled;
      case IoInstruction(_) => return NotHandled;
      case OtherExit(_) => return NotHandled;
    }

    /** VMRESUME if launched, else VMLAUNCH; the guest's turn, and `vmx_exit`: the world switch and the hardware.
        `ok` false is a VMfail, for the launch state or for the entry field, on which `vmx_entry_failed` panics. */
    method EnterGuest(t: Turn) returns (ok: bool)
      requires |guestRegs| == |t.regs| == COUNT
      modifies this`launched, this`vmxLaunched, this`guestRegs, this`vmcs, this`phys, this`msrs
      ensures ok <==> LaunchOk(old(View())) && ControlsAccepted(old(vmcs))
      ensures View() == if ok then Enter(old(View()), t) else old(View()).(launched := true)
    {
      if launched {
        ok := vmxLaunched;
      } else {
        launched := true;
        ok := !vmxLaunched;
      }
      ok := ok && Consistent(vmcs.controls) && EntryChecks(vmcs.inject, PE in vmcs.cr0.actual);
      if ok {
        Turns(t);
      }
    }

    /** The hardware's part. */
    method Turns(t: Turn)
      requires |guestRegs| == |t.regs| == COUNT && launched
      modifies this`vmxLaunched, this`guestRegs, this`vmcs, this`phys, this`msrs
      ensures View() == Enter(old(View()), t)
    {
      if t.entered {
        vmxLaunched := true;
        guestRegs := t.regs[RSP := guestRegs[RSP]];
        phys := t.phys;
        msrs := AtHostEntry(vmcs.controls, vmcs.host, Msrs(t.efer, t.pat));
        var saved := SavedAtExit(vmcs.controls, Msrs(vmcs.efer, vmcs.pat), Msrs(t.efer, t.pat));
        var entry := if LMA in t.efer then vmcs.controls.entry + {IA32E} else vmcs.controls.entry - {IA32E};
        vmcs := vmcs.(cr0 := AbsorbAll(vmcs.cr0, t.cr0Writes), cr3 := t.cr3, cr4 := AbsorbAll(vmcs.cr4, t.cr4Writes),
                      efer := saved.efer, pat := saved.pat, rflags := t.rflags, interruptibility := t.interruptibility,
                      rip := t.rip, rsp := t.rsp, controls := vmcs.controls.(entry := entry),
                      inject := vmcs.inject.Consumed(), exitErr := t.exitErr, exitLen := t.exitLen);
      } else {
        msrs := AtHostEntry(vmcs.controls, vmcs.host, msrs);
      }
    }

    /** The stages of `inner_run`: inject, switch the extended state, enter the guest, switch back, handle the
        exit. */
    method InnerRun(t: Turn) returns (o: Outcome)
      requires |guestRegs| == COUNT && TurnOk(AtEntry(View()).vmcs, t)
      modifies this
      ensures story == old(story) && (View(), o) == Model.InnerRun(caps, old(View()), t)
    {
      InjectPendingEvents();
      SwitchToGuest();
      var ok := EnterGuest(t);
      if !ok {
        return Panicked;
      }
      SwitchToHost();
      o := BuiltinVmexitHandler(t.exit);
    }

    /** One run, for its caller. It panics on a VMfail when flag and launch state differ, when it injects an event
        that is not in order, when it shows a refused field again, and when the control fields are inconsistent, which
        a successful setup rules out. Otherwise, unless the handler panics, the
        story goes on: what the processor found in the entry field joins the events shown and, if the entry
        succeeded, those taken. The guest found its own extended state, the host finds its own again; and after a
        successful setup the VM entry was legal and showed the guest the CR0 and CR4 it last wrote. */
    method RunOnce(t: Turn) returns (o: Outcome)
      requires Valid() && TurnOk(AtEntry(View()).vmcs, t)
      modifies this
      ensures (View(), o) == Model.InnerRun(caps, old(View()), t)
      ensures old(launched) != old(vmxLaunched) ==> o == Panicked
      ensures !Consistent(old(vmcs).controls) ==> o == Panicked
      ensures !(if Injects(old(View())) then InOrder(old(vmcs), old(pendingEvents)[0]) else FieldAccepted(old(vmcs)))
              ==> o == Panicked
      ensures o != Panicked ==> Valid() && story == Recorded(old(story), old(View()), Run(t))
      ensures EntryShows(old(View()), old(story).last)
      ensures o != Panicked && xstate.xsave ==> phys.xcr0 == old(phys).xcr0
      ensures o != Panicked && xstate.xsave && xstate.xsaves ==> phys.xss == old(phys).xss
      ensures o != Panicked && CapsOk(caps) && old(story).base.Some? ==> msrs == old(vmcs).host
      ensures CapsOk(caps) && old(story).base.Some? ==>
                EntryLegal(caps, old(story).base.value.features, AtEntry(old(View())).vmcs, old(story).plain)
    {
      ghost var before := View();
      KeptIsShown(before, story.last);
      VmfailIff(before);
      EntryIsLegal(caps, story, before);
      o := InnerRun(t);
      if o != Panicked {
        RunKeeps(caps, story, before, t, View());
        story := Recorded(story, before, Run(t));
      }
    }
  }
}
