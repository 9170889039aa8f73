/** What a vCPU object remembers of its past for the sake of the proofs, and the invariant that every operation
    keeps between it and the state: events, control registers, extended state and padding together. */
module VcpuStory {
  import opened Wrappers
  import opened Controls
  import opened Processor
  import opened ControlRegisters
  import opened Registers
  import opened VcpuModel
  import opened VcpuRuns
  import opened EventRuns
  import opened ExtendedStateRuns
  import opened ModeRuns
  import opened ConfiguredRuns

  /** The controls that the last setup stored, and the processor features it went by. */
  datatype Base = Base(features: Features, controls: ControlFields)

  /** The events queued, shown and taken; CR0 and CR4 as a guest that owned the machine would have them; the
      extended state the guest last had; and the last setup, unless there was none or it failed. */
  datatype Story = Story(log: EventLog, plain: Plain, last: Phys, base: Option<Base>)

  function Recorded(h: Story, u: Vcpu, op: Op): Story {
    Story(LogStep(h.log, u, op), PlainStep(h.plain, op), LastPhysStep(h.last, op), h.base)
  }

  ghost predicate ModeHolds(c: Caps, b: Base, v: Vcpu, p: Plain) {
    CapsOk(c) ==> ControlsLegal(c, b.features, b.controls) && ModeInv(c, b.controls, v, p)
  }

  /** The story is true of state `v`. */
  ghost predicate IsTrue(c: Caps, h: Story, v: Vcpu) {
    && |v.regs| == COUNT && v.regs[RSP] == 0
    && LogInv(h.log, v)
    && GuestKept(v, h.last)
    && (h.base.Some? ==> ModeHolds(c, h.base.value, v, h.plain))
  }

  lemma ModeOfStep(c: Caps, b: Base, u: Vcpu, op: Op, w: Vcpu, p: Plain)
    requires Step(c, u, op, w) && ModeHolds(c, b, u, p)
    ensures ModeHolds(c, b, w, PlainStep(p, op))
  {
    if CapsOk(c) {
      LegalIsEffective(c, b.features, b.controls);
      ModeStep(c, b.controls, u, op, w, p);
    }
  }

  /** Every operation keeps the story true. */
  lemma StepKeeps(c: Caps, h: Story, u: Vcpu, op: Op, w: Vcpu)
    requires Step(c, u, op, w) && IsTrue(c, h, u)
    ensures IsTrue(c, Recorded(h, u, op), w)
  {
    RegsOfStep(c, u, op, w);
    LogOfStep(c, h.log, u, op, w);
    GuestKeptStep(c, u, op, w, h.last);
    if h.base.Some? {
      ModeOfStep(c, h.base.value, u, op, w, h.plain);
    }
  }

  /** What setup leaves alone. */
  predicate SetupKeeps(u: Vcpu, w: Vcpu) {
    && w.regs == u.regs && w.pending == u.pending && w.xstate == u.xstate
    && w.vmcs.inject == u.vmcs.inject && w.vmcs.exitErr == u.vmcs.exitErr && w.vmcs.exitLen == u.vmcs.exitLen
  }

  lemma FailedSetup(c: Caps, h: Story, u: Vcpu, w: Vcpu)
    requires IsTrue(c, h, u) && SetupKeeps(u, w)
    ensures IsTrue(c, h.(base := None), w)
  {
  }

  /** A successful setup starts the control registers anew and keeps the rest of the story. */
  lemma DoneSetup(c: Caps, h: Story, f: Features, u: Vcpu, w: Vcpu)
    requires IsTrue(c, h, u) && SetupKeeps(u, w) && JustSetUp(c, f, w)
    ensures IsTrue(c, h.(plain := RESET, base := Some(Base(f, w.vmcs.controls))), w)
  {
    if CapsOk(c) {
      SetupMode(c, f, w);
      SetupIsLegal(c, f, w.vmcs.controls);
    }
  }

  /** What a true story says of the next VM entry. */
  lemma EntryIsLegal(c: Caps, h: Story, v: Vcpu)
    requires IsTrue(c, h, v)
    ensures CapsOk(c) && h.base.Some? ==> EntryLegal(c, h.base.value.features, AtEntry(v).vmcs, h.plain)
    ensures CapsOk(c) && h.base.Some? ==> GuestStarts(v) == Msrs(v.vmcs.efer, v.vmcs.pat)
  {
    MsrsAtEntry(v);
    if CapsOk(c) && h.base.Some? {
      EntryOfModeIsLegal(c, h.base.value.features, h.base.value.controls, v, h.plain);
    }
  }

  /** A run that does not panic, with the extended state of the host back. */
  lemma RunKeeps(c: Caps, h: Story, u: Vcpu, t: Turn, w: Vcpu)
    requires IsTrue(c, h, u) && TurnOk(AtEntry(u).vmcs, t)
    requires InnerRun(c, u, t).0 == w && InnerRun(c, u, t).1 != Panicked
    ensures IsTrue(c, Recorded(h, u, Run(t)), w)
    ensures w.xstate.xsave ==> w.phys.xcr0 == u.phys.xcr0
    ensures w.xstate.xsave && w.xstate.xsaves ==> w.phys.xss == u.phys.xss
    ensures CapsOk(c) && h.base.Some? ==> w.msrs == u.vmcs.host
  {
    assert Runs(u, t);
    EntryIsLegal(c, h, u);
    if CapsOk(c) && h.base.Some? {
      RunMsrs(c, h.base.value.features, u, Run(t), w);
    }
    ExtendedStateOfRun(c, u, t);
    StepKeeps(c, h, u, Run(t), w);
  }

  /** What the next run does with the entry field: it panics on a VMfail exactly when flag and launch state differ,
      or the control fields are inconsistent, or it injects an event that is not in order, or it shows again a field
      that VM entry refuses. */
  lemma VmfailIff(v: Vcpu)
    ensures CanEnter(v) <==>
            && LaunchOk(v) && Consistent(v.vmcs.controls)
            && if Injects(v) then InOrder(v.vmcs, v.pending[0]) else FieldAccepted(v.vmcs)
  {
    EntryFixes(v);
    if Injects(v) {
      InjectedField(v);
    } else {
      FieldLeftAlone(v);
    }
  }

  /** The last case needs a setup after a failed entry: setup leaves the field and takes the guest back to real mode,
      where VM entry refuses every error code. */
  lemma StaleFieldRefused(c: Caps, f: Features, v: Vcpu)
    requires JustSetUp(c, f, v) && v.vmcs.inject.IsValid() && v.vmcs.inject.info / 0x800 % 2 == 1
    ensures !FieldAccepted(v.vmcs)
  {
    assert PE !in v.vmcs.cr0.actual;
  }
}
