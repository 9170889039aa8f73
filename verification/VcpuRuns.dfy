/** Runs of a vCPU: finite sequences of queued events, `inner_run` calls with arbitrary guests, and host
    activity in between; and what each stage of `inner_run` leaves alone. */
module VcpuRuns {
  import opened Controls
  import opened Processor
  import opened Registers
  import opened VcpuModel
  import LaunchProtocol

  /** What happens to a vCPU between its setup and its destruction: `queue_event`, `inner_run`, the register
      setters, `set_stack_pointer`, `set_interrupt_window`, `advance_rip`, the intercepts of ports and MSRs, `unbind`,
      `bind` on some processor; the host changes its own extended state, EFER or PAT (or moves to a processor with
      others), or makes a call on another vCPU. */
  datatype Op =
    | Queue(event: Event)
    | Run(turn: Turn)
    | SetReg(write: Write)
    | SetRsp(rsp: Word)
    | Window(enable: bool)
    | Advance(length: Length)
    | Unbind
    | Bind(cpu: nat)
    | InterceptPorts(base: nat, count: nat, on: bool)
    | InterceptMsr(msr: nat, on: bool)
    | Host(phys: Phys, msrs: Msrs)
    | Other(call: LaunchProtocol.Op)

  function Changed(traps: set<nat>, some: set<nat>, on: bool): set<nat> { if on then traps + some else traps - some }

  /** One operation takes `u` to `w`: for a run, the turn is one the hardware can take and the call does
      not panic. */
  predicate Step(c: Caps, u: Vcpu, op: Op, w: Vcpu) {
    match op
    case Queue(e) => w == u.(pending := u.pending + [e])
    case Run(t) => Runs(u, t) && InnerRun(c, u, t).0 == w && InnerRun(c, u, t).1 != Panicked
    case SetReg(x) => |u.regs| == COUNT && x.Ok() && w == u.(regs := ApplyWrite(u.regs, x))
    case SetRsp(rsp) => w == u.(vmcs := u.vmcs.(rsp := rsp))
    case Window(enable) => w == u.(vmcs := SetWindow(u.vmcs, enable))
    case Advance(n) => w == u.(vmcs := AdvanceRip(u.vmcs, n))
    case Unbind => w == u.(launched := false, vmxLaunched := false)
    case Bind(_) => w == u.(vmcs := u.vmcs.(host := u.msrs))
    case InterceptPorts(base, count, on) =>
      && (count == 0 || base + count <= 0x2000 || (0x8000 <= base && base + count <= 0xa000))
      && var t := u.vmcs.traps;
         w == u.(vmcs := u.vmcs.(traps := t.(ports := Changed(t.ports, Interval(base, base + count), on))))
    case InterceptMsr(msr, on) =>
      && Covered(msr)
      && var t := u.vmcs.traps;
         w == u.(vmcs := u.vmcs.(traps := t.(msrReads := Changed(t.msrReads, {msr}, on),
                                             msrWrites := Changed(t.msrWrites, {msr}, on))))
    case Host(p, m) => w == u.(phys := p, msrs := m)
    case Other(_) => w == u
  }

  /** A run of any length: the states `tr` passes through while the operations `ops` are performed. */
  ghost predicate IsRun(c: Caps, tr: seq<Vcpu>, ops: seq<Op>) {
    |tr| == |ops| + 1 && forall i :: 0 <= i < |ops| ==> Step(c, tr[i], ops[i], tr[i + 1])
  }

  // ---------------------------------------------------------------------------------------------
  // What each stage of inner_run touches
  // ---------------------------------------------------------------------------------------------

  /** Two states that differ at most in extended state. */
  predicate SameButX(u: Vcpu, w: Vcpu) {
    && w.regs == u.regs && w.pending == u.pending && w.vmcs == u.vmcs
    && w.launched == u.launched && w.vmxLaunched == u.vmxLaunched && w.msrs == u.msrs
  }

  lemma SwitchesKeep(v: Vcpu)
    ensures SameButX(v, ToGuest(v)) && SameButX(v, ToHost(v))
  {
  }

  /** What the handler never touches: the queue, the entry field and the interruptibility. */
  predicate SameEvents(u: Vcpu, w: Vcpu) {
    && w.pending == u.pending && w.launched == u.launched && w.vmxLaunched == u.vmxLaunched
    && w.vmcs.inject == u.vmcs.inject && w.vmcs.interruptibility == u.vmcs.interruptibility
    && w.vmcs.rflags == u.vmcs.rflags && w.vmcs.exitErr == u.vmcs.exitErr && w.vmcs.exitLen == u.vmcs.exitLen
  }

  lemma CpuidKeeps(v: Vcpu, table: CpuidTable)
    requires |v.regs| == COUNT
    ensures var w := HandleCpuid(v, table);
            SameEvents(v, w) && |w.regs| == COUNT && w.regs[RSP] == v.regs[RSP] && w.vmcs == AdvanceRip(v.vmcs, 2)
  {
    SwitchesKeep(v);
    SwitchesKeep(ToGuest(v));
  }

  lemma CrKeeps(c: Caps, v: Vcpu, q: Word)
    requires |v.regs| == COUNT
    ensures SameEvents(v, HandleCr(c, v, q).0) && HandleCr(c, v, q).0.regs == v.regs
  {
  }

  lemma HandlerKeeps(c: Caps, v: Vcpu, exit: Exit)
    requires |v.regs| == COUNT
    ensures var w := Handle(c, v, exit).0;
            SameEvents(v, w) && |w.regs| == COUNT && w.regs[RSP] == v.regs[RSP]
  {
    match exit
    case CrAccessExit(q) => CrKeeps(c, v, q);
    case Cpuid(table) => CpuidKeeps(v, table);
    case Xsetbv => XsetbvPanics(v);
    case _ =>
  }

  lemma RunHandlesExit(c: Caps, u: Vcpu, t: Turn)
    requires Runs(u, t)
    ensures InnerRun(c, u, t) == Handle(c, AtExit(u, t), t.exit)
    ensures t.exit.CrAccessExit? ==> InnerRun(c, u, t) == HandleCr(c, AtExit(u, t), t.exit.qualification)
  {
  }

  /** The part of a run that concerns events, stage by stage. */
  lemma EventsOfRun(c: Caps, u: Vcpu, t: Turn)
    requires Runs(u, t)
    ensures var w := InnerRun(c, u, t).0;
            var f := AtEntry(u).vmcs.inject;
            && |w.regs| == COUNT && w.regs[RSP] == u.regs[RSP]
            && AtEntry(u).vmcs == InjectPending(u).vmcs
            && w.pending == AtEntry(u).pending == (if Injects(u) then u.pending[1..] else u.pending)
            && w.vmcs.inject == (if t.entered then f.Consumed() else f)
            && w.vmcs.exitErr == (if t.entered then t.exitErr else u.vmcs.exitErr)
            && w.vmcs.exitLen == (if t.entered then t.exitLen else u.vmcs.exitLen)
            && (t.entered ==> w.vmcs.interruptibility == t.interruptibility && w.vmcs.rflags == t.rflags)
            && w.launched && (w.vmxLaunched <==> u.vmxLaunched || t.entered)
            && (!t.entered ==> w.vmcs == AtEntry(u).vmcs)
  {
    SwitchesKeep(InjectPending(u));
    SwitchesKeep(Enter(AtEntry(u), t));
    HandlerKeeps(c, AtExit(u, t), t.exit);
  }

  /** No operation reaches the padding slot of the register block. */
  lemma RegsOfStep(c: Caps, u: Vcpu, op: Op, w: Vcpu)
    requires Step(c, u, op, w) && |u.regs| == COUNT
    ensures |w.regs| == COUNT && w.regs[RSP] == u.regs[RSP]
  {
    if op.Run? {
      EventsOfRun(c, u, op.turn);
    }
  }

  // ---------------------------------------------------------------------------------------------
  // Control fields
  // ---------------------------------------------------------------------------------------------

  /** The fields that nothing changes after setup: all but the VM-entry controls and the window bit. */
  predicate FixedControls(a: ControlFields, b: ControlFields) {
    b.pin == a.pin && b.secondary == a.secondary && b.exit == a.exit && b.primary - {2} == a.primary - {2}
  }

  lemma FixedIsConsistent(a: ControlFields, b: ControlFields)
    requires FixedControls(a, b)
    ensures Consistent(a) <==> Consistent(b)
    ensures forall i :: 0 <= i < 32 && i != 2 ==> (i in a.primary <==> i in b.primary)
  {
    forall i | 0 <= i < 32 && i != 2 ensures i in a.primary <==> i in b.primary {
      assert i in a.primary - {2} <==> i in b.primary - {2};
    }
  }

  lemma EntryFixes(u: Vcpu)
    ensures FixedControls(u.vmcs.controls, AtEntry(u).vmcs.controls)
    ensures AtEntry(u).vmcs.controls.entry == u.vmcs.controls.entry && AtEntry(u).vmcs.traps == u.vmcs.traps
    ensures Consistent(AtEntry(u).vmcs.controls) <==> Consistent(u.vmcs.controls)
  {
    SwitchesKeep(InjectPending(u));
    FixedIsConsistent(u.vmcs.controls, AtEntry(u).vmcs.controls);
  }

  /** What the handler leaves alone besides. */
  predicate SameSetup(v: Vcpu, w: Vcpu) {
    && FixedControls(v.vmcs.controls, w.vmcs.controls)
    && w.vmcs.traps == v.vmcs.traps && w.vmcs.host == v.vmcs.host && w.vmcs.pat == v.vmcs.pat
    && w.msrs == v.msrs
  }

  lemma CpuidFixes(v: Vcpu, table: CpuidTable)
    requires |v.regs| == COUNT
    ensures SameSetup(v, HandleCpuid(v, table))
  {
    SwitchesKeep(v);
    SwitchesKeep(ToGuest(v));
  }

  lemma CrFixes(c: Caps, v: Vcpu, q: Word)
    requires |v.regs| == COUNT
    ensures SameSetup(v, HandleCr(c, v, q).0)
  {
  }

  lemma OthersFix(c: Caps, v: Vcpu, exit: Exit)
    requires |v.regs| == COUNT && !exit.CrAccessExit? && !exit.Cpuid? && !exit.Xsetbv?
    ensures SameSetup(v, Handle(c, v, exit).0)
  {
  }

  lemma HandlerFixes(c: Caps, v: Vcpu, exit: Exit)
    requires |v.regs| == COUNT
    ensures SameSetup(v, Handle(c, v, exit).0)
  {
    match exit
    case CrAccessExit(q) => CrFixes(c, v, q);
    case Cpuid(table) => CpuidFixes(v, table);
    case Xsetbv => XsetbvPanics(v);
    case _ => OthersFix(c, v, exit);
  }

  lemma StepFixes(c: Caps, u: Vcpu, op: Op, w: Vcpu)
    requires Step(c, u, op, w)
    ensures FixedControls(u.vmcs.controls, w.vmcs.controls)
  {
    if op.Run? {
      EntryFixes(u);
      SwitchesKeep(Enter(AtEntry(u), op.turn));
      RunHandlesExit(c, u, op.turn);
      HandlerFixes(c, AtExit(u, op.turn), op.turn.exit);
    }
  }

  lemma {:induction false} ControlsOverRun(c: Caps, tr: seq<Vcpu>, ops: seq<Op>, k: nat)
    requires IsRun(c, tr, ops) && k <= |ops|
    ensures FixedControls(tr[0].vmcs.controls, tr[k].vmcs.controls)
    decreases k
  {
    if k > 0 {
      ControlsOverRun(c, tr, ops, k - 1);
      StepFixes(c, tr[k - 1], ops[k - 1], tr[k]);
    }
  }
}
