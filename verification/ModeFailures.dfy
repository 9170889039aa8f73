/** Guests that the emulation of MOV to CR0 leaves in a state VM entry refuses, built as runs from setup on
    every processor: the conditions of `ModeRuns.EveryEntryAcceptedIff` do fail. */
module ModeFailures {
  import opened Bits
  import opened Controls
  import opened Processor
  import opened ControlRegisters
  import opened Registers
  import opened VcpuModel
  import opened VcpuRuns
  import opened ModeRuns

  // ---------------------------------------------------------------------------------------------
  // Trapped MOVs and what they do to the mode
  // ---------------------------------------------------------------------------------------------

  /** A MOV of `val` to CR0 or CR4 that exits, with the value of EFER at the exit. */
  datatype Mov = Mov(cr: nat, val: Bits64, efer: Bits64)

  /** The part of the VMCS that such MOVs act on. */
  datatype Mode = Mode(cr0: Cr, cr4: Cr, efer: Bits64, entry: Bits32)

  function ModeOf(v: Vcpu): Mode { Mode(v.vmcs.cr0, v.vmcs.cr4, v.vmcs.efer, v.vmcs.controls.entry) }

  function ModeAfter(c: Caps, m: Mode, x: Mov): Mode {
    if x.cr == 4 then m.(cr4 := SetCr4(c.cr4, x.val), efer := x.efer)
    else
      var (cr0, u) := AfterMovCr0(c.entry, c.cr0, x.efer, m.entry, x.val);
      Mode(cr0, m.cr4, u.efer, u.entry)
  }

  /** The MOV traps in mode `m`, and the processor lets the guest change EFER as it says. */
  predicate Happens(m: Mode, x: Mov) {
    && ((x.cr == 0 && !Absorbed(m.cr0, x.val)) || (x.cr == 4 && !Absorbed(m.cr4, x.val)))
    && (LMA in x.efer <==> LMA in m.efer)
    && (PG in m.cr0.actual ==> (LME in x.efer <==> LME in m.efer))
  }

  predicate Passes(c: Caps, m: Mode, x: Mov) {
    TrappedMovOk(c, m.cr0.actual, m.cr4.actual, x.efer, x.cr, x.val)
  }

  // ---------------------------------------------------------------------------------------------
  // A turn that ends in a trapped MOV
  // ---------------------------------------------------------------------------------------------

  predicate IsMovTurn(t: Turn, x: Mov) {
    && t.entered && t.cr0Writes == t.cr4Writes == [] && !t.tookInterrupt && !t.tookNmi && t.efer == x.efer
    && |t.regs| == COUNT && MovTo(t.exit, x.cr) && Operand(t.regs, t.rsp, t.exit.qualification) == x.val
  }

  lemma MovTurnExists(x: Mov) returns (t: Turn)
    requires x.cr < 16
    ensures IsMovTurn(t, x)
  {
    var n := MaskHasValue(x.val);
    var regs := seq(COUNT, i => n);
    t := Turn(true, [], [], false, false, regs, {}, x.efer, 0, {1}, {}, 0, 0, Phys(1, 0), CrAccessExit(x.cr), 0, 3);
    assert regs[RSP := 0][RAX] == n;
  }

  /** Nothing is queued and nothing is in the entry field, so the field cannot be refused. */
  predicate Quiet(v: Vcpu) { v.pending == [] && !v.vmcs.inject.IsValid() }

  lemma MovTurnRuns(u: Vcpu, t: Turn, x: Mov)
    requires |u.regs| == COUNT && LaunchOk(u) && Quiet(u) && Consistent(u.vmcs.controls)
    requires Happens(ModeOf(u), x) && IsMovTurn(t, x)
    ensures Runs(u, t)
  {
    QuietEntry(u);
    MovTurnOk(AtEntry(u).vmcs, t, x);
  }

  lemma QuietEntry(u: Vcpu)
    requires Quiet(u)
    ensures AtEntry(u).vmcs == u.vmcs
  {
    SwitchesKeep(InjectPending(u));
  }

  lemma MovTurnOk(m: Vmcs, t: Turn, x: Mov)
    requires IsMovTurn(t, x)
    requires (x.cr == 0 && !Absorbed(m.cr0, x.val)) || (x.cr == 4 && !Absorbed(m.cr4, x.val))
    ensures TurnOk(m, t)
  {
  }

  /** The state at the exit. */
  lemma MovTurnExit(u: Vcpu, t: Turn, x: Mov)
    requires |u.regs| == COUNT && IsMovTurn(t, x) && LmaMatches(u.vmcs) && Happens(ModeOf(u), x)
    requires ExitSavesEfer(u.vmcs.controls)
    ensures ModeOf(AtExit(u, t)) == ModeOf(u).(efer := x.efer)
  {
    InjectKeepsMode(u);
    SwitchesKeep(Enter(AtEntry(u), t));
  }

  /** What `handle_cr` does with it. */
  lemma MovHandled(c: Caps, v: Vcpu, q: Word, x: Mov)
    requires |v.regs| == COUNT && c.entry.Accepts(v.vmcs.controls.entry) && IA32E in c.entry.allowed1
    requires LmaMatches(v.vmcs) && (x.cr == 0 || x.cr == 4) && MovTo(CrAccessExit(q), x.cr)
    requires Operand(v.regs, v.vmcs.rsp, q) == x.val && v.vmcs.efer == x.efer
    ensures HandleCr(c, v, q).1 == Handled && ModeOf(HandleCr(c, v, q).0) == ModeAfter(c, ModeOf(v), x)
  {
    HandleCrEfer(c, v, q);
    HandleCrWrites(c, v, q);
    UpdateEferEffect(c.entry, v.vmcs.efer, v.vmcs.controls.entry);
  }

  /** A state that is entered next. */
  ghost predicate Ready(c: Caps, a: ControlFields, u: Vcpu, p: Plain) {
    && CapsOk(c) && LimitsOk(c) && BaseOk(c, a) && Consistent(a)
    && ModeInv(c, a, u, p) && LaunchOk(u) && Quiet(u) && EntryOk(c, u)
  }

  lemma MovTurnCoherent(c: Caps, a: ControlFields, u: Vcpu, p: Plain, t: Turn, x: Mov)
    requires Ready(c, a, u, p) && Happens(ModeOf(u), x) && IsMovTurn(t, x)
    ensures Coherent(c, u, t) && ModeReady(c, AtExit(u, t).vmcs.controls)
  {
    ReadyControls(c, a, u, p);
    MovTurnExit(u, t, x);
    QuietEntry(u);
    ControlsAtExit(u, t);
    CoherentChange(c, u.vmcs, AtExit(u, t).vmcs);
    KeptIsReady(c, a, AtExit(u, t).vmcs.controls);
  }

  lemma ReadyControls(c: Caps, a: ControlFields, u: Vcpu, p: Plain)
    requires Ready(c, a, u, p)
    ensures ModeReady(c, u.vmcs.controls) && ExitSavesEfer(u.vmcs.controls) && Consistent(u.vmcs.controls)
  {
    KeptIsReady(c, a, u.vmcs.controls);
    FixedIsConsistent(a, u.vmcs.controls);
  }

  lemma ControlsAtExit(u: Vcpu, t: Turn)
    requires |u.regs| == |t.regs| == COUNT && Quiet(u) && t.entered
    ensures var k := u.vmcs.controls; AtExit(u, t).vmcs.controls == k.(entry := AtExit(u, t).vmcs.controls.entry)
  {
    QuietEntry(u);
    SwitchesKeep(Enter(AtEntry(u), t));
  }

  /** Changing EFER as the processor lets a guest change it keeps the mode acceptable. */
  lemma CoherentChange(c: Caps, m: Vmcs, n: Vmcs)
    requires VmcsAccepted(c, m) && EntryLoadsEfer(m.controls)
    requires n.cr0 == m.cr0 && n.cr4 == m.cr4 && n.controls == m.controls
    requires (LMA in n.efer <==> LMA in m.efer) && (PG in m.cr0.actual ==> (LME in n.efer <==> LME in m.efer))
    ensures VmcsAccepted(c, n)
  {
  }

  lemma MovTurnMode(c: Caps, u: Vcpu, t: Turn, x: Mov)
    requires |u.regs| == COUNT && IsMovTurn(t, x) && Happens(ModeOf(u), x) && LmaMatches(u.vmcs)
    requires ExitSavesEfer(u.vmcs.controls) && c.entry.Accepts(u.vmcs.controls.entry) && IA32E in c.entry.allowed1
    ensures var (w, o) := HandleCr(c, AtExit(u, t), t.exit.qualification);
            o == Handled && ModeOf(w) == ModeAfter(c, ModeOf(u), x)
  {
    MovTurnExit(u, t, x);
    OperandAtExit(u, t, t.exit.qualification);
    MovHandled(c, AtExit(u, t), t.exit.qualification, x);
  }

  lemma MovTurnHandled(c: Caps, u: Vcpu, t: Turn, x: Mov)
    requires IsMovTurn(t, x) && Runs(u, t) && Happens(ModeOf(u), x) && LmaMatches(u.vmcs)
    requires ExitSavesEfer(u.vmcs.controls) && c.entry.Accepts(u.vmcs.controls.entry) && IA32E in c.entry.allowed1
    ensures InnerRun(c, u, t).1 == Handled && ModeOf(InnerRun(c, u, t).0) == ModeAfter(c, ModeOf(u), x)
  {
    MovTurnMode(c, u, t, x);
    RunHandlesExit(c, u, t);
  }

  lemma MovTurnReadyIff(c: Caps, a: ControlFields, u: Vcpu, p: Plain, t: Turn, x: Mov)
    requires Ready(c, a, u, p) && Happens(ModeOf(u), x) && IsMovTurn(t, x) && Runs(u, t)
    ensures var w := InnerRun(c, u, t).0;
            && Step(c, u, Run(t), w) && Coherent(c, u, t)
            && (EntryOk(c, w) <==> Passes(c, ModeOf(u), x))
            && (EntryOk(c, w) ==> Ready(c, a, w, PlainStep(p, Run(t))))
  {
    ReadyControls(c, a, u, p);
    MovTurnCoherent(c, a, u, p, t, x);
    MovTurnHandled(c, u, t, x);
    MovTurnExit(u, t, x);
    EventsOfRun(c, u, t);
    ModeOfRun(c, a, u, t, p);
    NextEntryAcceptedIff(c, u, t);
    ExitsAreNotAbsorbed(c, u, t);
  }

  /** From a state that is entered, every MOV that traps can end the turn; it is handled, and the next entry is
      accepted if and only if the MOV passes. */
  lemma TakeMov(c: Caps, a: ControlFields, u: Vcpu, p: Plain, x: Mov) returns (t: Turn, w: Vcpu)
    requires Ready(c, a, u, p) && Happens(ModeOf(u), x)
    ensures Step(c, u, Run(t), w) && Coherent(c, u, t) && ModeOf(w) == ModeAfter(c, ModeOf(u), x)
    ensures EntryOk(c, w) <==> Passes(c, ModeOf(u), x)
    ensures EntryOk(c, w) ==> Ready(c, a, w, PlainStep(p, Run(t)))
  {
    t := MovTurnExists(x);
    MovTurnRuns(u, t, x);
    w := InnerRun(c, u, t).0;
    ReadyControls(c, a, u, p);
    MovTurnCoherent(c, a, u, p, t, x);
    MovTurnHandled(c, u, t, x);
    MovTurnReadyIff(c, a, u, p, t, x);
  }

  // ---------------------------------------------------------------------------------------------
  // Guests that end up refused
  // ---------------------------------------------------------------------------------------------

  /** From mode `m` each of the MOVs traps; all but the last pass, and the last does not. */
  predicate EndsRefused(c: Caps, m: Mode, xs: seq<Mov>)
    decreases |xs|
  {
    && xs != [] && Happens(m, xs[0])
    && if |xs| == 1 then !Passes(c, m, xs[0])
       else Passes(c, m, xs[0]) && EndsRefused(c, ModeAfter(c, m, xs[0]), xs[1..])
  }

  /** A run of the hardware and the code in which every entry is accepted and the one to follow is not. */
  ghost predicate RefusedRunFrom(c: Caps, u: Vcpu, tr: seq<Vcpu>, ops: seq<Op>) {
    && IsRun(c, tr, ops) && tr[0] == u
    && (forall i :: 0 <= i < |ops| ==> CoherentAt(c, tr, ops, i) && EntryOk(c, tr[i]))
    && !EntryOk(c, tr[|ops|])
  }

  lemma OneRefused(c: Caps, u: Vcpu, t: Turn, w: Vcpu)
    requires Step(c, u, Run(t), w) && Coherent(c, u, t) && EntryOk(c, u) && !EntryOk(c, w)
    ensures RefusedRunFrom(c, u, [u, w], [Run(t)])
  {
  }

  lemma OneMoreRefused(c: Caps, u: Vcpu, t: Turn, w: Vcpu, tr: seq<Vcpu>, ops: seq<Op>)
    requires Step(c, u, Run(t), w) && Coherent(c, u, t) && EntryOk(c, u) && RefusedRunFrom(c, w, tr, ops)
    ensures RefusedRunFrom(c, u, [u] + tr, [Run(t)] + ops)
  {
    var all, calls := [u] + tr, [Run(t)] + ops;
    forall i | 0 <= i < |calls|
      ensures Step(c, all[i], calls[i], all[i + 1]) && CoherentAt(c, all, calls, i) && EntryOk(c, all[i])
    {
      if i > 0 {
        assert all[i] == tr[i - 1] && calls[i] == ops[i - 1] && all[i + 1] == tr[i];
        assert CoherentAt(c, tr, ops, i - 1);
      }
    }
  }

  /** Such a sequence of MOVs is a run. */
  lemma {:induction false} RefusedRunExists(c: Caps, a: ControlFields, u: Vcpu, p: Plain, xs: seq<Mov>)
    returns (tr: seq<Vcpu>, ops: seq<Op>)
    requires Ready(c, a, u, p) && EndsRefused(c, ModeOf(u), xs)
    ensures RefusedRunFrom(c, u, tr, ops) && |ops| == |xs|
    decreases |xs|
  {
    var t, w := TakeMov(c, a, u, p, xs[0]);
    if |xs| == 1 {
      tr, ops := [u, w], [Run(t)];
      OneRefused(c, u, t, w);
    } else {
      tr, ops := RefusedRunExists(c, a, w, PlainStep(p, Run(t)), xs[1..]);
      OneMoreRefused(c, u, t, w, tr, ops);
      tr, ops := [u] + tr, [Run(t)] + ops;
    }
  }

  // ---------------------------------------------------------------------------------------------
  // Two of them, on every processor
  // ---------------------------------------------------------------------------------------------

  /** The first entry is accepted and PAE can be on. */
  predicate ProcessorOk(c: Caps) {
    && CapsOk(c) && LimitsOk(c) && PAE in c.cr4.fixed1
    && PCIDE !in c.cr4.fixed0 && (CET in c.cr4.fixed0 ==> WP in c.cr0.fixed0)
  }

  lemma ReadyAfterSetup(c: Caps, f: Features, u: Vcpu)
    requires ProcessorOk(c) && JustSetUp(c, f, u) && LaunchOk(u) && Quiet(u)
    ensures Ready(c, u.vmcs.controls, u, PlainOf([]))
  {
    SetupMode(c, f, u);
    FirstEntryAcceptedIff(c, f, u);
  }

  /** CD is host-owned whatever the processor, so a MOV to CR0 that changes it traps. */
  lemma CachingMovTraps(c: Caps, before: Bits64, val: Bits64)
    requires (CD in before) != (CD in val)
    ensures !Absorbed(SetCr0(c.cr0, before), val)
  {
    var cr := SetCr0(c.cr0, before);
    assert CD in cr.mask;
    assert CD in val * cr.mask <==> CD in val;
    assert CD in cr.shadow * cr.mask <==> CD in before;
  }

  /** VMXE is host-owned and set in the shadow, so a MOV to CR4 without it traps. */
  lemma VmxeMovTraps(c: Caps, before: Bits64, val: Bits64)
    requires VMXE in c.cr4.fixed0 && VMXE !in val
    ensures !Absorbed(SetCr4(c.cr4, before), val)
  {
    var cr := SetCr4(c.cr4, before);
    assert VMXE in cr.shadow * cr.mask && VMXE !in val * cr.mask;
  }

  const THIRTY_TWO_BIT := [Mov(0, {PE, PG}, {})]

  lemma PagingRefused(c: Caps, m: Mode)
    requires m.cr0 == SetCr0(c.cr0, {NW, CD, ET}) && m.efer == {}
    ensures EndsRefused(c, m, THIRTY_TWO_BIT)
  {
    CachingMovTraps(c, {NW, CD, ET}, {PE, PG});
  }

  /** A guest that turns on 32-bit paging right after setup: its first entry is accepted, the MOV traps and is
      handled, and the next entry is refused. */
  lemma ThirtyTwoBitPagingRefused(c: Caps, f: Features, u: Vcpu) returns (tr: seq<Vcpu>, ops: seq<Op>)
    requires ProcessorOk(c) && JustSetUp(c, f, u) && LaunchOk(u) && Quiet(u)
    ensures RefusedRunFrom(c, u, tr, ops) && |ops| == 1
  {
    ReadyAfterSetup(c, f, u);
    PagingRefused(c, ModeOf(u));
    tr, ops := RefusedRunExists(c, u.vmcs.controls, u, PlainOf([]), THIRTY_TWO_BIT);
  }

  /** Clearing PG alone does not trap: the guest owns the bit, and the processor leaves long mode itself. */
  lemma PagingOffAbsorbed(c: Caps)
    requires {PE, PG} <= c.cr0.fixed1
    ensures Absorbed(SetCr0(c.cr0, {PE, PG}), {PE})
  {
    var cr := SetCr0(c.cr0, {PE, PG});
    assert PG in c.cr0.fixed1;
    assert PG !in cr.mask;
    assert {PE} * cr.mask == {PE, PG} * cr.mask;
  }

  /** PAE by a MOV to CR4 after LME, then PE and PG by a MOV to CR0: long mode. Then paging off together with the
      caches. */
  const IN_AND_OUT := [Mov(4, {PAE}, {LME}), Mov(0, {PE, PG}, {LME}), Mov(0, {PE, CD}, {LME, LMA})]

  lemma InAndOutRefused(c: Caps, m: Mode)
    requires ProcessorOk(c) && c.entry.Accepts(m.entry) && IA32E !in m.entry
    requires m.cr0 == SetCr0(c.cr0, {NW, CD, ET}) && m.cr4 == SetCr4(c.cr4, {}) && m.efer == {}
    ensures EndsRefused(c, m, IN_AND_OUT)
  {
    var x, y, z := IN_AND_OUT[0], IN_AND_OUT[1], IN_AND_OUT[2];
    assert IN_AND_OUT[1..] == [y, z] && [y, z][1..] == [z];
    var m1 := ModeAfter(c, m, x);
    assert Happens(m, x) && Passes(c, m, x) by { PaeStep(c, m); }
    var m2 := ModeAfter(c, m1, y);
    assert Happens(m1, y) && Passes(c, m1, y) && m2.efer == {LME, LMA} by { LongModeStep(c, m1); }
    assert Happens(m2, z) && !Passes(c, m2, z) by { CachingMovTraps(c, {PE, PG}, {PE, CD}); }
    assert EndsRefused(c, m2, [z]);
    assert EndsRefused(c, m1, [y, z]);
  }

  lemma PaeStep(c: Caps, m: Mode)
    requires ProcessorOk(c) && m.cr0 == SetCr0(c.cr0, {NW, CD, ET}) && m.cr4 == SetCr4(c.cr4, {}) && m.efer == {}
    ensures Happens(m, Mov(4, {PAE}, {LME})) && Passes(c, m, Mov(4, {PAE}, {LME}))
  {
    VmxeMovTraps(c, {}, {PAE});
  }

  lemma LongModeStep(c: Caps, m: Mode)
    requires ProcessorOk(c) && c.entry.Accepts(m.entry) && IA32E !in m.entry
    requires m.cr0 == SetCr0(c.cr0, {NW, CD, ET}) && m.cr4 == SetCr4(c.cr4, {PAE}) && m.efer == {LME}
    ensures var y := Mov(0, {PE, PG}, {LME});
            Happens(m, y) && Passes(c, m, y) && ModeAfter(c, m, y).efer == {LME, LMA}
  {
    CachingMovTraps(c, {NW, CD, ET}, {PE, PG});
    SetCr4Bits(c.cr4, {PAE});
  }

  /** A guest that enters long mode and leaves it again with the caches off: three runs from setup, all of whose
      entries are accepted, and the next one refused. */
  lemma LeavingLongModeRefused(c: Caps, f: Features, u: Vcpu) returns (tr: seq<Vcpu>, ops: seq<Op>)
    requires ProcessorOk(c) && JustSetUp(c, f, u) && LaunchOk(u) && Quiet(u)
    ensures RefusedRunFrom(c, u, tr, ops) && |ops| == 3
  {
    ReadyAfterSetup(c, f, u);
    SetupIsLegal(c, f, u.vmcs.controls);
    InAndOutRefused(c, ModeOf(u));
    tr, ops := RefusedRunExists(c, u.vmcs.controls, u, PlainOf([]), IN_AND_OUT);
  }
}
