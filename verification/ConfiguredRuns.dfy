/** What the control bits that setup asks for do over runs: which exits can happen and which of them end in a panic,
    what the bitmaps let through, and whose IA32_EFER and IA32_PAT are in force. */
module ConfiguredRuns {
  import opened Bits
  import opened Controls
  import opened Processor
  import opened ControlRegisters
  import opened Registers
  import opened VcpuModel
  import opened VcpuRuns
  import opened ModeRuns

  // ---------------------------------------------------------------------------------------------
  // Exits
  // ---------------------------------------------------------------------------------------------

  /** The guest never takes an interrupt or NMI of the host; an external-interrupt exit names its vector; no access to
      CR3 or CR8 exits; a port access exits only if the port is intercepted, an MSR access only if the MSR is
      intercepted or not covered. */
  predicate AsConfigured(traps: Traps, t: Turn)
    requires |t.regs| == COUNT
  {
    var msr := t.regs[RCX] % TWO32;
    && !t.tookInterrupt && !t.tookNmi
    && match t.exit
       case ExternalInterrupt(info) => info / 0x8000_0000 == 1
       case CrAccessExit(q) => MovTo(t.exit, 0) || MovTo(t.exit, 4) || q / 16 % 4 in {2, 3}
       case IoInstruction(port) => port in traps.ports
       case MsrRead(_) => !Covered(msr) || msr in traps.msrReads
       case MsrWrite(_) => !Covered(msr) || msr in traps.msrWrites
       case _ => true
  }

  lemma ConfiguredTurn(f: Features, m: Vmcs, t: Turn)
    requires Effective(f, m.controls) && TurnOk(m, t)
    ensures AsConfigured(m.traps, t)
  {
  }

  lemma EffectiveOverRun(c: Caps, f: Features, tr: seq<Vcpu>, ops: seq<Op>, k: nat)
    requires CapsOk(c) && IsRun(c, tr, ops) && JustSetUp(c, f, tr[0]) && k <= |ops|
    ensures Effective(f, AtEntry(tr[k]).vmcs.controls)
  {
    EveryEntryIsLegal(c, f, tr, ops, k);
  }

  /** Over every run from setup, so is every turn that a next run can take. */
  lemma ExitsAsConfigured(c: Caps, f: Features, tr: seq<Vcpu>, ops: seq<Op>, k: nat, t: Turn)
    requires CapsOk(c) && IsRun(c, tr, ops) && JustSetUp(c, f, tr[0]) && k <= |ops| && Runs(tr[k], t)
    ensures AsConfigured(tr[k].vmcs.traps, t)
  {
    EffectiveOverRun(c, f, tr, ops, k);
    EntryFixes(tr[k]);
    ConfiguredTurn(f, AtEntry(tr[k]).vmcs, t);
  }

  /** The guest is free to choose the four low bits of CR0. */
  predicate LowBitsFree(l: Limits) { {0, 1, 2, 3} <= l.fixed1 && {1, 2, 3} !! l.fixed0 }

  lemma LowBitsNotOwned(l: Limits, cr: Cr, w: Bits64)
    requires Cr0BitsRight(l, cr, w)
    ensures LowBitsFree(l) <==> forall i: nat :: i <= 3 ==> i !in cr.mask
  {
    assert forall i: nat :: i <= 3 ==> (i in cr.mask <==> OwnedCr0Bit(l, i));
    if forall i: nat :: i <= 3 ==> i !in cr.mask {
      assert !OwnedCr0Bit(l, 0) && !OwnedCr0Bit(l, 1) && !OwnedCr0Bit(l, 2) && !OwnedCr0Bit(l, 3);
    }
  }

  lemma NoCltsOrLmsw(m: Vmcs, t: Turn)
    requires TurnOk(m, t) && t.exit.CrAccessExit? && forall i: nat :: i <= 3 ==> i !in m.cr0.mask
    ensures t.exit.qualification / 16 % 4 !in {2, 3}
  {
  }

  /** Over every run from setup, `handle_cr` panics exactly on CLTS and LMSW; and where the four low bits of CR0 are
      free, neither ever exits, so it does not panic at all. */
  lemma CrExitPanicsIff(c: Caps, f: Features, tr: seq<Vcpu>, ops: seq<Op>, k: nat, t: Turn)
    requires CapsOk(c) && IsRun(c, tr, ops) && JustSetUp(c, f, tr[0]) && k <= |ops| && Runs(tr[k], t)
    requires t.exit.CrAccessExit?
    ensures InnerRun(c, tr[k], t).1 == Panicked <==> t.exit.qualification / 16 % 4 in {2, 3}
    ensures LowBitsFree(c.cr0) ==> InnerRun(c, tr[k], t).1 == Handled
  {
    ExitsAsConfigured(c, f, tr, ops, k, t);
    EveryEntryIsLegal(c, f, tr, ops, k);
    LowBitsNotOwned(c.cr0, AtEntry(tr[k]).vmcs.cr0, PlainOf(ops[..k]).cr0);
    if LowBitsFree(c.cr0) {
      NoCltsOrLmsw(AtEntry(tr[k]).vmcs, t);
    }
    SetupMode(c, f, tr[0]);
    RunsKeepMode(c, f, tr, ops, k);
    CrOutcome(c, tr[0].vmcs.controls, tr[k], t, PlainOf(ops[..k]));
  }

  lemma CrOutcome(c: Caps, a: ControlFields, u: Vcpu, t: Turn, p: Plain)
    requires CapsOk(c) && BaseOk(c, a) && ModeInv(c, a, u, p) && Runs(u, t) && t.entered && t.exit.CrAccessExit?
    ensures InnerRun(c, u, t).1 == (if MovTo(t.exit, 0) || MovTo(t.exit, 4) then Handled else Panicked)
  {
    ModeAtExit(c, a, u, t, p);
    RunHandlesExit(c, u, t);
    var x := AtExit(u, t);
    HandleCrEfer(c, x, t.exit.qualification);
    KeptIsReady(c, a, x.vmcs.controls);
    UpdateEferEffect(c.entry, x.vmcs.efer, x.vmcs.controls.entry);
  }

  /** A guest that executes LMSW with all four bits set. */
  const LMSW: Word := 0xf_0030

  function LmswTurn(phys: Phys): Turn {
    Turn(true, [], [], false, false, seq(COUNT, _ => 0), {}, {}, 0, {1}, {}, 0, 0, phys, CrAccessExit(LMSW), 0, 3)
  }

  lemma LmswTurnOk(m: Vmcs, phys: Phys)
    requires LmswExits(m.cr0, OneBits(0xf))
    ensures TurnOk(m, LmswTurn(phys))
  {
    assert LMSW / 16 % 4 == 3 && LMSW / 0x1_0000 % 0x1_0000 == 0xf;
    assert CrExits(m, LMSW, Operand(LmswTurn(phys).regs, 0, LMSW));
  }

  /** With nothing in the field and nothing queued, setup's controls let the vCPU be entered. */
  lemma SetupCanEnter(c: Caps, f: Features, u: Vcpu)
    requires CapsOk(c) && JustSetUp(c, f, u) && LaunchOk(u) && u.pending == [] && !u.vmcs.inject.IsValid()
    ensures CanEnter(u)
  {
    SetupIsLegal(c, f, u.vmcs.controls);
    LegalIsEffective(c, f, u.vmcs.controls);
    SwitchesKeep(InjectPending(u));
  }

  lemma LmswRuns(c: Caps, u: Vcpu)
    requires |u.regs| == COUNT && CanEnter(u) && LmswExits(u.vmcs.cr0, OneBits(0xf))
    ensures Runs(u, LmswTurn(u.phys))
  {
    InjectKeepsMode(u);
    LmswTurnOk(AtEntry(u).vmcs, u.phys);
  }

  lemma LmswIsNoMov()
    ensures !MovTo(CrAccessExit(LMSW), 0) && !MovTo(CrAccessExit(LMSW), 4)
  {
    assert LMSW / 16 % 4 == 3;
  }

  /** The condition is exact: where the guest is not free to choose one of them, an LMSW right after setup panics. */
  lemma LmswPanics(c: Caps, f: Features, u: Vcpu)
    requires CapsOk(c) && JustSetUp(c, f, u) && LaunchOk(u) && u.pending == [] && !u.vmcs.inject.IsValid()
    requires !LowBitsFree(c.cr0)
    ensures Runs(u, LmswTurn(u.phys)) && InnerRun(c, u, LmswTurn(u.phys)).1 == Panicked
  {
    LmswExitsAfterSetup(c, u);
    SetupCanEnter(c, f, u);
    LmswRuns(c, u);
    SetupMode(c, f, u);
    LmswIsNoMov();
    CrOutcome(c, u.vmcs.controls, u, LmswTurn(u.phys), RESET);
  }

  lemma AllFourBits(i: nat)
    requires i <= 3
    ensures i in OneBits(0xf)
  {
    assert HasBit(0xf, 0) && HasBit(0xf, 1) && HasBit(0xf, 2) && HasBit(0xf, 3);
  }

  lemma LmswOfAllExits(cr: Cr, i: nat)
    requires i <= 3 && i in cr.mask && i !in cr.shadow
    ensures LmswExits(cr, OneBits(0xf))
  {
    AllFourBits(i);
  }

  lemma OwnedLowBit(l: Limits, cr: Cr, w: Bits64) returns (i: nat)
    requires l.WellFormed() && Holds(Cr0May(l), Cr0Must(l), cr, w) && !LowBitsFree(l)
    ensures i <= 3 && i in cr.mask
  {
    HeldCr0IsLegal(l, cr, w);
    LowBitsNotOwned(l, cr, w);
    i :| i <= 3 && i in cr.mask;
  }

  lemma LmswExitsAfterSetup(c: Caps, u: Vcpu)
    requires c.cr0.WellFormed() && u.vmcs.cr0 == SetCr0(c.cr0, {NW, CD, ET}) && !LowBitsFree(c.cr0)
    ensures LmswExits(u.vmcs.cr0, OneBits(0xf))
  {
    SetCr0Holds(c.cr0, {NW, CD, ET});
    var i := OwnedLowBit(c.cr0, u.vmcs.cr0, {NW, CD, ET});
    LmswOfAllExits(u.vmcs.cr0, i);
  }

  // ---------------------------------------------------------------------------------------------
  // The bitmaps
  // ---------------------------------------------------------------------------------------------

  /** The intercepted ports and MSRs as the host's own calls make them. */
  function TrapsStep(t: Traps, op: Op): Traps {
    match op
    case InterceptPorts(base, count, on) =>
      t.(ports := if on then t.ports + Interval(base, base + count) else t.ports - Interval(base, base + count))
    case InterceptMsr(msr, on) =>
      if on then t.(msrReads := t.msrReads + {msr}, msrWrites := t.msrWrites + {msr})
      else t.(msrReads := t.msrReads - {msr}, msrWrites := t.msrWrites - {msr})
    case _ => t
  }

  function TrapsAfter(t: Traps, ops: seq<Op>): Traps {
    if ops == [] then t else TrapsStep(TrapsAfter(t, ops[..|ops| - 1]), ops[|ops| - 1])
  }

  lemma TrapsOfStep(c: Caps, u: Vcpu, op: Op, w: Vcpu)
    requires Step(c, u, op, w)
    ensures w.vmcs.traps == TrapsStep(u.vmcs.traps, op)
  {
    if op.Run? {
      EntryFixes(u);
      SwitchesKeep(Enter(AtEntry(u), op.turn));
      RunHandlesExit(c, u, op.turn);
      HandlerFixes(c, AtExit(u, op.turn), op.turn.exit);
    }
  }

  lemma {:induction false} TrapsOverRun(c: Caps, tr: seq<Vcpu>, ops: seq<Op>, k: nat)
    requires IsRun(c, tr, ops) && k <= |ops|
    ensures tr[k].vmcs.traps == TrapsAfter(tr[0].vmcs.traps, ops[..k])
    decreases k
  {
    if k > 0 {
      TrapsOverRun(c, tr, ops, k - 1);
      TrapsOfStep(c, tr[k - 1], ops[k - 1], tr[k]);
      assert ops[..k][..k - 1] == ops[..k - 1];
    }
  }

  /** Over every run from setup: a port access exits if and only if setup or the host's own calls intercept the port;
      setup intercepts port 0x604. */
  lemma PortAccessExitsIff(c: Caps, f: Features, tr: seq<Vcpu>, ops: seq<Op>, k: nat, port: nat)
    requires CapsOk(c) && IsRun(c, tr, ops) && JustSetUp(c, f, tr[0]) && k <= |ops|
    ensures var m := AtEntry(tr[k]).vmcs;
            PortExits(m.controls, port in m.traps.ports) <==> port in TrapsAfter(tr[0].vmcs.traps, ops[..k]).ports
    ensures 0x604 in tr[0].vmcs.traps.ports
  {
    EffectiveOverRun(c, f, tr, ops, k);
    EntryFixes(tr[k]);
    TrapsOverRun(c, tr, ops, k);
    SetupIntercepts(c, f, tr[0]);
  }

  lemma SetupIntercepts(c: Caps, f: Features, v: Vcpu)
    requires JustSetUp(c, f, v)
    ensures 0x604 in v.vmcs.traps.ports
    ensures forall m: nat :: m == 0xe1 || 0x800 <= m <= 0x83f ==>
              m in v.vmcs.traps.msrReads && m in v.vmcs.traps.msrWrites
  {
    var t := v.vmcs.traps;
    assert t.ports == t.ports + {EXIT_PORT} && t.msrReads == t.msrReads + SETUP_MSRS;
    assert t.msrWrites == t.msrWrites + SETUP_MSRS;
  }

  /** Bitmaps that setup alone has touched. */
  predicate OnlySetup(t: Traps) { t.msrReads == t.msrWrites == SETUP_MSRS }

  /** Over every run from setup in which the host leaves the MSR intercepts alone, starting from bitmaps that setup
      alone has touched: an MSR access exits, in either direction, if and only if it is to IA32_UMWAIT_CONTROL, to an
      x2APIC register, or to an MSR that the bitmaps do not cover. */
  lemma MsrAccessExitsIff(c: Caps, f: Features, tr: seq<Vcpu>, ops: seq<Op>, k: nat, msr: nat)
    requires CapsOk(c) && IsRun(c, tr, ops) && JustSetUp(c, f, tr[0]) && k <= |ops| && OnlySetup(tr[0].vmcs.traps)
    requires forall i :: 0 <= i < |ops| ==> !ops[i].InterceptMsr?
    ensures var m := AtEntry(tr[k]).vmcs;
            var exits := msr == 0xe1 || 0x800 <= msr <= 0x83f || !Covered(msr);
            && (MsrExits(m.controls, Covered(msr), msr in m.traps.msrReads) <==> exits)
            && (MsrExits(m.controls, Covered(msr), msr in m.traps.msrWrites) <==> exits)
  {
    EffectiveOverRun(c, f, tr, ops, k);
    EntryFixes(tr[k]);
    OnlySetupOverRun(c, tr, ops, k);
    MsrExitsOfSetup(f, AtEntry(tr[k]).vmcs, msr);
  }

  lemma OnlySetupOverRun(c: Caps, tr: seq<Vcpu>, ops: seq<Op>, k: nat)
    requires IsRun(c, tr, ops) && k <= |ops| && OnlySetup(tr[0].vmcs.traps)
    requires forall i :: 0 <= i < |ops| ==> !ops[i].InterceptMsr?
    ensures OnlySetup(tr[k].vmcs.traps)
  {
    TrapsOverRun(c, tr, ops, k);
    MsrTrapsKept(tr[0].vmcs.traps, ops[..k]);
  }

  lemma MsrExitsOfSetup(f: Features, m: Vmcs, msr: nat)
    requires Effective(f, m.controls) && OnlySetup(m.traps)
    ensures var exits := msr == 0xe1 || 0x800 <= msr <= 0x83f || !Covered(msr);
            && (MsrExits(m.controls, Covered(msr), msr in m.traps.msrReads) <==> exits)
            && (MsrExits(m.controls, Covered(msr), msr in m.traps.msrWrites) <==> exits)
  {
    assert msr in SETUP_MSRS <==> msr == 0xe1 || 0x800 <= msr <= 0x83f;
  }

  /** And of those that exit the vCPU passes on exactly the ones that are not to x2APIC registers. */
  lemma MsrExitsOverRuns(c: Caps, f: Features, tr: seq<Vcpu>, ops: seq<Op>, k: nat, t: Turn)
    requires CapsOk(c) && IsRun(c, tr, ops) && JustSetUp(c, f, tr[0]) && k <= |ops| && OnlySetup(tr[0].vmcs.traps)
    requires forall i :: 0 <= i < |ops| ==> !ops[i].InterceptMsr?
    requires Runs(tr[k], t) && (t.exit.MsrRead? || t.exit.MsrWrite?)
    ensures var msr := t.regs[RCX] % TWO32;
            && (msr == 0xe1 || 0x800 <= msr <= 0x83f || !Covered(msr))
            && (InnerRun(c, tr[k], t).1 == NotHandled <==> msr == 0xe1 || !Covered(msr))
  {
    MsrAccessExitsIff(c, f, tr, ops, k, t.regs[RCX] % TWO32);
    MsrOutcome(c, tr[k], t);
  }

  lemma {:induction false} MsrTrapsKept(t: Traps, ops: seq<Op>)
    requires forall i :: 0 <= i < |ops| ==> !ops[i].InterceptMsr?
    ensures TrapsAfter(t, ops).msrReads == t.msrReads && TrapsAfter(t, ops).msrWrites == t.msrWrites
    decreases |ops|
  {
    if ops != [] {
      MsrTrapsKept(t, ops[..|ops| - 1]);
    }
  }

  lemma MsrOutcome(c: Caps, u: Vcpu, t: Turn)
    requires Runs(u, t) && t.entered && (t.exit.MsrRead? || t.exit.MsrWrite?)
    ensures InnerRun(c, u, t).1 == NotHandled <==> !(0x800 <= t.regs[RCX] % 0x1_0000_0000 <= 0x8ff)
  {
    RunHandlesExit(c, u, t);
    RegsAtExit(u, t);
    assert t.regs[RCX] == t.regs[RSP := t.rsp][RCX];
    assert AtExit(u, t).regs[RCX] == AtExit(u, t).regs[RSP := AtExit(u, t).vmcs.rsp][RCX];
  }

  // ---------------------------------------------------------------------------------------------
  // IA32_EFER and IA32_PAT
  // ---------------------------------------------------------------------------------------------

  /** What the guest starts its turn with. */
  function GuestStarts(v: Vcpu): Msrs {
    var m := AtEntry(v).vmcs;
    AtGuestEntry(m.controls, Msrs(m.efer, m.pat), v.msrs)
  }

  /** What the host had when it last bound the vCPU, and what the guest's PAT last was. */
  function BoundStep(first: Msrs, u: Vcpu, op: Op): Msrs { if op.Bind? then u.msrs else first }

  function PatStep(pat: nat, op: Op): nat { if op.Run? && op.turn.entered then op.turn.pat else pat }

  /** The MSRs of one run: the guest starts with its own, they are kept, and the host has those of the last bind. */
  lemma MsrsOfRun(c: Caps, f: Features, u: Vcpu, t: Turn)
    requires Runs(u, t) && Effective(f, AtEntry(u).vmcs.controls)
    ensures var w := InnerRun(c, u, t).0;
            && GuestStarts(u) == Msrs(u.vmcs.efer, u.vmcs.pat)
            && w.vmcs.pat == PatStep(u.vmcs.pat, Run(t))
            && AtExit(u, t).vmcs.efer == (if t.entered then t.efer else u.vmcs.efer)
            && w.msrs == u.vmcs.host && w.vmcs.host == u.vmcs.host
  {
    MsrsAtEntry(u);
    SwitchesKeep(Enter(AtEntry(u), t));
    RunHandlesExit(c, u, t);
    HandlerFixes(c, AtExit(u, t), t.exit);
  }

  lemma MsrsAtEntry(u: Vcpu)
    ensures var m, n := u.vmcs, AtEntry(u).vmcs;
            n.efer == m.efer && n.pat == m.pat && n.host == m.host && AtEntry(u).msrs == u.msrs
  {
    SwitchesKeep(InjectPending(u));
  }

  predicate MsrStep(u: Vcpu, op: Op, w: Vcpu) {
    w.vmcs.host == BoundStep(u.vmcs.host, u, op) && w.vmcs.pat == PatStep(u.vmcs.pat, op)
  }

  lemma MsrsOfStep(c: Caps, f: Features, u: Vcpu, op: Op, w: Vcpu)
    requires Step(c, u, op, w) && Effective(f, AtEntry(u).vmcs.controls)
    ensures MsrStep(u, op, w)
  {
    if op.Run? {
      MsrsOfRun(c, f, u, op.turn);
    }
  }

  /** The MSRs when the vCPU was last bound, or set up. */
  function MsrsAtBind(tr: seq<Vcpu>, ops: seq<Op>, k: nat): Msrs
    requires |tr| == |ops| + 1 && k <= |ops|
  {
    if k == 0 then tr[0].msrs else BoundStep(MsrsAtBind(tr, ops, k - 1), tr[k - 1], ops[k - 1])
  }

  function LastPat(first: nat, ops: seq<Op>, k: nat): nat
    requires k <= |ops|
  {
    if k == 0 then first else PatStep(LastPat(first, ops, k - 1), ops[k - 1])
  }

  lemma {:induction false} MsrInduction(tr: seq<Vcpu>, ops: seq<Op>, k: nat)
    requires |tr| == |ops| + 1 && k <= |ops| && tr[0].vmcs.host == tr[0].msrs
    requires forall i :: 0 <= i < k ==> MsrStep(tr[i], ops[i], tr[i + 1])
    ensures tr[k].vmcs.host == MsrsAtBind(tr, ops, k) && tr[k].vmcs.pat == LastPat(tr[0].vmcs.pat, ops, k)
    decreases k
  {
    if k > 0 {
      MsrInduction(tr, ops, k - 1);
      assert MsrStep(tr[k - 1], ops[k - 1], tr[k]);
    }
  }

  lemma MsrsOverRun(c: Caps, f: Features, tr: seq<Vcpu>, ops: seq<Op>, k: nat)
    requires CapsOk(c) && IsRun(c, tr, ops) && JustSetUp(c, f, tr[0]) && k <= |ops|
    ensures tr[k].vmcs.host == MsrsAtBind(tr, ops, k) && tr[k].vmcs.pat == LastPat(tr[0].vmcs.pat, ops, k)
  {
    forall i | 0 <= i < k ensures MsrStep(tr[i], ops[i], tr[i + 1]) {
      EffectiveOverRun(c, f, tr, ops, i);
      MsrsOfStep(c, f, tr[i], ops[i], tr[i + 1]);
    }
    MsrInduction(tr, ops, k);
  }

  /** So after a run the host's EFER and PAT are as before it if and only if the host has not changed them since it
      bound the vCPU: the host-state area is written at bind and read at every exit. And the guest started with its
      own PAT. */
  lemma HostMsrsBackIff(c: Caps, f: Features, tr: seq<Vcpu>, ops: seq<Op>, k: nat)
    requires CapsOk(c) && IsRun(c, tr, ops) && JustSetUp(c, f, tr[0]) && k < |ops| && ops[k].Run?
    ensures tr[k + 1].msrs == tr[k].msrs <==> tr[k].msrs == MsrsAtBind(tr, ops, k)
    ensures GuestStarts(tr[k]) == Msrs(tr[k].vmcs.efer, LastPat(tr[0].vmcs.pat, ops, k))
  {
    EffectiveOverRun(c, f, tr, ops, k);
    MsrsOverRun(c, f, tr, ops, k);
    RunMsrs(c, f, tr[k], ops[k], tr[k + 1]);
  }

  lemma RunMsrs(c: Caps, f: Features, u: Vcpu, op: Op, w: Vcpu)
    requires Step(c, u, op, w) && op.Run? && Effective(f, AtEntry(u).vmcs.controls)
    ensures w.msrs == u.vmcs.host && GuestStarts(u) == Msrs(u.vmcs.efer, u.vmcs.pat)
  {
    MsrsOfRun(c, f, u, op.turn);
  }

  // ---------------------------------------------------------------------------------------------
  // The guest state that setup writes
  // ---------------------------------------------------------------------------------------------

  /** Sections 26.3.1.4 and 26.3.1.5 of Intel SDM Vol. 3C: bit 1 of RFLAGS is 1, bits 3, 5, 15 and 63:22 are 0, and
      bit 17 is 0 unless the guest is in protected mode outside long mode; no reserved interruptibility bit is on, STI
      and MOV SS do not both block, and STI blocks only with IF. */
  predicate FlagsAccepted(m: Vmcs) {
    && 1 in m.rflags && {3, 5, 15} !! m.rflags && (forall i :: 22 <= i < 64 ==> i !in m.rflags)
    && (17 in m.rflags ==> 0 in m.cr0.actual && !LongModeGuest(m.controls))
    && (forall i :: 5 <= i < 32 ==> i !in m.interruptibility)
    && !({0, 1} <= m.interruptibility) && (0 in m.interruptibility ==> 9 in m.rflags)
  }

  /** They hold at the first entry, which starts with interrupts off and nothing blocked. */
  lemma FirstEntryFlags(c: Caps, f: Features, u: Vcpu)
    requires JustSetUp(c, f, u)
    ensures FlagsAccepted(AtEntry(u).vmcs)
    ensures 9 !in AtEntry(u).vmcs.rflags && AtEntry(u).vmcs.interruptibility == {}
  {
    FlagsAtEntry(u);
    FreshFlags(AtEntry(u).vmcs);
  }

  lemma FlagsAtEntry(u: Vcpu)
    ensures AtEntry(u).vmcs.rflags == u.vmcs.rflags && AtEntry(u).vmcs.interruptibility == u.vmcs.interruptibility
  {
    SwitchesKeep(InjectPending(u));
  }

  lemma FreshFlags(m: Vmcs)
    requires m.rflags == {1} && m.interruptibility == {}
    ensures FlagsAccepted(m)
  {
  }
}
