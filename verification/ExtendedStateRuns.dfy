/** XCR0 and IA32_XSS over runs. */
module ExtendedStateRuns {
  import opened Registers
  import opened VcpuModel
  import opened VcpuRuns

  // ---------------------------------------------------------------------------------------------
  // Extended state
  // ---------------------------------------------------------------------------------------------

  /** The nested switch of `handle_cpuid` shows the guest's registers to CPUID and then undoes itself. */
  lemma NestedSwitch(v: Vcpu)
    ensures v.xstate.xsave ==> ToGuest(v).phys.xcr0 == v.xstate.guestXcr0
    ensures v.xstate.xsave && v.xstate.xsaves ==> ToGuest(v).phys.xss == v.xstate.guestXss
    ensures var w := ToHost(ToGuest(v));
            && SameButX(v, w) && SameX(v, w)
  {
  }

  /** The same physical registers and the same guest values kept for later. */
  predicate SameX(u: Vcpu, w: Vcpu) {
    && w.phys == u.phys
    && w.xstate.guestXcr0 == u.xstate.guestXcr0 && w.xstate.guestXss == u.xstate.guestXss
    && w.xstate.xsave == u.xstate.xsave && w.xstate.xsaves == u.xstate.xsaves
  }

  lemma HandlerKeepsX(c: Caps, v: Vcpu, exit: Exit)
    requires |v.regs| == COUNT
    ensures SameX(v, Handle(c, v, exit).0)
  {
    NestedSwitch(v);
    if exit.Xsetbv? {
      XsetbvPanics(v);
    }
  }

  /** The extended state the guest has at the end of a turn. */
  function LeftByGuest(u: Vcpu, t: Turn): Phys { if t.entered then t.phys else AtEntry(u).phys }

  /** After a run: each register is the host's again and the guest's value is kept for the next entry, if
      the processor lets the code switch it; otherwise the guest's value stays in the processor. */
  predicate SwapDone(u: Vcpu, w: Vcpu, left: Phys) {
    var x := u.xstate;
    && w.phys.xcr0 == (if x.xsave then u.phys.xcr0 else left.xcr0)
    && w.phys.xss == (if x.xsave && x.xsaves then u.phys.xss else left.xss)
    && w.xstate.guestXcr0 == (if x.xsave then left.xcr0 else x.guestXcr0)
    && w.xstate.guestXss == (if x.xsave && x.xsaves then left.xss else x.guestXss)
    && w.xstate.xsave == x.xsave && w.xstate.xsaves == x.xsaves
  }

  lemma SwapAroundTurn(v: Vcpu, e: Vcpu)
    requires e.xstate == ToGuest(v).xstate
    ensures SwapDone(v, ToHost(e), e.phys)
  {
  }

  /** One run, any guest, including the nested switch for CPUID leaf 0xD. */
  lemma ExtendedStateOfRun(c: Caps, u: Vcpu, t: Turn)
    requires Runs(u, t)
    ensures SwapDone(u, InnerRun(c, u, t).0, LeftByGuest(u, t))
  {
    EnterKeepsX(AtEntry(u), t);
    SwapAroundTurn(InjectPending(u), Enter(AtEntry(u), t));
    SwitchesKeep(Enter(AtEntry(u), t));
    RunHandlesExit(c, u, t);
    HandlerKeepsX(c, AtExit(u, t), t.exit);
  }

  lemma EnterKeepsX(v: Vcpu, t: Turn)
    requires |v.regs| == |t.regs| == COUNT
    ensures Enter(v, t).xstate == v.xstate && Enter(v, t).phys == (if t.entered then t.phys else v.phys)
  {
  }

  /** The values the guest last had: left by the last run that entered it, or the initial ones. */
  function LastPhysStep(last: Phys, op: Op): Phys {
    if op.Run? && op.turn.entered then op.turn.phys else last
  }

  function LastPhys(first: Phys, ops: seq<Op>): Phys {
    if ops == [] then first else LastPhysStep(LastPhys(first, ops[..|ops| - 1]), ops[|ops| - 1])
  }

  /** The values are kept for the next entry: XCR0 where there is XSAVE, IA32_XSS where there is XSAVES too. */
  predicate GuestKept(v: Vcpu, last: Phys) {
    && (v.xstate.xsave ==> v.xstate.guestXcr0 == last.xcr0)
    && (v.xstate.xsave && v.xstate.xsaves ==> v.xstate.guestXss == last.xss)
  }

  /** The guest sees them at the entry of a run from `v`. */
  predicate EntryShows(v: Vcpu, last: Phys) {
    && (v.xstate.xsave ==> AtEntry(v).phys.xcr0 == last.xcr0)
    && (v.xstate.xsave && v.xstate.xsaves ==> AtEntry(v).phys.xss == last.xss)
  }

  lemma KeptIsShown(v: Vcpu, last: Phys)
    ensures GuestKept(v, last) <==> EntryShows(v, last)
  {
  }

  lemma GuestKeptStep(c: Caps, u: Vcpu, op: Op, w: Vcpu, last: Phys)
    requires Step(c, u, op, w) && GuestKept(u, last)
    ensures GuestKept(w, LastPhysStep(last, op))
  {
    if op.Run? {
      ExtendedStateOfRun(c, u, op.turn);
      KeptIsShown(u, last);
    }
  }

  /** Whatever the host does with its own extended state in between, every entry shows the guest the
      values it last had. */
  lemma {:induction false} GuestSeesItsOwn(c: Caps, tr: seq<Vcpu>, ops: seq<Op>, first: Phys, k: nat)
    requires IsRun(c, tr, ops) && GuestKept(tr[0], first) && k <= |ops|
    ensures EntryShows(tr[k], LastPhys(first, ops[..k]))
  {
    if k > 0 {
      GuestSeesItsOwn(c, tr, ops, first, k - 1);
      KeptIsShown(tr[k - 1], LastPhys(first, ops[..k - 1]));
      GuestKeptStep(c, tr[k - 1], ops[k - 1], tr[k], LastPhys(first, ops[..k - 1]));
      assert ops[..k][..k - 1] == ops[..k - 1];
    }
    KeptIsShown(tr[k], LastPhys(first, ops[..k]));
  }

  /** The host's own values: those it last set. */
  function HostPhys(first: Phys, ops: seq<Op>): Phys {
    if ops == [] then first
    else if ops[|ops| - 1].Host? then ops[|ops| - 1].phys
    else HostPhys(first, ops[..|ops| - 1])
  }

  predicate HostHas(v: Vcpu, x: XState, own: Phys) {
    && v.xstate.xsave == x.xsave && v.xstate.xsaves == x.xsaves
    && (x.xsave ==> v.phys.xcr0 == own.xcr0)
    && (x.xsave && x.xsaves ==> v.phys.xss == own.xss)
  }

  lemma HostHasStep(c: Caps, u: Vcpu, op: Op, w: Vcpu, x: XState, own: Phys)
    requires Step(c, u, op, w) && HostHas(u, x, own)
    ensures HostHas(w, x, if op.Host? then op.phys else own)
  {
    if op.Run? {
      ExtendedStateOfRun(c, u, op.turn);
    }
  }

  /** And whatever the guests of the runs did, the host always finds the values it set itself. */
  lemma {:induction false} HostSeesItsOwn(c: Caps, tr: seq<Vcpu>, ops: seq<Op>, k: nat)
    requires IsRun(c, tr, ops) && k <= |ops|
    ensures HostHas(tr[k], tr[0].xstate, HostPhys(tr[0].phys, ops[..k]))
  {
    if k > 0 {
      HostSeesItsOwn(c, tr, ops, k - 1);
      HostHasStep(c, tr[k - 1], ops[k - 1], tr[k], tr[0].xstate, HostPhys(tr[0].phys, ops[..k - 1]));
      assert ops[..k][..k - 1] == ops[..k - 1];
    }
  }
}
