/** VMCS ownership and the launch protocol: `setup_vmcs`, `bind`, `unbind` and the entry in
    `inner_run`, for any number of vCPUs on any number of logical processors, against the VMCS states of
    section 24.1 of Intel SDM Vol. 3C. Models `src/vmx/vcpu.rs`. */
module LaunchProtocol {
  import opened Wrappers

  type CpuId = nat
  type VcpuId = nat

  // ---------------------------------------------------------------------------------------------
  // The hardware
  // ---------------------------------------------------------------------------------------------

  /** One VMCS: the processors on which it is active, its launch state, the processor whose state is in
      its host-state area, and the vCPU whose `host_stack_top` HOST_RSP points at. */
  datatype Vmcs = Vmcs(active: set<CpuId>, launched: bool, hostCpu: Option<CpuId>, hostRsp: Option<VcpuId>)

  const FRESH := Vmcs({}, false, None, None)

  datatype Hardware = Hardware(vmcs: map<VcpuId, Vmcs>, current: map<CpuId, VcpuId>) {
    function Of(v: VcpuId): Vmcs { if v in vmcs then vmcs[v] else FRESH }

    /** VMCLEAR: inactive and not current on this processor, launch state clear. */
    function Vmclear(c: CpuId, v: VcpuId): Hardware {
      Hardware(vmcs[v := Of(v).(active := Of(v).active - {c}, launched := false)],
               if c in current && current[c] == v then current - {c} else current)
    }

    /** VMPTRLD: active and current on this processor. */
    function Vmptrld(c: CpuId, v: VcpuId): Hardware {
      Hardware(vmcs[v := Of(v).(active := Of(v).active + {c})], current[c := v])
    }

    /** VMWRITE reaches the current VMCS; without one it fails. */
    function WriteHostState(c: CpuId): Option<Hardware> {
      if c !in current then None
      else Some(this.(vmcs := vmcs[current[c] := Of(current[c]).(hostCpu := Some(c))]))
    }

    function WriteHostRsp(c: CpuId, v: VcpuId): Option<Hardware> {
      if c !in current then None
      else Some(this.(vmcs := vmcs[current[c] := Of(current[c]).(hostRsp := Some(v))]))
    }

    /** VMLAUNCH wants a clear current VMCS, VMRESUME a launched one, and both want control fields that pass the
        checks; otherwise they fail, None, and no entry is attempted. An entry that fails while loading guest state
        leaves the launch state as it was. */
    function Enter(c: CpuId, resume: bool, controlsOk: bool, guestStateOk: bool): Option<Hardware> {
      if c !in current || Of(current[c]).launched != resume || !controlsOk then None
      else if !guestStateOk then Some(this)
      else Some(this.(vmcs := vmcs[current[c] := Of(current[c]).(launched := true)]))
    }
  }

  // ---------------------------------------------------------------------------------------------
  // The code, as steps of the whole system
  // ---------------------------------------------------------------------------------------------

  datatype Op =
    | Setup(cpu: CpuId, vcpu: VcpuId, granted: bool)
    | Bind(cpu: CpuId, vcpu: VcpuId)
    | Unbind(cpu: CpuId, vcpu: VcpuId)
    | Run(cpu: CpuId, vcpu: VcpuId, controlsOk: bool, guestStateOk: bool)

  /** The hardware, the `launched` flags that are true, and whether some call has panicked. */
  datatype System = System(hw: Hardware, launched: set<VcpuId>, panicked: bool)

  const BOOT := System(Hardware(map[], map[]), {}, false)

  /** `bind_to_current_processor`. */
  function DoBind(s: System, c: CpuId, v: VcpuId): System {
    s.(hw := s.hw.Vmptrld(c, v).WriteHostState(c).value)
  }

  /** `setup_vmcs`: clear, bind, write the fields, clear. It does not touch the flag, and when a control
      is not supported it returns early, with the VMCS still current. */
  function DoSetup(s: System, c: CpuId, v: VcpuId, granted: bool): System {
    var s1 := DoBind(s.(hw := s.hw.Vmclear(c, v)), c, v);
    if !granted then s1 else s1.(hw := s1.hw.Vmclear(c, v))
  }

  /** The trait's `unbind`: reset the flag, then clear. */
  function DoUnbind(s: System, c: CpuId, v: VcpuId): System {
    s.(launched := s.launched - {v}, hw := s.hw.Vmclear(c, v))
  }

  /** The hardware at the moment of VMLAUNCH or VMRESUME in `inner_run`. */
  function AtEntry(s: System, c: CpuId, v: VcpuId): Option<Hardware> {
    if v in s.launched then Some(s.hw) else s.hw.WriteHostRsp(c, v)
  }

  /** The entry in `inner_run`: the flag is set before the first VMLAUNCH; a VMfail panics. */
  function DoRun(s: System, c: CpuId, v: VcpuId, controlsOk: bool, guestStateOk: bool): System {
    var s1 := s.(launched := s.launched + {v});
    match AtEntry(s, c, v)
    case None => s1.(panicked := true)
    case Some(hw) =>
      match hw.Enter(c, v in s.launched, controlsOk, guestStateOk)
      case None => s1.(hw := hw, panicked := true)
      case Some(hw2) => s1.(hw := hw2)
  }

  function Step(s: System, op: Op): System {
    if s.panicked then s
    else match op
      case Setup(c, v, ok) => DoSetup(s, c, v, ok)
      case Bind(c, v) => DoBind(s, c, v)
      case Unbind(c, v) => DoUnbind(s, c, v)
      case Run(c, v, controlsOk, ok) => DoRun(s, c, v, controlsOk, ok)
  }

  function Exec(ops: seq<Op>): System
    decreases |ops|
  {
    if ops == [] then BOOT else Step(Exec(ops[..|ops| - 1]), ops[|ops| - 1])
  }

  // ---------------------------------------------------------------------------------------------
  // What the caller must respect, said of the history of calls alone
  // ---------------------------------------------------------------------------------------------

  /** Where each vCPU is bound (a failed setup counts as a bind, a successful one as an unbind); the vCPU most
      recently bound on each processor and not displaced since; the vCPUs that have run since they were bound;
      and those whose first entry since then failed. */
  datatype History =
    History(bound: map<VcpuId, CpuId>, latest: map<CpuId, VcpuId>, ran: set<VcpuId>, stuck: set<VcpuId>)

  const NO_CALLS := History(map[], map[], {}, {})

  function Record(h: History, op: Op): History {
    match op
    case Setup(c, v, ok) =>
      if ok then h.(bound := h.bound - {v}, latest := h.latest - {c})
      else h.(bound := h.bound[v := c], latest := h.latest[c := v])
    case Bind(c, v) => h.(bound := h.bound[v := c], latest := h.latest[c := v])
    case Unbind(c, v) =>
      History(h.bound - {v}, if c in h.latest && h.latest[c] == v then h.latest - {c} else h.latest,
              h.ran - {v}, h.stuck - {v})
    case Run(c, v, _, ok) =>
      h.(ran := h.ran + {v}, stuck := if v !in h.ran && !ok then h.stuck + {v} else h.stuck)
  }

  /** A vCPU is set up while it has not run since it was bound, set up and bound where it is not bound elsewhere,
      unbound where it is bound, and run on a processor on which it was the last to be bound. */
  predicate Respects(h: History, op: Op) {
    match op
    case Setup(c, v, _) => v !in h.ran && (v in h.bound ==> h.bound[v] == c)
    case Bind(c, v) => v in h.bound ==> h.bound[v] == c
    case Unbind(c, v) => v in h.bound && h.bound[v] == c
    case Run(c, v, _, _) => v in h.bound && h.bound[v] == c && c in h.latest && h.latest[c] == v
  }

  function HistoryOf(ops: seq<Op>): History
    decreases |ops|
  {
    if ops == [] then NO_CALLS else Record(HistoryOf(ops[..|ops| - 1]), ops[|ops| - 1])
  }

  predicate AllRespect(ops: seq<Op>)
    decreases |ops|
  {
    ops == [] || (AllRespect(ops[..|ops| - 1]) && Respects(HistoryOf(ops[..|ops| - 1]), ops[|ops| - 1]))
  }

  // ---------------------------------------------------------------------------------------------
  // The invariant
  // ---------------------------------------------------------------------------------------------

  /** What holds of one vCPU between calls. */
  ghost predicate VcpuInv(s: System, h: History, v: VcpuId) {
    var m := s.hw.Of(v);
    && m.active == (if v in h.bound then {h.bound[v]} else {})
    && (v in h.bound ==> m.hostCpu == Some(h.bound[v]))
    && (v in s.launched <==> v in h.ran)
    && (v in h.ran ==> v in h.bound && m.hostRsp == Some(v))
    && (v in h.stuck ==> v in h.ran)
    && (m.launched <==> v in h.ran && v !in h.stuck)
  }

  ghost predicate Inv(s: System, h: History) {
    && s.hw.current == h.latest
    && (forall c :: c in h.latest ==> h.latest[c] in h.bound && h.bound[h.latest[c]] == c)
    && (forall v :: VcpuInv(s, h, v))
  }

  lemma SetupKeepsInv(s: System, h: History, c: CpuId, v: VcpuId, ok: bool)
    requires Inv(s, h) && !s.panicked && Respects(h, Setup(c, v, ok))
    ensures Inv(DoSetup(s, c, v, ok), Record(h, Setup(c, v, ok))) && !DoSetup(s, c, v, ok).panicked
  {
    var t, g := DoSetup(s, c, v, ok), Record(h, Setup(c, v, ok));
    assert VcpuInv(s, h, v);
    assert t.hw.current == g.latest;
    forall u ensures VcpuInv(t, g, u) {
      assert VcpuInv(s, h, u);
    }
  }

  lemma BindKeepsInv(s: System, h: History, c: CpuId, v: VcpuId)
    requires Inv(s, h) && !s.panicked && Respects(h, Bind(c, v))
    ensures Inv(DoBind(s, c, v), Record(h, Bind(c, v))) && !DoBind(s, c, v).panicked
  {
    var t, g := DoBind(s, c, v), Record(h, Bind(c, v));
    assert VcpuInv(s, h, v);
    forall u ensures VcpuInv(t, g, u) {
      assert VcpuInv(s, h, u);
    }
  }

  lemma UnbindKeepsInv(s: System, h: History, c: CpuId, v: VcpuId)
    requires Inv(s, h) && !s.panicked && Respects(h, Unbind(c, v))
    ensures Inv(DoUnbind(s, c, v), Record(h, Unbind(c, v))) && !DoUnbind(s, c, v).panicked
  {
    var t, g := DoUnbind(s, c, v), Record(h, Unbind(c, v));
    assert VcpuInv(s, h, v);
    forall u ensures VcpuInv(t, g, u) {
      assert VcpuInv(s, h, u);
    }
  }

  /** A run panics if and only if the first entry since binding failed or the control fields are refused. */
  lemma RunKeepsInv(s: System, h: History, c: CpuId, v: VcpuId, controlsOk: bool, ok: bool)
    requires Inv(s, h) && !s.panicked && Respects(h, Run(c, v, controlsOk, ok))
    ensures DoRun(s, c, v, controlsOk, ok).panicked <==> v in h.stuck || !controlsOk
    ensures v !in h.stuck && controlsOk ==>
              Inv(DoRun(s, c, v, controlsOk, ok), Record(h, Run(c, v, controlsOk, ok)))
  {
    var t, g := DoRun(s, c, v, controlsOk, ok), Record(h, Run(c, v, controlsOk, ok));
    assert VcpuInv(s, h, v);
    if v !in h.stuck && controlsOk {
      forall u ensures VcpuInv(t, g, u) {
        assert VcpuInv(s, h, u);
      }
    }
  }

  /** In every state that respectful callers can reach, `launched` and the VMCS agree except for a vCPU
      whose first entry failed, and each bound vCPU's VMCS is active on its processor alone. */
  lemma {:induction false} ReachableInv(ops: seq<Op>)
    requires AllRespect(ops) && !Exec(ops).panicked
    ensures Inv(Exec(ops), HistoryOf(ops))
    decreases |ops|
  {
    if ops == [] {
      forall v ensures VcpuInv(BOOT, NO_CALLS, v) {
      }
    } else {
      var init := ops[..|ops| - 1];
      ReachableInv(init);
      var s, h := Exec(init), HistoryOf(init);
      match ops[|ops| - 1]
      case Setup(c, v, ok) => SetupKeepsInv(s, h, c, v, ok);
      case Bind(c, v) => BindKeepsInv(s, h, c, v);
      case Unbind(c, v) => UnbindKeepsInv(s, h, c, v);
      case Run(c, v, controlsOk, ok) => RunKeepsInv(s, h, c, v, controlsOk, ok);
    }
  }

  // ---------------------------------------------------------------------------------------------
  // The theorems
  // ---------------------------------------------------------------------------------------------

  /** What must hold of the hardware when the guest is entered on `c` for `v`. */
  predicate EntryIsRight(hw: Hardware, c: CpuId, v: VcpuId) {
    && c in hw.current && hw.current[c] == v
    && hw.Of(v).active == {c}
    && hw.Of(v).hostCpu == Some(c)
    && hw.Of(v).hostRsp == Some(v)
  }

  /** At every VM entry after any respectful history the current VMCS is that vCPU's own and active on
      no other processor, its host state was sampled on the executing processor, and HOST_RSP is its
      own `host_stack_top`; and the instruction chosen, VMLAUNCH or VMRESUME, suits the launch state if
      and only if the vCPU's first entry since it was bound did not fail. */
  lemma EveryEntryIsRight(ops: seq<Op>, c: CpuId, v: VcpuId)
    requires AllRespect(ops) && !Exec(ops).panicked && Respects(HistoryOf(ops), Run(c, v, true, true))
    ensures AtEntry(Exec(ops), c, v).Some?
    ensures var hw := AtEntry(Exec(ops), c, v).value;
            && EntryIsRight(hw, c, v)
            && (hw.Of(v).launched == (v in Exec(ops).launched) <==> v !in HistoryOf(ops).stuck)
  {
    ReachableInv(ops);
    assert VcpuInv(Exec(ops), HistoryOf(ops), v);
  }

  predicate EntriesSucceed(ops: seq<Op>) {
    forall i :: 0 <= i < |ops| ==> (ops[i].Run? ==> ops[i].controlsOk && ops[i].guestStateOk)
  }

  lemma {:induction false} NothingStuck(ops: seq<Op>)
    requires EntriesSucceed(ops)
    ensures HistoryOf(ops).stuck == {}
    decreases |ops|
  {
    if ops != [] {
      NothingStuck(ops[..|ops| - 1]);
    }
  }

  /** Over any number of setup, bind, run and unbind calls whose entries succeed, nothing panics and the
      flag equals the launch state of every VMCS. */
  lemma {:induction false} LaunchedAgrees(ops: seq<Op>, v: VcpuId)
    requires AllRespect(ops) && EntriesSucceed(ops)
    ensures !Exec(ops).panicked
    ensures v in Exec(ops).launched <==> Exec(ops).hw.Of(v).launched
    decreases |ops|
  {
    NothingStuck(ops);
    if ops != [] {
      var init := ops[..|ops| - 1];
      LaunchedAgrees(init, v);
      NothingStuck(init);
      ReachableInv(init);
      var s, h := Exec(init), HistoryOf(init);
      match ops[|ops| - 1]
      case Setup(c, u, ok) => SetupKeepsInv(s, h, c, u, ok);
      case Bind(c, u) => BindKeepsInv(s, h, c, u);
      case Unbind(c, u) => UnbindKeepsInv(s, h, c, u);
      case Run(c, u, controlsOk, ok) => RunKeepsInv(s, h, c, u, controlsOk, ok);
    }
    ReachableInv(ops);
    assert VcpuInv(Exec(ops), HistoryOf(ops), v);
  }

  /** After a failed first entry the next run panics, whatever the fields are by then, and unbinding first avoids
      it. */
  lemma FailedFirstEntry(ops: seq<Op>, c: CpuId, v: VcpuId, controlsOk: bool, ok: bool)
    requires AllRespect(ops) && !Exec(ops).panicked && Respects(HistoryOf(ops), Run(c, v, true, false))
    requires v !in HistoryOf(ops).ran
    ensures var s := Step(Exec(ops), Run(c, v, true, false));
            && !s.panicked
            && Step(s, Run(c, v, controlsOk, ok)).panicked
            && !Step(Step(Step(s, Unbind(c, v)), Bind(c, v)), Run(c, v, true, ok)).panicked
  {
    ReachableInv(ops);
    var s0, h0 := Exec(ops), HistoryOf(ops);
    assert VcpuInv(s0, h0, v);
    RunKeepsInv(s0, h0, c, v, true, false);
    var s1, h1 := DoRun(s0, c, v, true, false), Record(h0, Run(c, v, true, false));
    RunKeepsInv(s1, h1, c, v, controlsOk, ok);
    UnbindKeepsInv(s1, h1, c, v);
    var s2, h2 := DoUnbind(s1, c, v), Record(h1, Unbind(c, v));
    BindKeepsInv(s2, h2, c, v);
    RunKeepsInv(DoBind(s2, c, v), Record(h2, Bind(c, v)), c, v, true, ok);
  }

  /** The caller's rules are needed: binding a second vCPU on the processor and then running the first
      enters the second one's VMCS; binding on two processors leaves one VMCS active on both; setting up a vCPU
      that has run makes its next run panic, because setup clears the VMCS and not the flag. */
  lemma RulesAreNeeded(c: CpuId, d: CpuId, v: VcpuId, u: VcpuId)
    requires c != d && v != u
    ensures var s := Step(Step(BOOT, Bind(c, v)), Bind(c, u));
            AtEntry(s, c, v).Some? && !EntryIsRight(AtEntry(s, c, v).value, c, v)
    ensures var s := Step(Step(BOOT, Bind(c, v)), Bind(d, v));
            AtEntry(s, d, v).Some? && !EntryIsRight(AtEntry(s, d, v).value, d, v)
    ensures var s := Step(Step(Step(BOOT, Bind(c, v)), Run(c, v, true, true)), Setup(c, v, true));
            !s.panicked && Step(Step(s, Bind(c, v)), Run(c, v, true, true)).panicked
  {
  }

  // ---------------------------------------------------------------------------------------------
  // The methods
  // ---------------------------------------------------------------------------------------------

  /** The vCPU objects of a machine and the processors they run on. */
  class Platform {
    var hw: Hardware
    /** The vCPUs whose `launched` field is true. */
    var launched: set<VcpuId>
    var panicked: bool
    /** The calls made so far, as far as callers must know them. */
    ghost var history: History

    ghost function View(): System
      reads this
    {
      System(hw, launched, panicked)
    }

    /** Until a call panics, the invariant holds. */
    ghost predicate Valid()
      reads this
    {
      panicked || Inv(View(), history)
    }

    constructor ()
      ensures Valid() && View() == BOOT && history == NO_CALLS
    {
      hw := Hardware(map[], map[]);
      launched := {};
      panicked := false;
      history := NO_CALLS;
      new;
      forall v ensures VcpuInv(View(), history, v) {
      }
    }

    /** `bind_to_current_processor`, as `bind` and `setup_vmcs` use it. */
    method BindToCurrentProcessor(c: CpuId, v: VcpuId)
      modifies this`hw
      ensures View() == DoBind(old(View()), c, v)
    {
      hw := hw.Vmptrld(c, v);
      hw := hw.WriteHostState(c).value;
    }

    method Bind(c: CpuId, v: VcpuId)
      requires Valid() && !panicked && Respects(history, Op.Bind(c, v))
      modifies this
      ensures Valid() && !panicked && history == Record(old(history), Op.Bind(c, v))
      ensures View() == DoBind(old(View()), c, v)
      ensures hw.current[c] == v && hw.Of(v).active == {c} && hw.Of(v).hostCpu == Some(c)
    {
      BindToCurrentProcessor(c, v);
      BindKeepsInv(old(View()), history, c, v);
      history := Record(history, Op.Bind(c, v));
      assert VcpuInv(View(), history, v);
    }

    /** A setup leaves the VMCS clear, and inactive unless a control was refused. */
    method SetupVmcs(c: CpuId, v: VcpuId, granted: bool)
      requires Valid() && !panicked && Respects(history, Setup(c, v, granted))
      modifies this
      ensures Valid() && !panicked && history == Record(old(history), Setup(c, v, granted))
      ensures View() == DoSetup(old(View()), c, v, granted)
      ensures !hw.Of(v).launched && v !in launched && hw.Of(v).active == if granted then {} else {c}
    {
      hw := hw.Vmclear(c, v);
      BindToCurrentProcessor(c, v);
      if granted {
        hw := hw.Vmclear(c, v);
      }
      SetupKeepsInv(old(View()), history, c, v, granted);
      history := Record(history, Setup(c, v, granted));
      assert VcpuInv(View(), history, v);
    }

    method Unbind(c: CpuId, v: VcpuId)
      requires Valid() && !panicked && Respects(history, Op.Unbind(c, v))
      modifies this
      ensures Valid() && !panicked && history == Record(old(history), Op.Unbind(c, v))
      ensures View() == DoUnbind(old(View()), c, v)
      ensures !hw.Of(v).launched && v !in launched && hw.Of(v).active == {}
    {
      launched := launched - {v};
      hw := hw.Vmclear(c, v);
      UnbindKeepsInv(old(View()), history, c, v);
      history := Record(history, Op.Unbind(c, v));
      assert VcpuInv(View(), history, v);
    }

    /** The guest is entered through its own VMCS, active here alone, with this processor's host state and its
        own HOST_RSP; the call panics exactly when the first entry since binding failed or the control fields are
        refused. */
    method EnterGuest(c: CpuId, v: VcpuId, controlsOk: bool, guestStateOk: bool)
      requires Valid() && !panicked && Respects(history, Run(c, v, controlsOk, guestStateOk))
      modifies this
      ensures Valid() && (panicked <==> v in old(history).stuck || !controlsOk)
      ensures View() == DoRun(old(View()), c, v, controlsOk, guestStateOk)
      ensures AtEntry(old(View()), c, v).Some? && EntryIsRight(AtEntry(old(View()), c, v).value, c, v)
      ensures !panicked ==> history == Record(old(history), Run(c, v, controlsOk, guestStateOk))
    {
      assert VcpuInv(View(), history, v);
      RunKeepsInv(View(), history, c, v, controlsOk, guestStateOk);
      var r;
      if v in launched {
        r := hw.Enter(c, true, controlsOk, guestStateOk);
      } else {
        launched := launched + {v};
        r := hw.WriteHostRsp(c, v);
        if r.Some? {
          hw := r.value;
          r := hw.Enter(c, false, controlsOk, guestStateOk);
        }
      }
      if r.None? {
        panicked := true;
      } else {
        hw := r.value;
        history := Record(history, Run(c, v, controlsOk, guestStateOk));
        assert View() == DoRun(old(View()), c, v, controlsOk, guestStateOk);
      }
    }
  }
}
