/** The runs of one vCPU and the launch protocol of the whole machine are about the same calls: every run, with
    whatever other vCPUs do meanwhile, is a history of the protocol, entered through the right VMCS. */
module LaunchRuns {
  import opened Processor
  import opened VcpuModel
  import opened VcpuRuns
  import opened EventRuns
  import opened ModeRuns
  import L = LaunchProtocol

  /** The protocol's call for one operation, from state `u` of vCPU `id`, last bound to `cpu`. */
  function CallsOf(id: nat, cpu: nat, u: Vcpu, op: Op): seq<L.Op> {
    match op
    case Run(t) => [L.Run(cpu, id, ControlsAccepted(AtEntry(u).vmcs), t.entered)]
    case Unbind => [L.Unbind(cpu, id)]
    case Bind(d) => [L.Bind(d, id)]
    case Other(call) => [call]
    case _ => []
  }

  /** The history after the first `k` operations, and where the vCPU was last bound by then. */
  function After(calls: seq<L.Op>, id: nat, cpu: nat, tr: seq<Vcpu>, ops: seq<Op>, k: nat): (seq<L.Op>, nat)
    requires |tr| == |ops| + 1 && k <= |ops|
    decreases k
  {
    if k == 0 then (calls, cpu)
    else
      var (before, here) := After(calls, id, cpu, tr, ops, k - 1);
      var op := ops[k - 1];
      (before + CallsOf(id, here, tr[k - 1], op), if op.Bind? then op.cpu else here)
  }

  /** The calls respect the rules, the machine has not panicked, and flag and launch state are those of `v`. */
  ghost predicate Joined(calls: seq<L.Op>, id: nat, v: Vcpu) {
    var s := L.Exec(calls);
    && L.AllRespect(calls) && !s.panicked
    && (id in s.launched <==> v.launched) && s.hw.Of(id).launched == v.vmxLaunched
  }

  /** The operation respects the rules after these calls, and a call on another vCPU does not panic. */
  predicate Allowed(calls: seq<L.Op>, id: nat, cpu: nat, u: Vcpu, op: Op) {
    var h := L.HistoryOf(calls);
    && (forall i :: 0 <= i < |CallsOf(id, cpu, u, op)| ==> L.Respects(h, CallsOf(id, cpu, u, op)[i]))
    && (op.Other? ==>
          op.call.vcpu != id && (op.call.Run? ==> op.call.controlsOk && op.call.vcpu !in h.stuck))
  }

  ghost predicate AllAllowed(calls: seq<L.Op>, id: nat, cpu: nat, tr: seq<Vcpu>, ops: seq<Op>)
    requires |tr| == |ops| + 1
  {
    forall k :: 0 <= k < |ops| ==>
      var (before, here) := After(calls, id, cpu, tr, ops, k); Allowed(before, id, here, tr[k], ops[k])
  }

  lemma Snoc(calls: seq<L.Op>, op: L.Op)
    ensures L.Exec(calls + [op]) == L.Step(L.Exec(calls), op)
    ensures L.HistoryOf(calls + [op]) == L.Record(L.HistoryOf(calls), op)
    ensures L.AllRespect(calls + [op]) <==> L.AllRespect(calls) && L.Respects(L.HistoryOf(calls), op)
  {
    assert (calls + [op])[..|calls|] == calls;
  }

  /** The protocol panics on a run exactly when `inner_run` meets a VMfail. */
  lemma RunAgrees(calls: seq<L.Op>, id: nat, cpu: nat, u: Vcpu, ok: bool)
    requires Joined(calls, id, u) && L.Respects(L.HistoryOf(calls), L.Run(cpu, id, true, true))
    ensures var call := L.Run(cpu, id, ControlsAccepted(AtEntry(u).vmcs), ok);
            && (L.Step(L.Exec(calls), call).panicked <==> !CanEnter(u))
            && (LaunchOk(u) <==> id !in L.HistoryOf(calls).stuck)
            && (CanEnter(u) ==>
                  Joined(calls + [call], id, u.(launched := true, vmxLaunched := u.vmxLaunched || ok)))
  {
    L.ReachableInv(calls);
    var s, h := L.Exec(calls), L.HistoryOf(calls);
    var call := L.Run(cpu, id, ControlsAccepted(AtEntry(u).vmcs), ok);
    assert L.VcpuInv(s, h, id);
    L.RunKeepsInv(s, h, cpu, id, call.controlsOk, ok);
    Snoc(calls, call);
  }

  lemma OtherAgrees(calls: seq<L.Op>, id: nat, u: Vcpu, call: L.Op)
    requires Joined(calls, id, u) && L.Respects(L.HistoryOf(calls), call) && call.vcpu != id
    requires call.Run? ==> call.controlsOk && call.vcpu !in L.HistoryOf(calls).stuck
    ensures Joined(calls + [call], id, u)
  {
    L.ReachableInv(calls);
    var s, h := L.Exec(calls), L.HistoryOf(calls);
    assert L.VcpuInv(s, h, call.vcpu);
    if call.Run? {
      L.RunKeepsInv(s, h, call.cpu, call.vcpu, call.controlsOk, call.guestStateOk);
    }
    Snoc(calls, call);
  }

  lemma StepAgrees(c: Caps, calls: seq<L.Op>, id: nat, cpu: nat, u: Vcpu, op: Op, w: Vcpu)
    requires Joined(calls, id, u) && Step(c, u, op, w) && Allowed(calls, id, cpu, u, op)
    ensures Joined(calls + CallsOf(id, cpu, u, op), id, w)
  {
    match op
    case Run(t) =>
      EventsOfRun(c, u, t);
      assert L.Respects(L.HistoryOf(calls), CallsOf(id, cpu, u, op)[0]);
      RunAgrees(calls, id, cpu, u, t.entered);
    case Unbind =>
      assert L.Respects(L.HistoryOf(calls), CallsOf(id, cpu, u, op)[0]);
      Snoc(calls, L.Unbind(cpu, id));
    case Bind(d) =>
      assert L.Respects(L.HistoryOf(calls), CallsOf(id, cpu, u, op)[0]);
      Snoc(calls, L.Bind(d, id));
    case Other(call) =>
      assert L.Respects(L.HistoryOf(calls), CallsOf(id, cpu, u, op)[0]);
      OtherAgrees(calls, id, u, call);
    case _ => assert calls + [] == calls;
  }

  /** Every run of a vCPU, interleaved with respectful calls on other vCPUs on any processors, is a respectful
      history of the whole machine, in which nothing panics and the two launch flags are the protocol's. */
  lemma {:induction false} RunsFollowProtocol(c: Caps, calls: seq<L.Op>, id: nat, cpu: nat,
                                              tr: seq<Vcpu>, ops: seq<Op>, k: nat)
    requires IsRun(c, tr, ops) && Joined(calls, id, tr[0]) && AllAllowed(calls, id, cpu, tr, ops) && k <= |ops|
    ensures Joined(After(calls, id, cpu, tr, ops, k).0, id, tr[k])
    decreases k
  {
    if k > 0 {
      var (before, here) := After(calls, id, cpu, tr, ops, k - 1);
      RunsFollowProtocol(c, calls, id, cpu, tr, ops, k - 1);
      StepAgrees(c, before, id, here, tr[k - 1], ops[k - 1], tr[k]);
    }
  }

  /** So wherever a run may call `inner_run` next, VM entry is through the vCPU's own VMCS, active on its processor
      alone, with that processor's host state and its own HOST_RSP; and the call panics on a VMfail exactly when
      the first entry since the last binding failed, or it injects an event that is not in order, or the control
      fields were inconsistent from the start. */
  lemma EveryRunEntersRight(c: Caps, calls: seq<L.Op>, id: nat, cpu: nat, tr: seq<Vcpu>, ops: seq<Op>, k: nat)
    requires IsRun(c, tr, ops) && Joined(calls, id, tr[0]) && AllAllowed(calls, id, cpu, tr, ops) && k <= |ops|
    requires !tr[0].vmcs.inject.IsValid()
    requires var (all, here) := After(calls, id, cpu, tr, ops, k);
             L.Respects(L.HistoryOf(all), L.Run(here, id, true, true))
    ensures var (all, here) := After(calls, id, cpu, tr, ops, k);
            var v := tr[k];
            && L.AtEntry(L.Exec(all), here, id).Some?
            && L.EntryIsRight(L.AtEntry(L.Exec(all), here, id).value, here, id)
            && (!CanEnter(v) <==>
                || id in L.HistoryOf(all).stuck
                || (Injects(v) && !InOrder(v.vmcs, v.pending[0]))
                || !Consistent(tr[0].vmcs.controls))
  {
    RunsFollowProtocol(c, calls, id, cpu, tr, ops, k);
    var (all, here) := After(calls, id, cpu, tr, ops, k);
    L.EveryEntryIsRight(all, here, id);
    RunAgrees(all, id, here, tr[k], true);
    FieldRefusedIff(c, tr, ops, k);
  }

  /** Setup makes them consistent, so from setup on the last case does not arise. */
  lemma SetupIsConsistent(c: Caps, f: Features, v: Vcpu)
    requires CapsOk(c) && JustSetUp(c, f, v)
    ensures Consistent(v.vmcs.controls)
  {
    SetupIsLegal(c, f, v.vmcs.controls);
    LegalIsEffective(c, f, v.vmcs.controls);
  }
}
