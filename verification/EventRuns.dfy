/** Event injection over runs: what the processor finds in the VM-entry interruption field, entry by entry,
    compared with what was queued. Conservation, order and progress. */
module EventRuns {
  import opened Wrappers
  import opened Bits
  import opened ControlRegisters
  import opened Interruption
  import opened Processor
  import opened Registers
  import opened VcpuModel
  import opened VcpuRuns

  // ---------------------------------------------------------------------------------------------
  // What the processor sees
  // ---------------------------------------------------------------------------------------------

  /** A valid entry field, with the error code and instruction length of the last exit beside it. */
  datatype Delivery = Delivery(field: EntryFields, exitErr: U32, exitLen: U32)

  /** The delivery is that of event `e`. */
  predicate Is(d: Delivery, e: Event) { Announces(d.field, e.vector, e.err, d.exitErr, d.exitLen) }

  /** The delivery in the entry field, if the field is valid. */
  function InField(m: Vmcs): (r: seq<Delivery>)
    ensures |r| == if m.inject.IsValid() then 1 else 0
  {
    if m.inject.IsValid() then [Delivery(m.inject, m.exitErr, m.exitLen)] else []
  }

  /** What a run from `u` shows the processor at its VM entry. */
  function Seen(u: Vcpu): seq<Delivery> { InField(AtEntry(u).vmcs) }

  /** Interrupts are enabled (bit 9 of RFLAGS) and nothing blocks them. */
  predicate Open(m: Vmcs) { 9 in m.rflags && m.interruptibility == {} }

  /** A run injects exactly when the head of the queue is an exception, or interrupts are open. */
  lemma InjectsIff(u: Vcpu)
    ensures Injects(u) <==> u.pending != [] && (u.pending[0].vector < 32 || Open(u.vmcs))
  {
  }

  /** The run shows again what an earlier entry failed to take. */
  predicate Replays(u: Vcpu) { u.vmcs.inject.IsValid() && !Injects(u) }

  /** The run writes an event over one that no entry has taken. */
  predicate Overwrites(u: Vcpu) { u.vmcs.inject.IsValid() && Injects(u) }

  /** One run: the field shows the head of the queue exactly when the run injects and is otherwise left
      alone; the head leaves the queue exactly then; and the field is afterwards what it was at the entry if
      the entry failed, and not valid if it succeeded. */
  lemma EntryFieldOfRun(c: Caps, u: Vcpu, t: Turn)
    requires Runs(u, t)
    ensures Injects(u) ==> |Seen(u)| == 1 && Is(Seen(u)[0], u.pending[0])
    ensures !Injects(u) ==> Seen(u) == InField(u.vmcs)
    ensures var w := InnerRun(c, u, t).0;
            && w.pending == (if Injects(u) then u.pending[1..] else u.pending)
            && InField(w.vmcs) == (if t.entered then [] else Seen(u))
  {
    EventsOfRun(c, u, t);
    SeenAtEntry(u);
  }

  lemma SeenAtEntry(u: Vcpu)
    ensures Injects(u) ==> |Seen(u)| == 1 && Is(Seen(u)[0], u.pending[0])
    ensures !Injects(u) ==> Seen(u) == InField(u.vmcs)
  {
    SwitchesKeep(InjectPending(u));
    if Injects(u) {
      var e := u.pending[0];
      InjectAnnounces(u.vmcs.inject, e.vector, e.err, u.vmcs.exitErr, u.vmcs.exitLen);
    }
  }

  // ---------------------------------------------------------------------------------------------
  // The log of a run
  // ---------------------------------------------------------------------------------------------

  /** What an observer of the queue and of the VM entries writes down: the events queued, the deliveries
      shown at VM entries, those shown at entries that succeeded, and how often a run replayed or overwrote. */
  datatype EventLog = EventLog(queued: seq<Event>, shown: seq<Delivery>, taken: seq<Delivery>,
                               replays: nat, overwrites: nat)

  function LogStep(l: EventLog, u: Vcpu, op: Op): EventLog {
    match op
    case Queue(e) => l.(queued := l.queued + [e])
    case Run(t) => EventLog(l.queued, l.shown + Seen(u), if t.entered then l.taken + Seen(u) else l.taken,
                            l.replays + (if Replays(u) then 1 else 0),
                            l.overwrites + (if Overwrites(u) then 1 else 0))
    case _ => l
  }

  function FreshLog(v: Vcpu): EventLog { EventLog(v.pending, [], [], 0, 0) }

  function LogOf(tr: seq<Vcpu>, ops: seq<Op>): EventLog
    requires |tr| == |ops| + 1
    decreases |ops|
  {
    if ops == [] then FreshLog(tr[0])
    else LogStep(LogOf(tr[..|ops|], ops[..|ops| - 1]), tr[|ops| - 1], ops[|ops| - 1])
  }

  /** The deliveries are those of the first events, one for one and in order, and `rest` is what follows. */
  predicate OneForOne(ds: seq<Delivery>, es: seq<Event>, rest: seq<Event>) {
    && |ds| + |rest| == |es|
    && rest == es[|ds|..]
    && forall j :: 0 <= j < |ds| ==> Is(ds[j], es[j])
  }

  /** What holds between operations. */
  predicate LogInv(l: EventLog, v: Vcpu) {
    var held := l.taken + InField(v.vmcs);
    && |l.shown| + |v.pending| == |l.queued| + l.replays
    && |held| + l.overwrites + |v.pending| == |l.queued|
    && (l.replays == 0 ==> OneForOne(l.shown, l.queued, v.pending))
    && (l.overwrites == 0 ==> OneForOne(held, l.queued, v.pending))
  }

  lemma OneMoreQueued(ds: seq<Delivery>, es: seq<Event>, rest: seq<Event>, e: Event)
    requires OneForOne(ds, es, rest)
    ensures OneForOne(ds, es + [e], rest + [e])
  {
  }

  lemma OneMoreDelivered(ds: seq<Delivery>, es: seq<Event>, rest: seq<Event>, d: Delivery)
    requires OneForOne(ds, es, rest) && rest != [] && Is(d, rest[0])
    ensures OneForOne(ds + [d], es, rest[1..])
  {
  }

  /** One more showing keeps the account of the deliveries shown. */
  lemma ShownOfRun(shown: seq<Delivery>, queued: seq<Event>, u: Vcpu, replays: nat)
    requires |shown| + |u.pending| == |queued| + replays && (replays == 0 ==> OneForOne(shown, queued, u.pending))
    ensures var rest := if Injects(u) then u.pending[1..] else u.pending;
            var n := replays + if Replays(u) then 1 else 0;
            && |shown + Seen(u)| + |rest| == |queued| + n
            && (n == 0 ==> OneForOne(shown + Seen(u), queued, rest))
  {
    SeenAtEntry(u);
    if Injects(u) && replays == 0 {
      assert Seen(u) == [Seen(u)[0]];
      OneMoreDelivered(shown, queued, u.pending, Seen(u)[0]);
    }
  }

  /** And that of the deliveries taken or still in the field. */
  lemma HeldOfRun(taken: seq<Delivery>, queued: seq<Event>, u: Vcpu, overwrites: nat)
    requires |taken + InField(u.vmcs)| + overwrites + |u.pending| == |queued|
    requires overwrites == 0 ==> OneForOne(taken + InField(u.vmcs), queued, u.pending)
    ensures var rest := if Injects(u) then u.pending[1..] else u.pending;
            var n := overwrites + if Overwrites(u) then 1 else 0;
            && |taken + Seen(u)| + n + |rest| == |queued|
            && (n == 0 ==> OneForOne(taken + Seen(u), queued, rest))
  {
    SeenAtEntry(u);
    if Injects(u) && overwrites == 0 && !Overwrites(u) {
      assert taken + InField(u.vmcs) == taken && Seen(u) == [Seen(u)[0]];
      OneMoreDelivered(taken, queued, u.pending, Seen(u)[0]);
    }
  }

  lemma LogOfRun(c: Caps, l: EventLog, u: Vcpu, t: Turn)
    requires Runs(u, t) && LogInv(l, u)
    ensures LogInv(LogStep(l, u, Run(t)), InnerRun(c, u, t).0)
  {
    EntryFieldOfRun(c, u, t);
    var w, g := InnerRun(c, u, t).0, LogStep(l, u, Run(t));
    assert g.taken + InField(w.vmcs) == l.taken + Seen(u);
    ShownOfRun(l.shown, l.queued, u, l.replays);
    HeldOfRun(l.taken, l.queued, u, l.overwrites);
  }

  /** Every operation keeps the log's invariant. */
  lemma LogOfStep(c: Caps, l: EventLog, u: Vcpu, op: Op, w: Vcpu)
    requires Step(c, u, op, w) && LogInv(l, u)
    ensures LogInv(LogStep(l, u, op), w)
  {
    match op
    case Run(t) => LogOfRun(c, l, u, t);
    case Queue(e) =>
      assert InField(w.vmcs) == InField(u.vmcs);
      if l.replays == 0 {
        OneMoreQueued(l.shown, l.queued, u.pending, e);
      }
      if l.overwrites == 0 {
        OneMoreQueued(l.taken + InField(u.vmcs), l.queued, u.pending, e);
      }
    case _ => assert InField(w.vmcs) == InField(u.vmcs);
  }

  lemma {:induction false} LogOverRun(c: Caps, tr: seq<Vcpu>, ops: seq<Op>)
    requires IsRun(c, tr, ops) && !tr[0].vmcs.inject.IsValid()
    ensures LogInv(LogOf(tr, ops), tr[|ops|])
    decreases |ops|
  {
    if ops != [] {
      var k := |ops| - 1;
      LogOverRun(c, tr[..k + 1], ops[..k]);
      LogOfStep(c, LogOf(tr[..k + 1], ops[..k]), tr[k], ops[k], tr[k + 1]);
    }
  }

  function Queued(ops: seq<Op>): seq<Event> {
    if ops == [] then []
    else Queued(ops[..|ops| - 1]) + if ops[|ops| - 1].Queue? then [ops[|ops| - 1].event] else []
  }

  predicate NoReplay(tr: seq<Vcpu>, ops: seq<Op>)
    requires |tr| == |ops| + 1
  {
    forall i :: 0 <= i < |ops| ==> (ops[i].Run? ==> !Replays(tr[i]))
  }

  predicate NoOverwrite(tr: seq<Vcpu>, ops: seq<Op>)
    requires |tr| == |ops| + 1
  {
    forall i :: 0 <= i < |ops| ==> (ops[i].Run? ==> !Overwrites(tr[i]))
  }

  /** What the log's queue and counters mean. */
  lemma {:induction false} LogQueue(tr: seq<Vcpu>, ops: seq<Op>)
    requires |tr| == |ops| + 1
    ensures LogOf(tr, ops).queued == tr[0].pending + Queued(ops)
    decreases |ops|
  {
    if ops != [] {
      LogQueue(tr[..|ops|], ops[..|ops| - 1]);
    }
  }

  lemma NoReplayExtends(tr: seq<Vcpu>, ops: seq<Op>)
    requires |tr| == |ops| + 1 && ops != []
    ensures var k := |ops| - 1;
            NoReplay(tr, ops) <==> NoReplay(tr[..k + 1], ops[..k]) && (ops[k].Run? ==> !Replays(tr[k]))
  {
    var k := |ops| - 1;
    assert forall i :: 0 <= i < k ==> ops[i] == ops[..k][i] && tr[i] == tr[..k + 1][i];
  }

  lemma {:induction false} LogReplays(tr: seq<Vcpu>, ops: seq<Op>)
    requires |tr| == |ops| + 1
    ensures LogOf(tr, ops).replays == 0 <==> NoReplay(tr, ops)
    decreases |ops|
  {
    if ops != [] {
      var k := |ops| - 1;
      LogReplays(tr[..k + 1], ops[..k]);
      NoReplayExtends(tr, ops);
    }
  }

  lemma NoOverwriteExtends(tr: seq<Vcpu>, ops: seq<Op>)
    requires |tr| == |ops| + 1 && ops != []
    ensures var k := |ops| - 1;
            NoOverwrite(tr, ops) <==> NoOverwrite(tr[..k + 1], ops[..k]) && (ops[k].Run? ==> !Overwrites(tr[k]))
  {
    var k := |ops| - 1;
    assert forall i :: 0 <= i < k ==> ops[i] == ops[..k][i] && tr[i] == tr[..k + 1][i];
  }

  lemma {:induction false} LogOverwrites(tr: seq<Vcpu>, ops: seq<Op>)
    requires |tr| == |ops| + 1
    ensures LogOf(tr, ops).overwrites == 0 <==> NoOverwrite(tr, ops)
    decreases |ops|
  {
    if ops != [] {
      var k := |ops| - 1;
      LogOverwrites(tr[..k + 1], ops[..k]);
      NoOverwriteExtends(tr, ops);
    }
  }

  // ---------------------------------------------------------------------------------------------
  // Conservation and order
  // ---------------------------------------------------------------------------------------------

  /** Over every run, failed entries included. The deliveries shown at VM entries are the queued events, one
      for one and in order, followed by what is pending, if and only if no run replays. The deliveries taken
      by successful entries, with the one still in the field, are so if and only if no run overwrites. */
  lemma EventsConserved(c: Caps, tr: seq<Vcpu>, ops: seq<Op>)
    requires IsRun(c, tr, ops) && !tr[0].vmcs.inject.IsValid()
    ensures var l, end, all := LogOf(tr, ops), tr[|ops|], tr[0].pending + Queued(ops);
            && (OneForOne(l.shown, all, end.pending) <==> NoReplay(tr, ops))
            && (OneForOne(l.taken + InField(end.vmcs), all, end.pending) <==> NoOverwrite(tr, ops))
  {
    LogOverRun(c, tr, ops);
    LogQueue(tr, ops);
    LogReplays(tr, ops);
    LogOverwrites(tr, ops);
  }

  /** The last run before `k` failed to enter with a valid field. */
  predicate LastRunFailed(tr: seq<Vcpu>, ops: seq<Op>, k: nat)
    requires |tr| == |ops| + 1 && k <= |ops|
  {
    && k > 0
    && if ops[k - 1].Run? then !ops[k - 1].turn.entered && Seen(tr[k - 1]) != [] else LastRunFailed(tr, ops, k - 1)
  }

  lemma FieldOfStep(c: Caps, u: Vcpu, op: Op, w: Vcpu)
    requires Step(c, u, op, w)
    ensures w.vmcs.inject.IsValid() <==>
            if op.Run? then !op.turn.entered && Seen(u) != [] else u.vmcs.inject.IsValid()
  {
    if op.Run? {
      EntryFieldOfRun(c, u, op.turn);
    }
  }

  /** The field is valid between operations if and only if the last run failed to enter with a valid field,
      so a run replays or overwrites exactly when it comes next after such a run. */
  lemma {:induction false} FieldValidIff(c: Caps, tr: seq<Vcpu>, ops: seq<Op>, k: nat)
    requires IsRun(c, tr, ops) && !tr[0].vmcs.inject.IsValid() && k <= |ops|
    ensures tr[k].vmcs.inject.IsValid() <==> LastRunFailed(tr, ops, k)
    ensures Replays(tr[k]) || Overwrites(tr[k]) <==> LastRunFailed(tr, ops, k)
    decreases k
  {
    if k > 0 {
      FieldValidIff(c, tr, ops, k - 1);
      FieldOfStep(c, tr[k - 1], ops[k - 1], tr[k]);
    }
  }

  /** After an entry that failed on guest state with an event in the field, the next run does not meet a VMfail
      unless this was the first entry; it overwrites that event or shows it again, according to what is at the head
      of the queue by then, and what it shows again is as acceptable as before. */
  lemma FailedEntryThenRun(c: Caps, u: Vcpu, t: Turn)
    requires Runs(u, t) && !t.entered && Seen(u) != []
    ensures var (w, o) := InnerRun(c, u, t);
            && o == NotHandled && (LaunchOk(w) <==> u.vmxLaunched) && InField(w.vmcs) == Seen(u)
            && if Injects(w) then Overwrites(w) else Replays(w) && FieldAccepted(AtEntry(w).vmcs)
  {
    EntryFieldOfRun(c, u, t);
    EventsOfRun(c, u, t);
    SwitchesKeep(InjectPending(InnerRun(c, u, t).0));
  }

  predicate EntriesSucceed(ops: seq<Op>) {
    forall i :: 0 <= i < |ops| ==> (ops[i].Run? ==> ops[i].turn.entered)
  }

  /** Over runs whose entries succeed the field is never valid between runs, so no event is ever written
      over one that has not been taken, or shown again. */
  lemma NeverOverwritten(c: Caps, tr: seq<Vcpu>, ops: seq<Op>)
    requires IsRun(c, tr, ops) && !tr[0].vmcs.inject.IsValid() && EntriesSucceed(ops)
    ensures forall k :: 0 <= k <= |ops| ==> !tr[k].vmcs.inject.IsValid()
    ensures NoReplay(tr, ops) && NoOverwrite(tr, ops)
  {
    forall k | 0 <= k <= |ops| ensures !tr[k].vmcs.inject.IsValid() {
      FieldValidIff(c, tr, ops, k);
      NoneFailed(tr, ops, k);
    }
  }

  lemma {:induction false} NoneFailed(tr: seq<Vcpu>, ops: seq<Op>, k: nat)
    requires |tr| == |ops| + 1 && k <= |ops| && EntriesSucceed(ops)
    ensures !LastRunFailed(tr, ops, k)
    decreases k
  {
    if k > 0 {
      NoneFailed(tr, ops, k - 1);
    }
  }

  lemma {:induction false} ShownIsTaken(tr: seq<Vcpu>, ops: seq<Op>)
    requires |tr| == |ops| + 1 && EntriesSucceed(ops)
    ensures LogOf(tr, ops).shown == LogOf(tr, ops).taken
    decreases |ops|
  {
    if ops != [] {
      ShownIsTaken(tr[..|ops|], ops[..|ops| - 1]);
    }
  }

  /** Hence every queued event that is no longer pending was shown at exactly one VM entry and taken by it,
      in the order of queueing, and nothing else was ever in the field. */
  lemma EachEventTakenOnce(c: Caps, tr: seq<Vcpu>, ops: seq<Op>)
    requires IsRun(c, tr, ops) && !tr[0].vmcs.inject.IsValid() && EntriesSucceed(ops)
    ensures var l := LogOf(tr, ops);
            && l.shown == l.taken
            && OneForOne(l.taken, tr[0].pending + Queued(ops), tr[|ops|].pending)
  {
    NeverOverwritten(c, tr, ops);
    EventsConserved(c, tr, ops);
    ShownIsTaken(tr, ops);
  }

  // ---------------------------------------------------------------------------------------------
  // Which entries are refused because of the event
  // ---------------------------------------------------------------------------------------------

  /** VM entry takes the event, injected into a guest in state `m`. */
  predicate InOrder(m: Vmcs, e: Event) {
    Injectable(e.vector, e.err, m.exitErr, m.exitLen, PE in m.cr0.actual)
  }

  /** Between operations: an event left in the field was in order when it was written, and interrupts were open if
      it is one; nothing that either depends on has changed since. */
  predicate FieldInv(m: Vmcs) {
    && FieldAccepted(m)
    && (m.inject.IsValid() && m.inject.info / 0x100 % 8 == 0 ==>
          RFLAGS_IF in m.rflags && BY_STI !in m.interruptibility && BY_MOV_SS !in m.interruptibility)
  }

  /** The entry field is an NMI. */
  predicate NmiInField(m: Vmcs) { m.inject.IsValid() && m.inject.info / 0x100 % 8 == 2 }

  /** What is written: its type field, whether VM entry takes it, and that interrupts are open for interrupts. */
  lemma InjectedField(u: Vcpu)
    requires Injects(u)
    ensures var m := AtEntry(u).vmcs;
            && m.cr0 == u.vmcs.cr0 && m.rflags == u.vmcs.rflags && m.interruptibility == u.vmcs.interruptibility
            && (FieldAccepted(m) <==> InOrder(u.vmcs, u.pending[0]))
            && (m.inject.info / 0x100 % 8 == 0 ==> Open(u.vmcs))
            && m.inject.IsValid() && (NmiInField(m) <==> u.pending[0].vector == 2)
  {
    SwitchesKeep(InjectPending(u));
    var e := u.pending[0];
    InjectAcceptedIff(u.vmcs.inject, e.vector, e.err, u.vmcs.exitErr, u.vmcs.exitLen, PE in u.vmcs.cr0.actual);
    InjectAnnounces(u.vmcs.inject, e.vector, e.err, u.vmcs.exitErr, u.vmcs.exitLen);
  }

  lemma FieldLeftAlone(u: Vcpu)
    requires !Injects(u)
    ensures var m, n := u.vmcs, AtEntry(u).vmcs;
            && n.inject == m.inject && n.cr0 == m.cr0
            && n.rflags == m.rflags && n.interruptibility == m.interruptibility
  {
    SwitchesKeep(InjectPending(u));
  }

  /** At the entry: VM entry takes the field unless the run injects an event that is not in order, and passes the
      checks on interruptibility unless an NMI is in the field while MOV SS blocks. */
  lemma EntryOfField(u: Vcpu)
    requires FieldInv(u.vmcs)
    ensures var m := AtEntry(u).vmcs;
            && (FieldAccepted(m) <==> (Injects(u) ==> InOrder(u.vmcs, u.pending[0])))
            && (InterruptibilityAccepts(m) <==> !(NmiInField(m) && BY_MOV_SS in u.vmcs.interruptibility))
            && (FieldAccepted(m) ==> FieldInv(m))
  {
    if Injects(u) {
      InjectedField(u);
    } else {
      FieldLeftAlone(u);
    }
  }

  lemma FieldInvStep(c: Caps, u: Vcpu, op: Op, w: Vcpu)
    requires Step(c, u, op, w) && FieldInv(u.vmcs)
    ensures FieldInv(w.vmcs)
  {
    if op.Run? {
      EntryOfField(u);
      EventsOfRun(c, u, op.turn);
    }
  }

  lemma {:induction false} FieldInvOverRun(c: Caps, tr: seq<Vcpu>, ops: seq<Op>, k: nat)
    requires IsRun(c, tr, ops) && !tr[0].vmcs.inject.IsValid() && k <= |ops|
    ensures FieldInv(tr[k].vmcs)
    decreases k
  {
    if k > 0 {
      FieldInvOverRun(c, tr, ops, k - 1);
      FieldInvStep(c, tr[k - 1], ops[k - 1], tr[k]);
    }
  }

  /** Over every run, replays included: given control fields that agree, as setup makes them, the next VM entry is
      refused with a VMfail if and only if flag and launch state differ or it injects an event that is not in order.
      A replay is never refused. */
  lemma FieldRefusedIff(c: Caps, tr: seq<Vcpu>, ops: seq<Op>, k: nat)
    requires IsRun(c, tr, ops) && !tr[0].vmcs.inject.IsValid() && k <= |ops|
    ensures var v := tr[k];
            CanEnter(v) <==>
            && LaunchOk(v) && Consistent(tr[0].vmcs.controls)
            && (Injects(v) ==> InOrder(v.vmcs, v.pending[0]))
  {
    FieldInvOverRun(c, tr, ops, k);
    EntryOfField(tr[k]);
    ControlsOverRun(c, tr, ops, k);
    FixedIsConsistent(tr[0].vmcs.controls, tr[k].vmcs.controls);
    EntryFixes(tr[k]);
  }

  /** So queueing such an event is enough to make a run panic, once the event is at the head. */
  lemma RefusedEventPanics(c: Caps, u: Vcpu, t: Turn)
    requires |u.regs| == COUNT && TurnOk(AtEntry(u).vmcs, t) && Injects(u) && !InOrder(u.vmcs, u.pending[0])
    ensures InnerRun(c, u, t).1 == Panicked
  {
    InjectedField(u);
  }

  /** Right after setup every exception with an error code is such an event: the guest is in real mode. */
  lemma ErrorCodeAfterSetupPanics(c: Caps, f: Features, u: Vcpu, t: Turn)
    requires JustSetUp(c, f, u) && TurnOk(AtEntry(u).vmcs, t)
    requires u.pending != [] && u.pending[0].vector in {8, 10, 11, 12, 13, 14, 17}
    ensures InnerRun(c, u, t).1 == Panicked
  {
    assert PE !in u.vmcs.cr0.actual;
    RefusedEventPanics(c, u, t);
  }

  /** And it passes the checks on interruptibility, whatever is queued, if and only if it does not show an NMI
      while MOV SS blocks: the code treats every vector below 32 as always deliverable. */
  lemma InjectionRespectsBlockingIff(c: Caps, tr: seq<Vcpu>, ops: seq<Op>, k: nat)
    requires IsRun(c, tr, ops) && !tr[0].vmcs.inject.IsValid() && k <= |ops|
    ensures var m := AtEntry(tr[k]).vmcs;
            InterruptibilityAccepts(m) <==> !(NmiInField(m) && BY_MOV_SS in tr[k].vmcs.interruptibility)
  {
    FieldInvOverRun(c, tr, ops, k);
    EntryOfField(tr[k]);
  }

  /** An entry that the processor refuses on guest state. */
  function FailedTurn(u: Vcpu): Turn {
    Turn(false, [], [], false, false, u.regs, {}, {}, 0, {}, {}, 0, 0, u.phys, OtherExit(33), 0, 0)
  }

  /** A lost event: an NMI and an exception are queued while MOV SS blocks. The entry with the NMI is refused; the
      next run writes the exception over it, and its entry is accepted. */
  lemma NmiLost(c: Caps, u: Vcpu, e: Event)
    requires |u.regs| == COUNT && u.launched && u.vmxLaunched && !u.vmcs.inject.IsValid()
    requires u.pending == [Event(2, None), e] && e.vector < 32 && e.vector != 2 && InOrder(u.vmcs, e)
    requires BY_MOV_SS in u.vmcs.interruptibility && Consistent(u.vmcs.controls)
    ensures var t := FailedTurn(u);
            && Runs(u, t) && !InterruptibilityAccepts(AtEntry(u).vmcs)
            && var w := InnerRun(c, u, t).0;
               && Step(c, u, Run(t), w) && CanEnter(w) && Overwrites(w)
               && |Seen(w)| == 1 && Is(Seen(w)[0], e) && InterruptibilityAccepts(AtEntry(w).vmcs)
  {
    var t := FailedTurn(u);
    InjectedField(u);
    EntryFixes(u);
    FailedTurnRuns(c, u);
    var w := InnerRun(c, u, t).0;
    NmiOverwritten(u, w, e);
    SeenAtEntry(w);
    EntryFixes(w);
  }

  /** An entry that fails leaves the VMCS, so that the next run resumes it as it was. */
  lemma FailedTurnRuns(c: Caps, u: Vcpu)
    requires |u.regs| == COUNT && u.launched && u.vmxLaunched && ControlsAccepted(AtEntry(u).vmcs)
    ensures var t := FailedTurn(u);
            && Runs(u, t)
            && var (w, o) := InnerRun(c, u, t);
               && o == NotHandled && LaunchOk(w) && w.vmcs == AtEntry(u).vmcs
               && w.pending == (if Injects(u) then u.pending[1..] else u.pending)
  {
    var t := FailedTurn(u);
    assert Runs(u, t);
    EventsOfRun(c, u, t);
    RunHandlesExit(c, u, t);
  }

  lemma NmiOverwritten(u: Vcpu, w: Vcpu, e: Event)
    requires Injects(u) && w.vmcs == AtEntry(u).vmcs && w.pending == [e] && e.vector < 32 && e.vector != 2
    requires InOrder(u.vmcs, e)
    ensures Overwrites(w) && FieldAccepted(AtEntry(w).vmcs) && InterruptibilityAccepts(AtEntry(w).vmcs)
  {
    InjectedField(u);
    InjectedField(w);
  }

  // ---------------------------------------------------------------------------------------------
  // Progress
  // ---------------------------------------------------------------------------------------------

  /** How many runs start with interrupts enabled and nothing blocked. */
  function OpenEntries(tr: seq<Vcpu>, ops: seq<Op>): nat
    requires |tr| == |ops| + 1
    decreases |ops|
  {
    if ops == [] then 0
    else
      var k := |ops| - 1;
      OpenEntries(tr[..k + 1], ops[..k]) + if ops[k].Run? && Open(tr[k].vmcs) then 1 else 0
  }

  predicate PendingStep(u: Vcpu, op: Op, w: Vcpu) {
    |w.pending| == match op
                   case Queue(_) => |u.pending| + 1
                   case Run(_) => if Injects(u) then |u.pending| - 1 else |u.pending|
                   case _ => |u.pending|
  }

  lemma PendingOfStep(c: Caps, u: Vcpu, op: Op, w: Vcpu)
    requires Step(c, u, op, w)
    ensures PendingStep(u, op, w)
  {
    if op.Run? {
      EventsOfRun(c, u, op.turn);
    }
  }

  /** Each open entry takes one event off the queue, at least while events of the start are left. */
  lemma {:induction false} OpenEntriesInject(c: Caps, tr: seq<Vcpu>, ops: seq<Op>)
    requires IsRun(c, tr, ops)
    ensures var gone := |tr[0].pending| + |Queued(ops)| - |tr[|ops|].pending|;
            0 <= gone && (gone >= |tr[0].pending| || gone >= OpenEntries(tr, ops))
    decreases |ops|
  {
    if ops != [] {
      var k := |ops| - 1;
      OpenEntriesInject(c, tr[..k + 1], ops[..k]);
      PendingOfStep(c, tr[k], ops[k], tr[k + 1]);
    }
  }

  predicate Appears(ds: seq<Delivery>, e: Event) { exists j :: 0 <= j < |ds| && Is(ds[j], e) }

  /** What is pending is the end of what was queued, and every event before it has been shown. */
  predicate AllShown(queued: seq<Event>, shown: seq<Delivery>, pending: seq<Event>) {
    var gone := |queued| - |pending|;
    && 0 <= gone && pending == queued[gone..]
    && forall i :: 0 <= i < gone ==> Appears(shown, queued[i])
  }

  lemma ShownStays(ds: seq<Delivery>, more: seq<Delivery>, e: Event)
    requires Appears(ds, e)
    ensures Appears(ds + more, e)
  {
    var j :| 0 <= j < |ds| && Is(ds[j], e);
    assert (ds + more)[j] == ds[j];
  }

  lemma AllShownMore(queued: seq<Event>, shown: seq<Delivery>, pending: seq<Event>, more: seq<Delivery>)
    requires AllShown(queued, shown, pending)
    ensures AllShown(queued, shown + more, pending)
    ensures pending != [] && more != [] && Is(more[0], pending[0]) ==> AllShown(queued, shown + more, pending[1..])
  {
    var gone := |queued| - |pending|;
    forall i | 0 <= i < gone ensures Appears(shown + more, queued[i]) {
      ShownStays(shown, more, queued[i]);
    }
    if pending != [] && more != [] && Is(more[0], pending[0]) {
      assert (shown + more)[|shown|] == more[0] && queued[gone] == pending[0];
    }
  }

  lemma AllShownStep(c: Caps, l: EventLog, u: Vcpu, op: Op, w: Vcpu)
    requires Step(c, u, op, w) && AllShown(l.queued, l.shown, u.pending)
    ensures var g := LogStep(l, u, op); AllShown(g.queued, g.shown, w.pending)
  {
    if op.Run? {
      EntryFieldOfRun(c, u, op.turn);
      AllShownMore(l.queued, l.shown, u.pending, Seen(u));
    }
  }

  lemma {:induction false} AllShownOverRun(c: Caps, tr: seq<Vcpu>, ops: seq<Op>)
    requires IsRun(c, tr, ops)
    ensures AllShown(LogOf(tr, ops).queued, LogOf(tr, ops).shown, tr[|ops|].pending)
    decreases |ops|
  {
    if ops != [] {
      var k := |ops| - 1;
      AllShownOverRun(c, tr[..k + 1], ops[..k]);
      AllShownStep(c, LogOf(tr[..k + 1], ops[..k]), tr[k], ops[k], tr[k + 1]);
    }
  }

  /** An event with `k` events ahead of it has been shown to the processor after any run with `k` + 1 open
      entries, failed ones included. */
  lemma EventIsReached(c: Caps, tr: seq<Vcpu>, ops: seq<Op>, k: nat)
    requires IsRun(c, tr, ops) && k < |tr[0].pending| && OpenEntries(tr, ops) >= k + 1
    ensures Appears(LogOf(tr, ops).shown, tr[0].pending[k])
  {
    OpenEntriesInject(c, tr, ops);
    AllShownOverRun(c, tr, ops);
    LogQueue(tr, ops);
    assert LogOf(tr, ops).queued[k] == tr[0].pending[k];
  }

  /** At every entry the queue was empty, or its head has left it and is what the processor finds in the
      field, or it waits because interrupts are not open, and interrupt-window exiting is on. */
  lemma WaitingMeansArmed(u: Vcpu)
    ensures || u.pending == []
            || (|Seen(u)| == 1 && Is(Seen(u)[0], u.pending[0]) && AtEntry(u).pending == u.pending[1..])
            || (AtEntry(u).pending == u.pending && !Open(u.vmcs) && WindowArmed(AtEntry(u).vmcs.controls))
  {
    SeenAtEntry(u);
  }

  /** After an interrupt-window exit the next run injects the head if and only if it is an exception or
      the guest reports no blocking at all. The window itself only promises no blocking by STI or MOV SS,
      and `allow_interrupt` also counts blocking by SMI and NMI. */
  lemma WindowExitInjectsIff(c: Caps, u: Vcpu, t: Turn)
    requires Runs(u, t) && t.entered && t.exit.InterruptWindow?
    ensures var (w, o) := InnerRun(c, u, t);
            && o == Handled
            && !WindowArmed(w.vmcs.controls)
            && (w.pending != [] ==>
                  (Injects(w) <==> w.pending[0].vector < 32 || t.interruptibility - {0, 1} == {}))
  {
    WindowHandled(c, u, t);
    EventsOfRun(c, u, t);
    InjectsIff(InnerRun(c, u, t).0);
    NotBlockedByStiOrMovSs(t.interruptibility);
  }

  lemma NotBlockedByStiOrMovSs(i: Bits32)
    requires 0 !in i && 1 !in i
    ensures i - {0, 1} == i
  {
  }

  lemma WindowHandled(c: Caps, u: Vcpu, t: Turn)
    requires Runs(u, t) && t.exit.InterruptWindow?
    ensures InnerRun(c, u, t).1 == Handled && !WindowArmed(InnerRun(c, u, t).0.vmcs.controls)
    ensures 9 in t.rflags && 0 !in t.interruptibility && 1 !in t.interruptibility
  {
    RunHandlesExit(c, u, t);
  }

  predicate WindowExitUnderNmi(op: Op) {
    op.Run? && op.turn.entered && op.turn.exit.InterruptWindow? && BY_NMI in op.turn.interruptibility
  }

  /** An interrupt is at the head of the queue and NMIs are blocked. */
  predicate Blocked(v: Vcpu, pending: seq<Event>) {
    && v.pending == pending != [] && pending[0].vector >= 32
    && BY_NMI in v.vmcs.interruptibility && !v.vmcs.inject.IsValid()
  }

  lemma BlockedStep(c: Caps, u: Vcpu, op: Op, w: Vcpu, pending: seq<Event>)
    requires Step(c, u, op, w) && WindowExitUnderNmi(op) && Blocked(u, pending)
    ensures Blocked(w, pending) && Seen(u) == []
  {
    EventsOfRun(c, u, op.turn);
    EntryFieldOfRun(c, u, op.turn);
  }

  predicate StaysBlocked(u: Vcpu, w: Vcpu, pending: seq<Event>) {
    Blocked(u, pending) ==> Blocked(w, pending) && Seen(u) == []
  }

  lemma {:induction false} NothingShown(tr: seq<Vcpu>, ops: seq<Op>, pending: seq<Event>)
    requires |tr| == |ops| + 1 && Blocked(tr[0], pending)
    requires forall i :: 0 <= i < |ops| ==> StaysBlocked(tr[i], tr[i + 1], pending)
    ensures Blocked(tr[|ops|], pending) && LogOf(tr, ops).shown == []
    decreases |ops|
  {
    if ops != [] {
      var k := |ops| - 1;
      NothingShown(tr[..k + 1], ops[..k], pending);
      assert StaysBlocked(tr[k], tr[k + 1], pending);
    }
  }

  /** The other side of that condition: while the guest is in an NMI handler with IF on, any number of
      window exits delivers nothing. */
  lemma NmiBlockingStarves(c: Caps, tr: seq<Vcpu>, ops: seq<Op>, pending: seq<Event>)
    requires IsRun(c, tr, ops) && Blocked(tr[0], pending)
    requires forall i :: 0 <= i < |ops| ==> WindowExitUnderNmi(ops[i])
    ensures Blocked(tr[|ops|], pending) && LogOf(tr, ops).shown == []
  {
    forall i | 0 <= i < |ops| ensures StaysBlocked(tr[i], tr[i + 1], pending) {
      assert WindowExitUnderNmi(ops[i]);
      if Blocked(tr[i], pending) {
        BlockedStep(c, tr[i], ops[i], tr[i + 1], pending);
      }
    }
    NothingShown(tr, ops, pending);
  }

  /** A guest in an NMI handler that turns IF on, and exits because the window opens. */
  function NmiTurn(regs: seq<Word>, phys: Phys): Turn {
    Turn(true, [], [], false, false, regs, {}, {}, 0, {1, RFLAGS_IF}, {BY_NMI}, 0, 0, phys, InterruptWindow, 0, 0)
  }

  lemma NmiTurnRuns(c: Caps, u: Vcpu, pending: seq<Event>)
    requires |u.regs| == COUNT && LaunchOk(u) && Consistent(u.vmcs.controls) && Blocked(u, pending)
    ensures var t := NmiTurn(u.regs, u.phys);
            && Runs(u, t) && InnerRun(c, u, t).1 == Handled
            && LaunchOk(InnerRun(c, u, t).0) && Consistent(InnerRun(c, u, t).0.vmcs.controls)
  {
    var t := NmiTurn(u.regs, u.phys);
    WaitingMeansArmed(u);
    FieldLeftAlone(u);
    EntryFixes(u);
    assert Runs(u, t);
    EventsOfRun(c, u, t);
    WindowHandled(c, u, t);
    StepFixes(c, u, Run(t), InnerRun(c, u, t).0);
    FixedIsConsistent(u.vmcs.controls, InnerRun(c, u, t).0.vmcs.controls);
  }

  /** Such runs exist, of every length: from any blocked state the hardware allows `n` window exits in a row. */
  lemma {:induction false} StarvingRunExists(c: Caps, u: Vcpu, pending: seq<Event>, n: nat)
    returns (tr: seq<Vcpu>, ops: seq<Op>)
    requires |u.regs| == COUNT && LaunchOk(u) && Consistent(u.vmcs.controls) && Blocked(u, pending)
    ensures IsRun(c, tr, ops) && |ops| == n && tr[0] == u
    ensures forall i :: 0 <= i < n ==> WindowExitUnderNmi(ops[i])
    ensures |tr[n].regs| == COUNT && LaunchOk(tr[n]) && Consistent(tr[n].vmcs.controls) && Blocked(tr[n], pending)
  {
    if n == 0 {
      tr, ops := [u], [];
    } else {
      tr, ops := StarvingRunExists(c, u, pending, n - 1);
      var v := tr[n - 1];
      var t := NmiTurn(v.regs, v.phys);
      NmiTurnRuns(c, v, pending);
      var w := InnerRun(c, v, t).0;
      EventsOfRun(c, v, t);
      BlockedStep(c, v, Run(t), w, pending);
      tr, ops := tr + [w], ops + [Run(t)];
    }
  }
}
