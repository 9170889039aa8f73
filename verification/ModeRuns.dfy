/** Control registers, EFER and the control fields over runs. */
module ModeRuns {
  import opened Wrappers
  import opened Bits
  import opened Controls
  import opened Processor
  import opened ControlRegisters
  import opened Registers
  import opened VcpuModel
  import opened VcpuRuns

  // ---------------------------------------------------------------------------------------------
  // Control registers, EFER and control fields over runs
  // ---------------------------------------------------------------------------------------------

  /** What the model assumes of the processor: well-formed limits, VMXE demanded in CR4, the two bits the
      code changes after setup flexible, and the IA-32e control clear by default. */
  predicate CapsOk(c: Caps) {
    && c.cr0.WellFormed() && c.cr4.WellFormed() && 13 in c.cr4.fixed0
    && c.entry.Flexible(9) && c.primary.Flexible(2)
    && 9 !in c.entryDefault
  }

  /** The plain register after a turn: the last MOV that was absorbed, or the one that trapped. */
  function PlainAfter(prev: Bits64, t: Turn, writes: seq<Bits64>, cr: nat): Bits64 {
    if !t.entered then prev
    else if MovTo(t.exit, cr) && |t.regs| == COUNT then Operand(t.regs, t.rsp, t.exit.qualification)
    else Last(prev, writes)
  }

  /** CR0 and CR4 as a guest that owned the machine would have them. */
  datatype Plain = Plain(cr0: Bits64, cr4: Bits64)

  /** The values `setup_vmcs_guest` gives them. */
  const RESET := Plain({NW, CD, ET}, {})

  function PlainStep(p: Plain, op: Op): Plain {
    if op.Run? then
      Plain(PlainAfter(p.cr0, op.turn, op.turn.cr0Writes, 0), PlainAfter(p.cr4, op.turn, op.turn.cr4Writes, 4))
    else p
  }

  function PlainOf(ops: seq<Op>): Plain {
    if ops == [] then RESET else PlainStep(PlainOf(ops[..|ops| - 1]), ops[|ops| - 1])
  }

  ghost predicate CrsHold(c: Caps, m: Vmcs, p: Plain) {
    Holds(Cr0May(c.cr0), Cr0Must(c.cr0), m.cr0, p.cr0) && Holds(c.cr4.fixed1, c.cr4.fixed0, m.cr4, p.cr4 + {VMXE})
  }

  /** The control fields differ at most in the two bits the code changes after setup. */
  predicate ControlsKept(a: ControlFields, b: ControlFields) {
    && b.pin == a.pin && b.secondary == a.secondary && b.exit == a.exit
    && b.primary - {2} == a.primary - {2}
    && b.entry - {9} == a.entry - {9}
  }

  /** EFER.LMA equals the IA-32e-mode-guest control. */
  predicate LmaMatches(m: Vmcs) { 10 in m.efer <==> LongModeGuest(m.controls) }

  /** What the results on the mode need of the control fields: the processor accepts the VM-entry controls, VM entry
      loads EFER, and PE and PG are free. */
  predicate ModeReady(c: Caps, k: ControlFields) {
    c.entry.Accepts(k.entry) && EntryLoadsEfer(k) && Unrestricted(k)
  }

  /** And VM exit saves EFER. */
  predicate BaseOk(c: Caps, k: ControlFields) { ModeReady(c, k) && ExitSavesEfer(k) }

  lemma KeptIsReady(c: Caps, a: ControlFields, k: ControlFields)
    requires CapsOk(c) && ModeReady(c, a) && ControlsKept(a, k)
    ensures ModeReady(c, k)
  {
    FlexibleBitKeepsAccepted(c.entry, a.entry, k.entry, 9);
    assert 15 in a.entry - {9};
    assert 31 in a.primary - {2};
  }

  /** What the stages around the guest's turn do to the mode state. */
  lemma InjectKeepsMode(u: Vcpu)
    ensures var m, n := u.vmcs, AtEntry(u).vmcs;
            && n.cr0 == m.cr0 && n.cr4 == m.cr4 && n.efer == m.efer
            && n.controls == m.controls.(primary := n.controls.primary)
            && n.controls.primary - {WINDOW} == m.controls.primary - {WINDOW}
  {
    SwitchesKeep(InjectPending(u));
  }

  lemma {:induction false} AbsorbedKeepVmxe(cr: Cr, ws: seq<Bits64>, plain: Bits64)
    requires VMXE in cr.mask && VMXE in cr.shadow
    requires forall i :: 0 <= i < |ws| ==> Absorbed(cr, ws[i])
    ensures Last(plain + {VMXE}, ws) == Last(plain, ws) + {VMXE}
  {
    if ws != [] {
      var w := ws[|ws| - 1];
      assert Absorbed(cr, w);
      assert VMXE in w * cr.mask by { assert VMXE in cr.shadow * cr.mask; }
      assert w + {VMXE} == w;
    }
  }

  lemma TurnKeepsMode(c: Caps, a: ControlFields, v: Vcpu, t: Turn, p: Plain)
    requires CapsOk(c) && |v.regs| == COUNT && TurnOk(v.vmcs, t) && t.entered
    requires CrsHold(c, v.vmcs, p) && ControlsKept(a, v.vmcs.controls) && ExitSavesEfer(a)
    ensures var m := Enter(v, t).vmcs;
            && CrsHold(c, m, Plain(Last(p.cr0, t.cr0Writes), Last(p.cr4, t.cr4Writes)))
            && ControlsKept(a, m.controls) && LmaMatches(m)
  {
    var m := v.vmcs;
    AbsorbAllHolds(Cr0May(c.cr0), Cr0Must(c.cr0), m.cr0, p.cr0, t.cr0Writes);
    AbsorbAllHolds(c.cr4.fixed1, c.cr4.fixed0, m.cr4, p.cr4 + {VMXE}, t.cr4Writes);
    assert VMXE in Visible(m.cr4);
    AbsorbedKeepVmxe(m.cr4, t.cr4Writes, p.cr4);
  }

  /** What `handle_cr` writes to the two registers. */
  lemma HandleCrWrites(c: Caps, v: Vcpu, q: Word)
    requires |v.regs| == COUNT
    ensures var val := Operand(v.regs, v.vmcs.rsp, q);
            var m := HandleCr(c, v, q).0.vmcs;
            && m.cr0 == (if MovTo(CrAccessExit(q), 0) then SetCr0(c.cr0, val) else v.vmcs.cr0)
            && m.cr4 == (if MovTo(CrAccessExit(q), 4) then SetCr4(c.cr4, val) else v.vmcs.cr4)
  {
  }

  /** `handle_cr` on a MOV: the register named holds the value moved, the other is untouched. */
  lemma HandleCrCrs(c: Caps, v: Vcpu, q: Word, p: Plain)
    requires |v.regs| == COUNT && CrsHold(c, v.vmcs, p)
    ensures CrsHold(c, HandleCr(c, v, q).0.vmcs, PlainAfterExit(p, v, CrAccessExit(q)))
  {
    HandleCrWrites(c, v, q);
    var val := Operand(v.regs, v.vmcs.rsp, q);
    SetCr0Holds(c.cr0, val);
    SetCr4Holds(c.cr4, val);
  }

  /** What it writes to EFER and the controls, and when it fails. */
  lemma HandleCrEfer(c: Caps, v: Vcpu, q: Word)
    requires |v.regs| == COUNT
    ensures var (w, o) := HandleCr(c, v, q);
            var m, n := v.vmcs, w.vmcs;
            if MovTo(CrAccessExit(q), 0) && PG in Operand(v.regs, m.rsp, q) then
              var u := UpdateEfer(c.entry, m.efer, m.controls.entry);
              && n.efer == u.efer && n.controls == m.controls.(entry := u.entry)
              && o == if u.ok then Handled else Panicked
            else
              && n.efer == m.efer && n.controls == m.controls
              && o == if MovTo(CrAccessExit(q), 0) || MovTo(CrAccessExit(q), 4) then Handled else Panicked
  {
  }

  /** `handle_cr` and the controls: at most the IA-32e bit changes, in step with LMA. */
  lemma HandleCrControls(c: Caps, a: ControlFields, v: Vcpu, q: Word)
    requires CapsOk(c) && |v.regs| == COUNT
    requires BaseOk(c, a) && ControlsKept(a, v.vmcs.controls) && LmaMatches(v.vmcs)
    ensures var (w, o) := HandleCr(c, v, q);
            ControlsKept(a, w.vmcs.controls) && (o == Handled ==> LmaMatches(w.vmcs))
  {
    HandleCrEfer(c, v, q);
    var entry := v.vmcs.controls.entry;
    KeptIsReady(c, a, v.vmcs.controls);
    UpdateEferEffect(c.entry, v.vmcs.efer, entry);
    assert entry + {9} - {9} == entry - {9};
  }

  /** The other handlers touch neither the control registers nor EFER, and at most the window bit. */
  lemma HandlerKeepsMode(c: Caps, v: Vcpu, exit: Exit)
    requires |v.regs| == COUNT && !exit.CrAccessExit?
    ensures var m, n := v.vmcs, Handle(c, v, exit).0.vmcs;
            && n.cr0 == m.cr0 && n.cr4 == m.cr4 && n.efer == m.efer
            && n.controls == m.controls.(primary := n.controls.primary)
            && n.controls.primary - {WINDOW} == m.controls.primary - {WINDOW}
  {
    match exit
    case Cpuid(raw) => CpuidKeeps(v, raw);
    case _ =>
  }

  /** Changing a flexible bit never makes an accepted field unacceptable. */
  lemma FlexibleBitKeepsAccepted(cap: Capability, a: Bits32, b: Bits32, bit: nat)
    requires cap.Accepts(a) && b - {bit} == a - {bit} && cap.Flexible(bit)
    ensures cap.Accepts(b)
  {
    forall i | i in cap.allowed0 ensures i in b { assert i in a - {bit}; }
    forall i | i in b ensures i in cap.allowed1 { assert i in b - {bit} || i == bit; }
  }

  /** The mode state between operations. */
  ghost predicate ModeInv(c: Caps, a: ControlFields, v: Vcpu, p: Plain) {
    |v.regs| == COUNT && CrsHold(c, v.vmcs, p) && ControlsKept(a, v.vmcs.controls) && LmaMatches(v.vmcs)
  }

  /** The plain registers when the exit happens: the absorbed MOVs have been made. */
  function PlainAtExit(p: Plain, t: Turn): Plain {
    if t.entered then Plain(Last(p.cr0, t.cr0Writes), Last(p.cr4, t.cr4Writes)) else p
  }

  lemma ModeAtExit(c: Caps, a: ControlFields, u: Vcpu, t: Turn, p: Plain)
    requires CapsOk(c) && TurnOk(AtEntry(u).vmcs, t) && ModeInv(c, a, u, p) && ExitSavesEfer(a)
    ensures ModeInv(c, a, AtExit(u, t), PlainAtExit(p, t))
  {
    InjectKeepsMode(u);
    SwitchesKeep(InjectPending(u));
    SwitchesKeep(Enter(AtEntry(u), t));
    if t.entered {
      TurnKeepsMode(c, a, AtEntry(u), t, p);
    }
  }

  /** The plain registers after exit handling, given those at the exit. */
  function PlainAfterExit(p: Plain, v: Vcpu, exit: Exit): Plain
    requires |v.regs| == COUNT
  {
    if MovTo(exit, 0) then p.(cr0 := Operand(v.regs, v.vmcs.rsp, exit.qualification))
    else if MovTo(exit, 4) then p.(cr4 := Operand(v.regs, v.vmcs.rsp, exit.qualification))
    else p
  }

  lemma ModeOfCrHandler(c: Caps, a: ControlFields, v: Vcpu, q: Word, p: Plain)
    requires CapsOk(c) && BaseOk(c, a) && ModeInv(c, a, v, p) && HandleCr(c, v, q).1 == Handled
    ensures ModeInv(c, a, HandleCr(c, v, q).0, PlainAfterExit(p, v, CrAccessExit(q)))
  {
    HandleCrCrs(c, v, q, p);
    HandleCrControls(c, a, v, q);
    CrKeeps(c, v, q);
  }

  lemma ModeOfHandler(c: Caps, a: ControlFields, v: Vcpu, exit: Exit, p: Plain)
    requires CapsOk(c) && BaseOk(c, a) && ModeInv(c, a, v, p) && Handle(c, v, exit).1 != Panicked
    ensures ModeInv(c, a, Handle(c, v, exit).0, PlainAfterExit(p, v, exit))
  {
    if exit.CrAccessExit? {
      ModeOfCrHandler(c, a, v, exit.qualification, p);
    } else {
      HandlerKeepsMode(c, v, exit);
      HandlerKeeps(c, v, exit);
    }
  }

  /** The operand of a trapped MOV is what the guest had in the register. */
  lemma RegsAtExit(u: Vcpu, t: Turn)
    requires |u.regs| == |t.regs| == COUNT && t.entered
    ensures var x := AtExit(u, t);
            |x.regs| == COUNT && x.regs[RSP := x.vmcs.rsp] == t.regs[RSP := t.rsp]
  {
  }

  lemma OperandAtExit(u: Vcpu, t: Turn, q: Word)
    requires |u.regs| == |t.regs| == COUNT && t.entered
    ensures |AtExit(u, t).regs| == COUNT
    ensures Operand(AtExit(u, t).regs, AtExit(u, t).vmcs.rsp, q) == Operand(t.regs, t.rsp, q)
  {
    RegsAtExit(u, t);
  }

  /** The plain registers of a whole run: first the absorbed MOVs, then the trapped one. */
  lemma PlainOfRun(u: Vcpu, t: Turn, p: Plain)
    requires |u.regs| == |t.regs| == COUNT && |AtExit(u, t).regs| == COUNT && (!t.entered ==> t.exit.OtherExit?)
    ensures PlainAfterExit(PlainAtExit(p, t), AtExit(u, t), t.exit) == PlainStep(p, Run(t))
  {
    if t.entered {
      RegsAtExit(u, t);
    }
  }

  lemma ModeOfRun(c: Caps, a: ControlFields, u: Vcpu, t: Turn, p: Plain)
    requires CapsOk(c) && BaseOk(c, a) && Runs(u, t) && ModeInv(c, a, u, p)
    requires InnerRun(c, u, t).1 != Panicked
    ensures ModeInv(c, a, InnerRun(c, u, t).0, PlainStep(p, Run(t)))
  {
    ModeAtExit(c, a, u, t, p);
    ModeOfHandler(c, a, AtExit(u, t), t.exit, PlainAtExit(p, t));
    PlainOfRun(u, t, p);
  }

  /** Turning a bit on and off is safe if and only if the bit is flexible. */
  lemma TogglingLegalIff(cap: Capability, a: Bits32, bit: nat)
    requires cap.Accepts(a) && bit < 32
    ensures cap.Accepts(a + {bit}) && cap.Accepts(a - {bit}) <==> cap.Flexible(bit)
  {
  }

  /** Setup succeeds exactly when every field has a value the processor accepts with what is requested,
      and then stores those values. */
  lemma SetupControlsExact(c: Caps, f: Features, r: ControlFields)
    ensures SetupControls(c, f) == Some(r) <==>
            && Granted(c.pin, c.pinDefault, {0, 3}, {}, r.pin)
            && Granted(c.primary, c.primaryDefault, {25, 28, 31}, {15, 16, 19, 20}, r.primary)
            && Granted(c.secondary, c.secondaryDefault, WantedSecondary(f), {}, r.secondary)
            && Granted(c.exit, c.exitDefault, {9, 15, 18, 19, 20, 21}, {}, r.exit)
            && Granted(c.entry, c.entryDefault, {14, 15}, {}, r.entry)
  {
    RequestsByNumber(f);
    SetControlExact(c.pin, c.pinDefault, PIN_ON, {}, r.pin);
    SetControlExact(c.primary, c.primaryDefault, PRIMARY_ON, PRIMARY_OFF, r.primary);
    SetControlExact(c.secondary, c.secondaryDefault, SecondaryOn(f), {}, r.secondary);
    SetControlExact(c.exit, c.exitDefault, EXIT_ON, {}, r.exit);
    SetControlExact(c.entry, c.entryDefault, ENTRY_ON, {}, r.entry);
  }

  /** EPT and unrestricted guest, and the instructions that the processor has. */
  function WantedSecondary(f: Features): Bits32 {
    {1, 7} + (if f.rdtscp then {3} else {}) + (if f.invpcid then {12} else {}) + if f.xsaves then {20} else {}
  }

  lemma RequestsByNumber(f: Features)
    ensures PIN_ON == {0, 3} && PRIMARY_ON == {25, 28, 31} && PRIMARY_OFF == {15, 16, 19, 20}
    ensures SecondaryOn(f) == WantedSecondary(f)
    ensures EXIT_ON == {9, 15, 18, 19, 20, 21} && ENTRY_ON == {14, 15}
  {
  }

  /** Each control field is one the processor accepts, with every bit that setup asked for on and every
      bit it refused off. */
  predicate ControlsLegal(c: Caps, f: Features, k: ControlFields) {
    && c.pin.Accepts(k.pin) && {0, 3} <= k.pin
    && c.primary.Accepts(k.primary) && {25, 28, 31} <= k.primary && k.primary !! {15, 16, 19, 20}
    && c.secondary.Accepts(k.secondary) && WantedSecondary(f) <= k.secondary
    && c.exit.Accepts(k.exit) && {9, 15, 18, 19, 20, 21} <= k.exit
    && c.entry.Accepts(k.entry) && {14, 15} <= k.entry
  }

  /** What these bits make the processor do. */
  predicate Effective(f: Features, k: ControlFields) {
    && InterruptsExit(k) && InterruptsAcknowledged(k) && NmisExit(k)
    && !Cr3LoadsExit(k) && !Cr3StoresExit(k) && !Cr8LoadsExit(k) && !Cr8StoresExit(k)
    && PortExits(k, true) && !PortExits(k, false)
    && MsrExits(k, true, true) && !MsrExits(k, true, false)
    && UsesEpt(k) && Unrestricted(k) && HostIs64Bit(k)
    && (f.rdtscp ==> Allows(k, Rdtscp)) && (f.invpcid ==> Allows(k, Invpcid)) && (f.xsaves ==> Allows(k, Xsaves))
    && EntryLoadsEfer(k) && ExitSavesEfer(k) && ExitLoadsEfer(k)
    && EntryLoadsPat(k) && ExitSavesPat(k) && ExitLoadsPat(k)
  }

  lemma LegalIsEffective(c: Caps, f: Features, k: ControlFields)
    requires ControlsLegal(c, f, k)
    ensures Effective(f, k)
  {
    var w := WantedSecondary(f);
    assert 1 in w && 7 in w && (f.rdtscp ==> 3 in w) && (f.invpcid ==> 12 in w) && (f.xsaves ==> 20 in w);
  }

  lemma SetupIsLegal(c: Caps, f: Features, a: ControlFields)
    requires CapsOk(c) && SetupControls(c, f) == Some(a)
    ensures ControlsLegal(c, f, a) && IA32E !in a.entry
  {
    SetupControlsExact(c, f, a);
  }

  lemma FreshMode(c: Caps, v: Vcpu)
    requires GuestFresh(c, v) && IA32E !in v.vmcs.controls.entry
    ensures ModeInv(c, v.vmcs.controls, v, RESET)
  {
    SetCr0Holds(c.cr0, {NW, CD, ET});
    SetCr4Holds(c.cr4, {});
  }

  /** The invariant before operation `i` implies it after. */
  ghost predicate ModeKept(c: Caps, a: ControlFields, tr: seq<Vcpu>, ops: seq<Op>, i: nat)
    requires |tr| == |ops| + 1 && i < |ops|
  {
    ModeInv(c, a, tr[i], PlainOf(ops[..i])) ==> ModeInv(c, a, tr[i + 1], PlainOf(ops[..i + 1]))
  }

  lemma {:induction false} ModeInduction(c: Caps, a: ControlFields, tr: seq<Vcpu>, ops: seq<Op>, k: nat)
    requires |tr| == |ops| + 1 && k <= |ops| && ModeInv(c, a, tr[0], PlainOf(ops[..0]))
    requires forall i :: 0 <= i < |ops| ==> ModeKept(c, a, tr, ops, i)
    ensures ModeInv(c, a, tr[k], PlainOf(ops[..k]))
  {
    if k > 0 {
      ModeInduction(c, a, tr, ops, k - 1);
      assert ModeKept(c, a, tr, ops, k - 1);
    }
  }

  lemma SetupMode(c: Caps, f: Features, v: Vcpu)
    requires CapsOk(c) && JustSetUp(c, f, v)
    ensures ModeInv(c, v.vmcs.controls, v, RESET) && BaseOk(c, v.vmcs.controls)
  {
    SetupIsLegal(c, f, v.vmcs.controls);
    LegalIsEffective(c, f, v.vmcs.controls);
    FreshMode(c, v);
  }

  lemma ModeSteps(c: Caps, a: ControlFields, tr: seq<Vcpu>, ops: seq<Op>)
    requires CapsOk(c) && BaseOk(c, a) && IsRun(c, tr, ops)
    ensures forall i :: 0 <= i < |ops| ==> ModeKept(c, a, tr, ops, i)
  {
    forall i | 0 <= i < |ops| ensures ModeKept(c, a, tr, ops, i) {
      if ModeInv(c, a, tr[i], PlainOf(ops[..i])) {
        ModeStep(c, a, tr[i], ops[i], tr[i + 1], PlainOf(ops[..i]));
        assert ops[..i + 1][..i] == ops[..i];
      }
    }
  }

  /** From setup on, over every run: the guest sees CR0 and CR4 as plain registers holding the last value
      moved to them (CR4 with VMXE on); only the window bit and the IA-32e bit of the control fields have
      changed; and EFER.LMA equals the IA-32e-mode-guest control. */
  lemma RunsKeepMode(c: Caps, f: Features, tr: seq<Vcpu>, ops: seq<Op>, k: nat)
    requires CapsOk(c) && IsRun(c, tr, ops) && JustSetUp(c, f, tr[0]) && k <= |ops|
    ensures ModeInv(c, tr[0].vmcs.controls, tr[k], PlainOf(ops[..k]))
  {
    SetupMode(c, f, tr[0]);
    ModeSteps(c, tr[0].vmcs.controls, tr, ops);
    ModeInduction(c, tr[0].vmcs.controls, tr, ops, k);
  }

  lemma ModeStep(c: Caps, a: ControlFields, u: Vcpu, op: Op, w: Vcpu, p: Plain)
    requires CapsOk(c) && BaseOk(c, a) && Step(c, u, op, w) && ModeInv(c, a, u, p)
    ensures ModeInv(c, a, w, PlainStep(p, op))
  {
    if op.Run? {
      ModeOfRun(c, a, u, op.turn, p);
    }
  }

  lemma OthersUnchanged(a: Bits32, b: Bits32, bit: nat, on: Bits32, off: Bits32)
    requires b - {bit} == a - {bit} && bit !in on && bit !in off && on <= a && off !! a
    ensures on <= b && b !! off
  {
    forall i | i in on ensures i in b { assert i in a - {bit}; }
    forall i | i in b ensures i !in off { assert i in b - {bit} || i == bit; }
  }

  lemma KeptIsLegal(c: Caps, f: Features, a: ControlFields, k: ControlFields)
    requires CapsOk(c) && ControlsLegal(c, f, a) && ControlsKept(a, k)
    ensures ControlsLegal(c, f, k)
  {
    FlexibleBitKeepsAccepted(c.primary, a.primary, k.primary, WINDOW);
    FlexibleBitKeepsAccepted(c.entry, a.entry, k.entry, IA32E);
    OthersUnchanged(a.primary, k.primary, WINDOW, {25, 28, 31}, {15, 16, 19, 20});
    OthersUnchanged(a.entry, k.entry, IA32E, {14, 15}, {});
  }

  /** The control fields are legal and do what setup is for; real CR0 and CR4 are, bit by bit, what the limits make
      of the plain values, which are what the guest sees; and LMA matches. */
  ghost predicate EntryLegal(c: Caps, f: Features, m: Vmcs, p: Plain) {
    && ControlsLegal(c, f, m.controls) && Effective(f, m.controls)
    && Cr0BitsRight(c.cr0, m.cr0, p.cr0) && Cr4BitsRight(c.cr4, m.cr4, p.cr4)
    && Cr0WithinLimits(c.cr0, m.cr0.actual, Unrestricted(m.controls)) && Cr4WithinLimits(c.cr4, m.cr4.actual)
    && Visible(m.cr0) == p.cr0 && ReadCr4(m.cr4) == Visible(m.cr4) == p.cr4 + {13}
    && (10 in m.efer <==> LongModeGuest(m.controls))
  }

  lemma EntryOfModeIsLegal(c: Caps, f: Features, a: ControlFields, u: Vcpu, p: Plain)
    requires CapsOk(c) && ControlsLegal(c, f, a) && ModeInv(c, a, u, p)
    ensures EntryLegal(c, f, AtEntry(u).vmcs, p)
  {
    InjectKeepsMode(u);
    KeptIsLegal(c, f, a, AtEntry(u).vmcs.controls);
    LegalIsEffective(c, f, AtEntry(u).vmcs.controls);
    HeldCr0IsLegal(c.cr0, u.vmcs.cr0, p.cr0);
    HeldCr4IsLegal(c.cr4, u.vmcs.cr4, p.cr4);
  }

  /** Hence so it is at every VM entry of every run. */
  lemma EveryEntryIsLegal(c: Caps, f: Features, tr: seq<Vcpu>, ops: seq<Op>, k: nat)
    requires CapsOk(c) && IsRun(c, tr, ops) && JustSetUp(c, f, tr[0]) && k <= |ops|
    ensures EntryLegal(c, f, AtEntry(tr[k]).vmcs, PlainOf(ops[..k]))
  {
    RunsKeepMode(c, f, tr, ops, k);
    SetupIsLegal(c, f, tr[0].vmcs.controls);
    EntryOfModeIsLegal(c, f, tr[0].vmcs.controls, tr[k], PlainOf(ops[..k]));
  }

  // ---------------------------------------------------------------------------------------------
  // Which guests can be entered again
  // ---------------------------------------------------------------------------------------------

  predicate VmcsAccepted(c: Caps, m: Vmcs) {
    EntryAccepts(c.cr0, c.cr4, m.cr0.actual, m.cr4.actual, m.efer, m.controls)
  }

  /** Acceptance does not depend on the window, nor on anything outside the mode. */
  lemma AcceptedAlike(c: Caps, m: Vmcs, n: Vmcs)
    requires n.cr0 == m.cr0 && n.cr4 == m.cr4 && n.efer == m.efer
    requires n.controls == m.controls.(primary := n.controls.primary)
    requires n.controls.primary - {2} == m.controls.primary - {2}
    ensures VmcsAccepted(c, n) <==> VmcsAccepted(c, m)
  {
    assert 31 in n.controls.primary - {2} <==> 31 in m.controls.primary - {2};
  }

  /** So the state between operations decides it. */
  lemma EntryOkIff(c: Caps, u: Vcpu)
    ensures EntryOk(c, u) <==> VmcsAccepted(c, u.vmcs)
  {
    InjectKeepsMode(u);
    AcceptedAlike(c, u.vmcs, AtEntry(u).vmcs);
  }

  /** A run from `v` passes the checks at its VM entry. */
  predicate EntryOk(c: Caps, v: Vcpu) { VmcsAccepted(c, AtEntry(v).vmcs) }

  /** What the theorems below need of the processor's limits: PE and PG can be on. */
  predicate LimitsOk(c: Caps) {
    c.cr0.WellFormed() && {PE, PG} <= c.cr0.fixed1 && c.cr4.WellFormed() && IA32E in c.entry.allowed1
  }

  /** What a guest must respect when it moves `val` to CR0 or CR4 and traps, given the real registers at the
      exit. */
  predicate TrappedMovOk(c: Caps, cr0: Bits64, cr4: Bits64, efer: Bits64, cr: nat, val: Bits64) {
    && (cr == 0 ==>
          && (if PG in val then PE in val && PAE in cr4 && LME in efer else LMA !in efer)
          && (CET in cr4 ==> On(c.cr0, val, WP)))
    && (cr == 4 ==>
          && (if LMA in efer then On(c.cr4, val, PAE) else !On(c.cr4, val, PCIDE))
          && (On(c.cr4, val, CET) ==> WP in cr0))
  }

  predicate VmcsMovOk(c: Caps, m: Vmcs, cr: nat, val: Bits64) {
    TrappedMovOk(c, m.cr0.actual, m.cr4.actual, m.efer, cr, val)
  }

  lemma TrappedMovAcceptedIff(c: Caps, v: Vcpu, q: Word)
    requires LimitsOk(c) && |v.regs| == COUNT && ModeReady(c, v.vmcs.controls) && VmcsAccepted(c, v.vmcs)
    requires HandleCr(c, v, q).1 != Panicked
    ensures VmcsAccepted(c, HandleCr(c, v, q).0.vmcs) <==>
            VmcsMovOk(c, v.vmcs, q % 16, Operand(v.regs, v.vmcs.rsp, q))
  {
    var val := Operand(v.regs, v.vmcs.rsp, q);
    var m := v.vmcs;
    if MovTo(CrAccessExit(q), 0) {
      MovCr0AcceptedIff(c.entry, c.cr0, c.cr4, m.cr0.actual, m.cr4.actual, m.efer, m.controls, val);
    } else {
      MovCr4AcceptedIff(c.cr0, c.cr4, m.cr0.actual, m.cr4.actual, m.efer, m.controls, val);
    }
  }

  /** The register a control-register exit is about. */
  function CrOf(exit: Exit): nat
    requires exit.CrAccessExit?
  {
    exit.qualification % 16
  }

  lemma HandlerAcceptedIff(c: Caps, x: Vcpu, exit: Exit)
    requires LimitsOk(c) && |x.regs| == COUNT && ModeReady(c, x.vmcs.controls) && VmcsAccepted(c, x.vmcs)
    requires Handle(c, x, exit).1 != Panicked
    ensures VmcsAccepted(c, Handle(c, x, exit).0.vmcs) <==>
            (exit.CrAccessExit? ==>
               VmcsMovOk(c, x.vmcs, CrOf(exit), Operand(x.regs, x.vmcs.rsp, exit.qualification)))
  {
    if exit.CrAccessExit? {
      TrappedMovAcceptedIff(c, x, exit.qualification);
    } else {
      HandlerKeepsMode(c, x, exit);
      AcceptedAlike(c, x.vmcs, Handle(c, x, exit).0.vmcs);
    }
  }

  lemma NextAfterHandler(c: Caps, x: Vcpu, exit: Exit)
    requires LimitsOk(c) && |x.regs| == COUNT && ModeReady(c, x.vmcs.controls) && VmcsAccepted(c, x.vmcs)
    requires Handle(c, x, exit).1 != Panicked
    ensures VmcsAccepted(c, AtEntry(Handle(c, x, exit).0).vmcs) <==>
            (exit.CrAccessExit? ==>
               VmcsMovOk(c, x.vmcs, CrOf(exit), Operand(x.regs, x.vmcs.rsp, exit.qualification)))
  {
    HandlerAcceptedIff(c, x, exit);
    EntryOkIff(c, Handle(c, x, exit).0);
  }

  /** The processor enters only a state it accepts, and a VM exit saves one: it never runs the guest with
      another. */
  predicate Coherent(c: Caps, u: Vcpu, t: Turn)
    requires |u.regs| == |t.regs| == COUNT
  {
    t.entered ==> VmcsAccepted(c, AtEntry(u).vmcs) && VmcsAccepted(c, AtExit(u, t).vmcs)
  }

  /** What the guest did with its last MOV to CR0 or CR4 before the exit: mask and shadow absorbed it, or it
      trapped and respected the conditions above. */
  predicate GuestMovOk(c: Caps, m: Vmcs, cr: nat, val: Bits64) {
    (cr == 0 && Absorbed(m.cr0, val)) || (cr == 4 && Absorbed(m.cr4, val)) || VmcsMovOk(c, m, cr, val)
  }

  predicate TurnMovOk(c: Caps, u: Vcpu, t: Turn)
    requires |u.regs| == |t.regs| == COUNT
  {
    t.entered && t.exit.CrAccessExit? ==>
      GuestMovOk(c, AtExit(u, t).vmcs, CrOf(t.exit), Operand(t.regs, t.rsp, t.exit.qualification))
  }

  /** An exit by MOV is one that mask and shadow at the exit do not absorb. */
  lemma ExitsAreNotAbsorbed(c: Caps, u: Vcpu, t: Turn)
    requires Runs(u, t) && t.entered && (MovTo(t.exit, 0) || MovTo(t.exit, 4))
    ensures var m, val := AtExit(u, t).vmcs, Operand(t.regs, t.rsp, t.exit.qualification);
            GuestMovOk(c, m, CrOf(t.exit), val) <==> VmcsMovOk(c, m, CrOf(t.exit), val)
  {
    AbsorbedAtExit(u, t);
    MovExitNotAbsorbed(AtEntry(u).vmcs, t);
  }

  lemma MovExitNotAbsorbed(m: Vmcs, t: Turn)
    requires TurnOk(m, t)
    ensures MovTo(t.exit, 0) ==> !Absorbed(m.cr0, Operand(t.regs, t.rsp, t.exit.qualification))
    ensures MovTo(t.exit, 4) ==> !Absorbed(m.cr4, Operand(t.regs, t.rsp, t.exit.qualification))
  {
  }

  lemma AbsorbedAtExit(u: Vcpu, t: Turn)
    requires |u.regs| == |t.regs| == COUNT && t.entered
    ensures var m, n := AtEntry(u).vmcs, AtExit(u, t).vmcs;
            && n.cr0.mask == m.cr0.mask && n.cr0.shadow == m.cr0.shadow
            && n.cr4.mask == m.cr4.mask && n.cr4.shadow == m.cr4.shadow
  {
    SwitchesKeep(Enter(AtEntry(u), t));
  }

  /** One run: the next VM entry passes the checks on CR0, CR4 and EFER if and only if the guest did not end
      its turn with a MOV that the emulation gets wrong: turning on paging without PE, PAE or LME, turning it
      off in long mode, dropping PAE in long mode, setting PCIDE outside it, or CET without WP. */
  lemma NextEntryAcceptedIff(c: Caps, u: Vcpu, t: Turn)
    requires LimitsOk(c) && Runs(u, t) && t.entered && Coherent(c, u, t)
    requires ModeReady(c, AtExit(u, t).vmcs.controls) && InnerRun(c, u, t).1 != Panicked
    ensures VmcsAccepted(c, AtEntry(InnerRun(c, u, t).0).vmcs) <==> TurnMovOk(c, u, t)
  {
    RegsAtExit(u, t);
    RunHandlesExit(c, u, t);
    NextAfterHandler(c, AtExit(u, t), t.exit);
    if t.exit.CrAccessExit? {
      OperandAtExit(u, t, t.exit.qualification);
      ExitsAreNotAbsorbed(c, u, t);
    }
  }

  /** The first entry after setup passes the checks unless the processor demands PCIDE, or CET without WP. */
  lemma FirstEntryAcceptedIff(c: Caps, f: Features, v: Vcpu)
    requires CapsOk(c) && JustSetUp(c, f, v)
    ensures VmcsAccepted(c, AtEntry(v).vmcs) <==>
            PCIDE !in c.cr4.fixed0 && (CET in c.cr4.fixed0 ==> WP in c.cr0.fixed0)
  {
    SetupIsLegal(c, f, v.vmcs.controls);
    SetupMode(c, f, v);
    InjectKeepsMode(v);
    KeptIsReady(c, v.vmcs.controls, AtEntry(v).vmcs.controls);
    FreshAcceptedIff(c.cr0, c.cr4, AtEntry(v).vmcs.controls);
  }

  /** Turns the hardware can take, at operation `i`. */
  predicate CoherentAt(c: Caps, tr: seq<Vcpu>, ops: seq<Op>, i: nat)
    requires |tr| == |ops| + 1 && i < |ops|
  {
    ops[i].Run? ==> |tr[i].regs| == |ops[i].turn.regs| == COUNT && Coherent(c, tr[i], ops[i].turn)
  }

  predicate MovOkAt(c: Caps, tr: seq<Vcpu>, ops: seq<Op>, i: nat)
    requires |tr| == |ops| + 1 && i < |ops|
  {
    ops[i].Run? && |tr[i].regs| == |ops[i].turn.regs| == COUNT ==> TurnMovOk(c, tr[i], ops[i].turn)
  }

  /** One operation of a run: the next entry is accepted if and only if this one would be and the guest did
      not break the conditions. A refused entry changes nothing, so the guest is never entered again. */
  lemma AcceptedStep(c: Caps, a: ControlFields, u: Vcpu, op: Op, w: Vcpu, p: Plain)
    requires CapsOk(c) && LimitsOk(c) && BaseOk(c, a) && ModeInv(c, a, u, p) && Step(c, u, op, w)
    requires op.Run? ==> Coherent(c, u, op.turn)
    ensures EntryOk(c, w) <==> EntryOk(c, u) && (op.Run? ==> TurnMovOk(c, u, op.turn))
  {
    if op.Run? {
      AcceptedRun(c, a, u, op.turn, p);
    } else {
      AcceptedAlike(c, u.vmcs, w.vmcs);
      EntryOkIff(c, u);
      EntryOkIff(c, w);
    }
  }

  lemma AcceptedRun(c: Caps, a: ControlFields, u: Vcpu, t: Turn, p: Plain)
    requires CapsOk(c) && LimitsOk(c) && BaseOk(c, a) && ModeInv(c, a, u, p)
    requires Runs(u, t) && Coherent(c, u, t) && InnerRun(c, u, t).1 != Panicked
    ensures VmcsAccepted(c, AtEntry(InnerRun(c, u, t).0).vmcs) <==>
            VmcsAccepted(c, AtEntry(u).vmcs) && TurnMovOk(c, u, t)
  {
    if t.entered {
      EntryLegalAtExit(c, a, u, t, p);
      NextEntryAcceptedIff(c, u, t);
    } else {
      RefusedRun(c, u, t);
    }
  }

  lemma EntryLegalAtExit(c: Caps, a: ControlFields, u: Vcpu, t: Turn, p: Plain)
    requires CapsOk(c) && BaseOk(c, a) && ModeInv(c, a, u, p) && Runs(u, t)
    ensures ModeReady(c, AtExit(u, t).vmcs.controls)
  {
    ModeAtExit(c, a, u, t, p);
    KeptIsReady(c, a, AtExit(u, t).vmcs.controls);
  }

  lemma RefusedRun(c: Caps, u: Vcpu, t: Turn)
    requires Runs(u, t) && !t.entered
    ensures VmcsAccepted(c, AtEntry(InnerRun(c, u, t).0).vmcs) <==> VmcsAccepted(c, AtEntry(u).vmcs)
  {
    EventsOfRun(c, u, t);
    EntryOkIff(c, InnerRun(c, u, t).0);
  }

  /** Every MOV to CR0 or CR4 by the guest during the first `k` operations was in order. */
  predicate MovsOk(c: Caps, tr: seq<Vcpu>, ops: seq<Op>, k: nat)
    requires |tr| == |ops| + 1 && k <= |ops|
  {
    k == 0 || (MovsOk(c, tr, ops, k - 1) && MovOkAt(c, tr, ops, k - 1))
  }

  /** Operation `i`: the next entry is accepted if and only if this one would be and the MOV was in order. */
  predicate AcceptanceAt(c: Caps, tr: seq<Vcpu>, ops: seq<Op>, i: nat)
    requires |tr| == |ops| + 1 && i < |ops|
  {
    EntryOk(c, tr[i + 1]) <==> EntryOk(c, tr[i]) && MovOkAt(c, tr, ops, i)
  }

  lemma AcceptanceOfStep(c: Caps, f: Features, tr: seq<Vcpu>, ops: seq<Op>, i: nat)
    requires CapsOk(c) && LimitsOk(c) && IsRun(c, tr, ops) && JustSetUp(c, f, tr[0]) && i < |ops|
    requires CoherentAt(c, tr, ops, i)
    ensures AcceptanceAt(c, tr, ops, i)
  {
    SetupMode(c, f, tr[0]);
    RunsKeepMode(c, f, tr, ops, i);
    AcceptedStep(c, tr[0].vmcs.controls, tr[i], ops[i], tr[i + 1], PlainOf(ops[..i]));
  }

  lemma {:induction false} AcceptanceInduction(c: Caps, tr: seq<Vcpu>, ops: seq<Op>, k: nat)
    requires |tr| == |ops| + 1 && k <= |ops| && EntryOk(c, tr[0])
    requires forall i :: 0 <= i < k ==> AcceptanceAt(c, tr, ops, i)
    ensures EntryOk(c, tr[k]) <==> MovsOk(c, tr, ops, k)
    decreases k
  {
    if k > 0 {
      AcceptanceInduction(c, tr, ops, k - 1);
      assert AcceptanceAt(c, tr, ops, k - 1);
    }
  }

  /** Over every run from setup, on a processor that accepts the first entry: an entry passes the checks on
      CR0, CR4 and EFER if and only if every MOV to CR0 or CR4 by the guest so far was absorbed or respected
      the conditions. */
  lemma EveryEntryAcceptedIff(c: Caps, f: Features, tr: seq<Vcpu>, ops: seq<Op>, k: nat)
    requires CapsOk(c) && LimitsOk(c) && IsRun(c, tr, ops) && JustSetUp(c, f, tr[0]) && k <= |ops|
    requires PCIDE !in c.cr4.fixed0 && (CET in c.cr4.fixed0 ==> WP in c.cr0.fixed0)
    requires forall i :: 0 <= i < |ops| ==> CoherentAt(c, tr, ops, i)
    ensures EntryOk(c, tr[k]) <==> MovsOk(c, tr, ops, k)
  {
    FirstEntryAcceptedIff(c, f, tr[0]);
    forall i | 0 <= i < k ensures AcceptanceAt(c, tr, ops, i) {
      AcceptanceOfStep(c, f, tr, ops, i);
    }
    AcceptanceInduction(c, tr, ops, k);
  }
}
