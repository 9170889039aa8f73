/** The world switch: `save_regs_to_stack!`, `restore_regs_from_stack!`, `vmx_entry_with!` and
    `vmx_exit`, interpreted instruction by instruction over sixteen registers and a memory of 8-byte
    words. Models `src/regs/mod.rs` and `src/vmx/vcpu.rs`.

    Addresses are byte addresses; every word the programs touch is aligned because the vCPU and the
    stack are, so distinct ones are disjoint. What is said of the rest of memory is said of the words
    that do not overlap any of them. RFLAGS is not modelled. */
module WorldSwitch {
  import opened Registers

  /** Words at addresses that were never written hold some default; a map names every memory. */
  type Memory = map<Word, Word>

  function Load(m: Memory, a: Word): Word { if a in m then m[a] else 0 }

  function Plus(a: Word, n: nat): Word
    requires n < TWO64
  {
    if a + n < TWO64 then a + n else a + n - TWO64
  }

  function Minus(a: Word, n: nat): Word
    requires n < TWO64
  {
    if n <= a then a - n else a - n + TWO64
  }

  datatype Instr =
    | Push(reg: int)
    | Pop(reg: int)
    | SubRsp(n: nat)
    | AddRsp(n: nat)
    | StoreRsp(base: int, disp: nat)    // mov [base + disp], rsp
    | MovRsp(source: int)               // mov rsp, source
    | LoadRsp(disp: nat)                // mov rsp, [rsp + disp]
    | Ret

  datatype Cpu = Cpu(regs: seq<Word>, mem: Memory, rip: Word) {
    predicate Ok() { |regs| == COUNT }
    function Rsp(): Word requires Ok() { regs[RSP] }
  }

  predicate InstrOk(i: Instr) {
    match i
    case Push(r) => Named(r)
    case Pop(r) => Named(r)
    case SubRsp(n) => n < TWO64
    case AddRsp(n) => n < TWO64
    case StoreRsp(b, d) => Named(b) && d < TWO64
    case MovRsp(r) => Named(r)
    case LoadRsp(d) => d < TWO64
    case Ret => true
  }

  function Step(i: Instr, s: Cpu): (r: Cpu)
    requires s.Ok() && InstrOk(i)
    ensures r.Ok()
  {
    match i
    case Push(g) =>
      var sp := Minus(s.Rsp(), 8);
      s.(regs := s.regs[RSP := sp], mem := s.mem[sp := s.regs[g]])
    case Pop(g) => s.(regs := s.regs[g := Load(s.mem, s.Rsp())][RSP := Plus(s.Rsp(), 8)])
    case SubRsp(n) => s.(regs := s.regs[RSP := Minus(s.Rsp(), n)])
    case AddRsp(n) => s.(regs := s.regs[RSP := Plus(s.Rsp(), n)])
    case StoreRsp(b, d) => s.(mem := s.mem[Plus(s.regs[b], d) := s.Rsp()])
    case MovRsp(g) => s.(regs := s.regs[RSP := s.regs[g]])
    case LoadRsp(d) => s.(regs := s.regs[RSP := Load(s.mem, Plus(s.Rsp(), d))])
    case Ret => s.(regs := s.regs[RSP := Plus(s.Rsp(), 8)], rip := Load(s.mem, s.Rsp()))
  }

  predicate ProgramOk(p: seq<Instr>) { forall i :: 0 <= i < |p| ==> InstrOk(p[i]) }

  function Exec(p: seq<Instr>, s: Cpu): (r: Cpu)
    requires s.Ok() && ProgramOk(p)
    ensures r.Ok()
  {
    if p == [] then s else Exec(p[1..], Step(p[0], s))
  }

  lemma {:induction false} ExecConcat(p: seq<Instr>, q: seq<Instr>, s: Cpu)
    requires s.Ok() && ProgramOk(p) && ProgramOk(q)
    ensures ProgramOk(p + q) && Exec(p + q, s) == Exec(q, Exec(p, s))
    decreases |p|
  {
    if p == [] {
      assert p + q == q;
    } else {
      assert (p + q)[1..] == p[1..] + q;
      ExecConcat(p[1..], q, Step(p[0], s));
    }
  }

  // ---------------------------------------------------------------------------------------------
  // The programs
  // ---------------------------------------------------------------------------------------------

  /** `save_regs_to_stack!`: r15 first, rax last, a hole for rsp. */
  const SAVE: seq<Instr> := [
    Push(15), Push(14), Push(13), Push(12), Push(11), Push(10), Push(9), Push(8),
    Push(7), Push(6), Push(5), SubRsp(8), Push(3), Push(2), Push(1), Push(0)]

  /** `restore_regs_from_stack!`: rax first, r15 last. */
  const RESTORE: seq<Instr> := [
    Pop(0), Pop(1), Pop(2), Pop(3), AddRsp(8), Pop(5), Pop(6), Pop(7),
    Pop(8), Pop(9), Pop(10), Pop(11), Pop(12), Pop(13), Pop(14), Pop(15)]

  /** `size_of::<GeneralRegisters>()`. */
  const BLOCK := 128

  /** `vmx_entry_with!` up to the VMLAUNCH or VMRESUME instruction. */
  const ENTRY: seq<Instr> := SAVE + [StoreRsp(RDI, BLOCK), MovRsp(RDI)] + RESTORE

  /** `vmx_exit`. */
  const EXIT: seq<Instr> := SAVE + [LoadRsp(BLOCK)] + RESTORE + [Ret]

  // ---------------------------------------------------------------------------------------------
  // Saving and restoring
  // ---------------------------------------------------------------------------------------------

  /** Slot `k` of a register block at `base`. */
  function Slot(m: Memory, base: Word, k: nat): Word
    requires base + 8 * k < TWO64
  {
    Load(m, base + 8 * k)
  }

  /** The sixteen words at `base`. */
  function Block(m: Memory, base: Word): (r: seq<Word>)
    requires base + BLOCK < TWO64
    ensures |r| == COUNT
    ensures forall k :: 0 <= k < COUNT ==> r[k] == Slot(m, base, k)
  {
    seq(COUNT, k requires 0 <= k < COUNT => Slot(m, base, k))
  }

  /** The word at `a` has no byte in the given address range. */
  predicate Outside(a: Word, lo: int, hi: int) { a + 8 <= lo || hi <= a }

  /** The word at `a` lies in the given address range. */
  predicate Inside(a: Word, lo: int, hi: int) { lo <= a && a + 8 <= hi }

  /** Two memories agree outside the given address range. */
  ghost predicate SameOutside(m: Memory, n: Memory, lo: int, hi: int) {
    forall a: Word :: Outside(a, lo, hi) ==> Load(m, a) == Load(n, a)
  }

  /** What the two macros expand to, slot by slot. */
  predicate IsSave(p: seq<Instr>) {
    && |p| == COUNT
    && forall i :: 0 <= i < COUNT ==> p[i] == if i == COUNT - 1 - RSP then SubRsp(8) else Push(COUNT - 1 - i)
  }

  predicate IsRestore(p: seq<Instr>) {
    |p| == COUNT && forall i :: 0 <= i < COUNT ==> p[i] == if i == RSP then AddRsp(8) else Pop(i)
  }

  lemma SaveIsSlotwise()
    ensures IsSave(SAVE) && ProgramOk(SAVE)
  {
  }

  lemma RestoreIsSlotwise()
    ensures IsRestore(RESTORE) && ProgramOk(RESTORE)
  {
  }

  /** `t` is `s` after slots k-1 down to 0 have been filled below RSP, except the RSP slot. */
  ghost predicate Saved(s: Cpu, t: Cpu, k: nat)
    requires s.Ok() && t.Ok() && k <= COUNT && 8 * k <= s.Rsp()
  {
    var base := s.Rsp() - 8 * k;
    && t.rip == s.rip && t.regs == s.regs[RSP := base]
    && SameOutside(s.mem, t.mem, base, s.Rsp())
    && (forall j :: 0 <= j < k && j != RSP ==> Slot(t.mem, base, j) == s.regs[j])
    && (k > RSP ==> Slot(t.mem, base, RSP) == Slot(s.mem, base, RSP))
  }

  lemma SavedStep(s: Cpu, t: Cpu, k: nat)
    requires s.Ok() && t.Ok() && 0 < k <= COUNT && 8 * k <= s.Rsp()
    requires var n := Step(if k - 1 == RSP then SubRsp(8) else Push(k - 1), s);
             Saved(n, t, k - 1)
    ensures Saved(s, t, k)
  {
    var n := Step(if k - 1 == RSP then SubRsp(8) else Push(k - 1), s);
    var base: Word := s.Rsp() - 8 * k;
    forall j | 0 <= j < k && j != RSP ensures Slot(t.mem, base, j) == s.regs[j] {
      if j == k - 1 {
        assert Slot(t.mem, base, j) == Load(n.mem, n.Rsp());
      } else {
        assert Slot(t.mem, n.Rsp() - 8 * (k - 1), j) == n.regs[j];
      }
    }
  }

  /** The last `k` instructions of SAVE. */
  lemma {:induction false} SaveTail(p: seq<Instr>, s: Cpu, k: nat)
    requires IsSave(p) && ProgramOk(p)
    requires s.Ok() && k <= COUNT && 8 * k <= s.Rsp()
    ensures Saved(s, Exec(p[COUNT - k..], s), k)
    decreases k
  {
    if k == 0 {
      assert p[COUNT..] == [];
    } else {
      var i := p[COUNT - k];
      assert i == if k - 1 == RSP then SubRsp(8) else Push(k - 1);
      assert p[COUNT - k..][0] == i && p[COUNT - k..][1..] == p[COUNT - (k - 1)..];
      SaveTail(p, Step(i, s), k - 1);
      SavedStep(s, Exec(p[COUNT - k..], s), k);
    }
  }

  /** SAVE stores every register in its slot of the 128 bytes below RSP and changes nothing else. */
  lemma SaveEffect(p: seq<Instr>, s: Cpu)
    requires IsSave(p) && ProgramOk(p) && s.Ok() && BLOCK <= s.Rsp()
    ensures var t := Exec(p, s);
            var base := s.Rsp() - BLOCK;
            && t.rip == s.rip && t.regs == s.regs[RSP := base]
            && SameOutside(s.mem, t.mem, base, s.Rsp())
            && Block(t.mem, base) == AfterExit(Block(s.mem, base), s.regs)
  {
    assert p[0..] == p;
    SaveTail(p, s, COUNT);
  }

  /** `t` is `s` after registers k to 15 have been loaded from the block at `base`, except RSP. */
  ghost predicate Restored(s: Cpu, t: Cpu, base: Word, k: nat)
    requires s.Ok() && t.Ok() && k <= COUNT && base + BLOCK < TWO64
  {
    && t.mem == s.mem && t.rip == s.rip && t.Rsp() == base + BLOCK
    && (forall j :: k <= j < COUNT && j != RSP ==> t.regs[j] == Slot(s.mem, base, j))
    && (forall j :: 0 <= j < k && j != RSP ==> t.regs[j] == s.regs[j])
  }

  lemma RestoredStep(s: Cpu, t: Cpu, base: Word, k: nat)
    requires s.Ok() && t.Ok() && k < COUNT && base + BLOCK < TWO64 && s.Rsp() == base + 8 * k
    requires Restored(Step(if k == RSP then AddRsp(8) else Pop(k), s), t, base, k + 1)
    ensures Restored(s, t, base, k)
  {
  }

  /** The instructions of RESTORE from slot `k` on. */
  lemma {:induction false} RestoreTail(p: seq<Instr>, s: Cpu, base: Word, k: nat)
    requires IsRestore(p) && ProgramOk(p)
    requires s.Ok() && k <= COUNT && base + BLOCK < TWO64 && s.Rsp() == base + 8 * k
    ensures Restored(s, Exec(p[k..], s), base, k)
    decreases COUNT - k
  {
    if k == COUNT {
      assert p[COUNT..] == [];
    } else {
      assert p[k..][0] == p[k] && p[k..][1..] == p[k + 1..];
      RestoreTail(p, Step(p[k], s), base, k + 1);
      RestoredStep(s, Exec(p[k..], s), base, k);
    }
  }

  lemma RestoreEffect(p: seq<Instr>, s: Cpu)
    requires IsRestore(p) && ProgramOk(p) && s.Ok() && s.Rsp() + BLOCK < TWO64
    ensures Exec(p, s) == s.(regs := Block(s.mem, s.Rsp())[RSP := s.Rsp() + BLOCK])
  {
    assert p[0..] == p;
    RestoreTail(p, s, s.Rsp(), 0);
    assert Exec(p, s).regs == Block(s.mem, s.Rsp())[RSP := s.Rsp() + BLOCK];
  }

  // ---------------------------------------------------------------------------------------------
  // The switch as a whole
  // ---------------------------------------------------------------------------------------------

  /** A call of `vmx_launch` or `vmx_resume`: RDI is the `&mut self` argument, RSP points at the return
      address, and the first two fields of the vCPU do not overlap the stack words in use. */
  predicate CallOk(s: Cpu, vcpu: Word) {
    && s.Ok()
    && s.regs[RDI] == vcpu
    && vcpu % 8 == 0 && s.Rsp() % 8 == 0
    && vcpu + BLOCK + 8 < TWO64
    && BLOCK <= s.Rsp() && s.Rsp() + 8 < TWO64
    && (vcpu + BLOCK + 8 <= s.Rsp() - BLOCK || s.Rsp() + 8 <= vcpu)
  }

  /** Everything a guest may do before it exits: any register values, any memory outside the vCPU's
      first two fields and the host's saved frame. */
  datatype Guest = Guest(regs: seq<Word>, mem: Memory)

  ghost predicate Confined(before: Memory, g: Guest, vcpu: Word, rsp: Word) {
    && |g.regs| == COUNT
    && forall a: Word :: Inside(a, vcpu, vcpu + BLOCK + 8) || Inside(a, rsp - BLOCK, rsp + 8) ==>
                           Load(g.mem, a) == Load(before, a)
  }

  /** A VM exit loads RSP and RIP from the host-state area and leaves the other registers alone. */
  function VmExit(g: Guest, hostRsp: Word, hostRip: Word): Cpu
    requires |g.regs| == COUNT
  {
    Cpu(g.regs[RSP := hostRsp], g.mem, hostRip)
  }

  lemma ExecOne(i: Instr, s: Cpu)
    requires s.Ok() && InstrOk(i)
    ensures Exec([i], s) == Step(i, s)
  {
    assert [i][1..] == [];
    assert Exec([], Step(i, s)) == Step(i, s);
  }

  /** The entry half: the guest starts with exactly `guest_regs`; the host frame and the stack
      pointer to it are saved; no other memory changes. */
  lemma EntryEffect(s: Cpu, vcpu: Word)
    requires CallOk(s, vcpu)
    ensures ProgramOk(ENTRY)
    ensures EntryPost(s, vcpu, Exec(ENTRY, s))
  {
    SaveIsSlotwise();
    RestoreIsSlotwise();
    EntryHalf(SAVE, RESTORE, s, vcpu);
    assert ENTRY == SAVE + [StoreRsp(RDI, BLOCK), MovRsp(RDI)] + RESTORE;
  }

  ghost predicate EntryPost(s: Cpu, vcpu: Word, e: Cpu)
    requires CallOk(s, vcpu) && e.Ok()
  {
    && (forall j :: Named(j) ==> e.regs[j] == Slot(s.mem, vcpu, j))
    && Block(e.mem, vcpu) == Block(s.mem, vcpu)
    && Block(e.mem, s.Rsp() - BLOCK) == AfterExit(Block(s.mem, s.Rsp() - BLOCK), s.regs)
    && Load(e.mem, vcpu + BLOCK) == s.Rsp() - BLOCK
    && (forall a: Word :: Outside(a, vcpu + BLOCK, vcpu + BLOCK + 8) && Outside(a, s.Rsp() - BLOCK, s.Rsp()) ==>
                            Load(e.mem, a) == Load(s.mem, a))
  }

  lemma EntrySteps(save: seq<Instr>, restore: seq<Instr>, store: Instr, mov: Instr, s: Cpu)
    requires ProgramOk(save) && ProgramOk(restore) && InstrOk(store) && InstrOk(mov) && s.Ok()
    ensures ProgramOk(save + [store, mov] + restore)
    ensures Exec(save + [store, mov] + restore, s) == Exec(restore, Step(mov, Step(store, Exec(save, s))))
  {
    ExecConcat(save + [store, mov], restore, s);
    ExecConcat(save, [store, mov], s);
    assert [store] + [mov] == [store, mov];
    var a := Exec(save, s);
    ExecConcat([store], [mov], a);
    ExecOne(store, a);
    ExecOne(mov, Step(store, a));
  }

  /** Storing RSP in `host_stack_top` touches neither the saved frame nor `guest_regs`. */
  lemma StoreEffect(s: Cpu, a: Cpu, vcpu: Word)
    requires CallOk(s, vcpu) && a.Ok() && a.regs == s.regs[RSP := s.Rsp() - BLOCK]
    requires SameOutside(s.mem, a.mem, s.Rsp() - BLOCK, s.Rsp())
    ensures var b := Step(StoreRsp(RDI, BLOCK), a);
            && b.regs == a.regs
            && Load(b.mem, vcpu + BLOCK) == s.Rsp() - BLOCK
            && Block(b.mem, s.Rsp() - BLOCK) == Block(a.mem, s.Rsp() - BLOCK)
            && Block(b.mem, vcpu) == Block(s.mem, vcpu)
            && (forall x: Word ::
                  Outside(x, vcpu + BLOCK, vcpu + BLOCK + 8) && Outside(x, s.Rsp() - BLOCK, s.Rsp()) ==>
                    Load(b.mem, x) == Load(s.mem, x))
  {
  }

  lemma EntryHalf(save: seq<Instr>, restore: seq<Instr>, s: Cpu, vcpu: Word)
    requires IsSave(save) && ProgramOk(save) && IsRestore(restore) && ProgramOk(restore)
    requires CallOk(s, vcpu)
    ensures var p := save + [StoreRsp(RDI, BLOCK), MovRsp(RDI)] + restore;
            ProgramOk(p) && EntryPost(s, vcpu, Exec(p, s))
  {
    EntrySteps(save, restore, StoreRsp(RDI, BLOCK), MovRsp(RDI), s);
    SaveEffect(save, s);
    var a := Exec(save, s);
    StoreEffect(s, a, vcpu);
    var b := Step(StoreRsp(RDI, BLOCK), a);
    RestoreEffect(restore, Step(MovRsp(RDI), b));
  }

  /** The exit half, entered with RSP at `vcpu + 128`. */
  ghost predicate ExitPre(x: Cpu, vcpu: Word, frame: Word) {
    && x.Ok() && vcpu + BLOCK + 8 < TWO64 && x.Rsp() == vcpu + BLOCK
    && Load(x.mem, vcpu + BLOCK) == frame
    && frame + BLOCK + 8 < TWO64 && (frame + BLOCK + 8 <= vcpu || vcpu + BLOCK + 8 <= frame)
  }

  ghost predicate ExitPost(x: Cpu, vcpu: Word, frame: Word, f: Cpu)
    requires ExitPre(x, vcpu, frame) && f.Ok()
  {
    && (forall j :: Named(j) ==> f.regs[j] == Slot(x.mem, frame, j))
    && f.Rsp() == frame + BLOCK + 8
    && f.rip == Load(x.mem, frame + BLOCK)
    && Block(f.mem, vcpu) == AfterExit(Block(x.mem, vcpu), x.regs)
    && SameOutside(x.mem, f.mem, vcpu, vcpu + BLOCK)
  }

  lemma ExitEffect(x: Cpu, vcpu: Word, frame: Word)
    requires ExitPre(x, vcpu, frame)
    ensures ProgramOk(EXIT) && ExitPost(x, vcpu, frame, Exec(EXIT, x))
  {
    SaveIsSlotwise();
    RestoreIsSlotwise();
    ExitHalf(SAVE, RESTORE, x, vcpu, frame);
    assert EXIT == SAVE + [LoadRsp(BLOCK)] + RESTORE + [Ret];
  }

  lemma ExitSteps(save: seq<Instr>, restore: seq<Instr>, load: Instr, ret: Instr, x: Cpu)
    requires ProgramOk(save) && ProgramOk(restore) && InstrOk(load) && InstrOk(ret) && x.Ok()
    ensures ProgramOk(save + [load] + restore + [ret])
    ensures Exec(save + [load] + restore + [ret], x) == Step(ret, Exec(restore, Step(load, Exec(save, x))))
  {
    ExecConcat(save + [load] + restore, [ret], x);
    ExecConcat(save + [load], restore, x);
    ExecConcat(save, [load], x);
    ExecOne(load, Exec(save, x));
    ExecOne(ret, Exec(restore, Step(load, Exec(save, x))));
  }

  lemma ExitHalf(save: seq<Instr>, restore: seq<Instr>, x: Cpu, vcpu: Word, frame: Word)
    requires IsSave(save) && ProgramOk(save) && IsRestore(restore) && ProgramOk(restore)
    requires ExitPre(x, vcpu, frame)
    ensures var p := save + [LoadRsp(BLOCK)] + restore + [Ret];
            ProgramOk(p) && ExitPost(x, vcpu, frame, Exec(p, x))
  {
    ExitSteps(save, restore, LoadRsp(BLOCK), Ret, x);
    SaveEffect(save, x);
    var b := Step(LoadRsp(BLOCK), Exec(save, x));
    assert b.Rsp() == frame;
    RestoreEffect(restore, b);
  }

  /** What a confined guest leaves as the entry put it: `host_stack_top`, `guest_regs`, the host's frame and the
      return address above it. */
  lemma GuestLeavesHost(s: Cpu, vcpu: Word, e: Cpu, g: Guest)
    requires CallOk(s, vcpu) && e.Ok() && EntryPost(s, vcpu, e) && Confined(e.mem, g, vcpu, s.Rsp())
    ensures Load(g.mem, vcpu + BLOCK) == s.Rsp() - BLOCK
    ensures Block(g.mem, vcpu) == Block(s.mem, vcpu)
    ensures forall j :: Named(j) ==> Slot(g.mem, s.Rsp() - BLOCK, j) == s.regs[j]
    ensures Load(g.mem, s.Rsp()) == Load(s.mem, s.Rsp())
  {
    var frame: Word := s.Rsp() - BLOCK;
    assert forall k :: 0 <= k < COUNT ==> Slot(g.mem, vcpu, k) == Slot(e.mem, vcpu, k);
    forall j | Named(j) ensures Slot(g.mem, frame, j) == s.regs[j] {
      assert Slot(g.mem, frame, j) == Slot(e.mem, frame, j) == Block(e.mem, frame)[j];
    }
  }

  /** One VM entry and exit, for every memory, every host register file and every confined guest,
      given that HOST_RSP is the address of `host_stack_top`: the guest starts with `guest_regs`; on
      return `guest_regs` holds what the guest left, with the RSP slot untouched; the host's fifteen
      registers are back, RSP has popped the return address, and control is at that address; memory
      differs from what the guest left only in `guest_regs`. */
  lemma WorldSwitchCorrect(s: Cpu, vcpu: Word, g: Guest, hostRsp: Word, hostRip: Word)
    requires CallOk(s, vcpu) && ProgramOk(ENTRY)
    requires Confined(Exec(ENTRY, s).mem, g, vcpu, s.Rsp())
    requires hostRsp == vcpu + BLOCK
    ensures ProgramOk(EXIT)
    ensures EntryPost(s, vcpu, Exec(ENTRY, s))
    ensures var f := Exec(EXIT, VmExit(g, hostRsp, hostRip));
            && Block(f.mem, vcpu) == AfterExit(Block(s.mem, vcpu), g.regs)
            && (forall j :: Named(j) ==> f.regs[j] == s.regs[j])
            && f.Rsp() == s.Rsp() + 8
            && f.rip == Load(s.mem, s.Rsp())
            && SameOutside(g.mem, f.mem, vcpu, vcpu + BLOCK)
  {
    EntryEffect(s, vcpu);
    var e := Exec(ENTRY, s);
    var x := VmExit(g, hostRsp, hostRip);
    var frame: Word := s.Rsp() - BLOCK;
    GuestLeavesHost(s, vcpu, e, g);
    ExitEffect(x, vcpu, frame);
    assert AfterExit(Block(g.mem, vcpu), x.regs) == AfterExit(Block(s.mem, vcpu), g.regs);
  }

  /** The guest resumes where it stopped: if the host leaves `guest_regs` alone between two entries,
      the second one starts with the registers of the first exit, whatever stack it is made from. */
  lemma GuestResumesWhereItStopped(s: Cpu, vcpu: Word, g: Guest, hostRip: Word, s2: Cpu)
    requires CallOk(s, vcpu) && CallOk(s2, vcpu) && ProgramOk(ENTRY) && ProgramOk(EXIT)
    requires Confined(Exec(ENTRY, s).mem, g, vcpu, s.Rsp())
    requires Block(s2.mem, vcpu) == Block(Exec(EXIT, VmExit(g, vcpu + BLOCK, hostRip)).mem, vcpu)
    ensures forall j :: Named(j) ==> Exec(ENTRY, s2).regs[j] == g.regs[j]
  {
    WorldSwitchCorrect(s, vcpu, g, vcpu + BLOCK, hostRip);
    EntryEffect(s2, vcpu);
    forall j | Named(j) ensures Slot(s2.mem, vcpu, j) == g.regs[j] {
      assert Slot(s2.mem, vcpu, j) == Block(s2.mem, vcpu)[j];
    }
  }
}
