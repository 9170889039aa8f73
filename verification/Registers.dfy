/** The general-purpose register block of a vCPU: sixteen words in opcode-encoding order, whose
    slot 4 (RSP) is padding. Models `src/regs/mod.rs`, `src/regs/accessors.rs` and `src/regs/diff.rs`. */
module Registers {

  const TWO32 := 0x1_0000_0000
  const TWO64 := 0x1_0000_0000_0000_0000

  /** A 64-bit register value. */
  type Word = x: int | 0 <= x < TWO64

  const RAX := 0
  const RCX := 1
  const RDX := 2
  const RBX := 3
  const RSP := 4
  const RDI := 7
  const COUNT := 16

  /** An index that `get_reg_of_index` and `set_reg_of_index` accept; they panic on any other. */
  predicate Named(i: int) {
    0 <= i < COUNT && i != RSP
  }

  // ---------------------------------------------------------------------------------------------
  // Whole-register state: what world switches and setters do to the sixteen slots
  // ---------------------------------------------------------------------------------------------

  /** What one register-block operation writes: a VM exit stores fifteen registers and skips the
      padding slot; a setter of any width replaces the value of one named register. */
  datatype BlockOp<T> = Exit(guest: seq<T>) | Set(index: int, value: T)

  predicate OpOk<T>(op: BlockOp<T>) {
    match op
    case Exit(guest) => |guest| == COUNT
    case Set(index, _) => Named(index)
  }

  /** The block after a VM exit that found the guest registers `guest`. */
  function AfterExit<T>(block: seq<T>, guest: seq<T>): (r: seq<T>)
    requires |block| == |guest| == COUNT
  {
    guest[RSP := block[RSP]]
  }

  function ApplyOps<T>(block: seq<T>, ops: seq<BlockOp<T>>): (r: seq<T>)
    requires |block| == COUNT
    requires forall i :: 0 <= i < |ops| ==> OpOk(ops[i])
    ensures |r| == COUNT
    decreases |ops|
  {
    if ops == [] then block
    else
      var before := ApplyOps(block, ops[..|ops| - 1]);
      var last := ops[|ops| - 1];
      assert OpOk(last);
      match last
      case Exit(guest) => AfterExit(before, guest)
      case Set(index, value) => before[index := value]
  }

  /** No sequence of world switches and setters ever reaches the padding slot. */
  lemma {:induction false} PaddingSlotKept<T>(block: seq<T>, ops: seq<BlockOp<T>>)
    requires |block| == COUNT
    requires forall i :: 0 <= i < |ops| ==> OpOk(ops[i])
    ensures ApplyOps(block, ops)[RSP] == block[RSP]
    decreases |ops|
  {
    if ops != [] {
      PaddingSlotKept(block, ops[..|ops| - 1]);
    }
  }

  // ---------------------------------------------------------------------------------------------
  // GeneralRegistersDiff
  // ---------------------------------------------------------------------------------------------

  /** The loop of `GeneralRegistersDiff::fmt`: the indices it reports, in order. */
  method ChangedRegisters<T(==)>(old_: seq<T>, new_: seq<T>) returns (changed: seq<int>)
    requires |old_| == |new_| == COUNT
    ensures forall i :: i in changed <==> Named(i) && old_[i] != new_[i]
    ensures forall j, k :: 0 <= j < k < |changed| ==> changed[j] < changed[k]
    ensures changed == [] && old_[RSP] == new_[RSP] <==> old_ == new_
  {
    changed := [];
    for i := 0 to COUNT
      invariant forall k :: k in changed <==> 0 <= k < i && k != RSP && old_[k] != new_[k]
      invariant forall j :: 0 <= j < |changed| ==> 0 <= changed[j] < i
      invariant forall j, k :: 0 <= j < k < |changed| ==> changed[j] < changed[k]
    {
      if i == RSP {
        continue;
      }
      if old_[i] != new_[i] {
        changed := changed + [i];
      }
    }
    if changed == [] && old_[RSP] == new_[RSP] {
      forall i | 0 <= i < COUNT ensures old_[i] == new_[i] {
        assert i !in changed;
      }
      assert old_ == new_;
    }
    if changed != [] {
      assert changed[0] in changed;
    }
  }

  /** Between any two states that one vCPU's block passes through, `is_same` (structural equality)
      holds exactly when no register the diff looks at has changed: the padding never decides. */
  lemma IsSameIffNothingReported<T>(block: seq<T>, ops: seq<BlockOp<T>>, more: seq<BlockOp<T>>)
    requires |block| == COUNT
    requires forall i :: 0 <= i < |ops| ==> OpOk(ops[i])
    requires forall i :: 0 <= i < |more| ==> OpOk(more[i])
    ensures var b0 := ApplyOps(block, ops);
            var b1 := ApplyOps(b0, more);
            b0 == b1 <==> forall i :: Named(i) ==> b0[i] == b1[i]
  {
    PaddingSlotKept(ApplyOps(block, ops), more);
  }

  // ---------------------------------------------------------------------------------------------
  // Sub-registers
  // ---------------------------------------------------------------------------------------------

  /** The four macro instantiations: eax-like, ax-like, al-like and ah-like names. */
  datatype Slice = Dword | Word16 | LowByte | HighByte {
    /** One more than the largest value of the accessor's `u32`, `u16` or `u8`. */
    function Bound(): nat {
      match this
      case Dword => TWO32
      case Word16 => 0x1_0000
      case LowByte => 0x100
      case HighByte => 0x100
    }
  }

  /** Getter: shift down by the start bit, then mask to the width. */
  function GetSlice(reg: Word, s: Slice): (r: nat) {
    match s
    case Dword => reg % TWO32
    case Word16 => reg % 0x1_0000
    case LowByte => reg % 0x100
    case HighByte => reg / 0x100 % 0x100
  }

  /** Setter: the 32-bit one replaces the register; the others clear the slice and put `value` there. */
  function SetSlice(reg: Word, s: Slice, value: nat): (r: Word)
    requires value < s.Bound()
  {
    match s
    case Dword => value
    case Word16 => reg / 0x1_0000 * 0x1_0000 + value
    case LowByte => reg / 0x100 * 0x100 + value
    case HighByte => reg / 0x1_0000 * 0x1_0000 + value * 0x100 + reg % 0x100
  }

  /** A setter call on a whole register or on one slice of it. */
  datatype Part = Whole | Part(slice: Slice)
  datatype Write = Write(reg: int, part: Part, value: Word) {
    predicate Ok() { Named(reg) && (part.Part? ==> value < part.slice.Bound()) }
  }

  function ApplyWrite(regs: seq<Word>, w: Write): (r: seq<Word>)
    requires |regs| == COUNT && w.Ok()
    ensures |r| == COUNT
  {
    regs[w.reg := if w.part.Whole? then w.value else SetSlice(regs[w.reg], w.part.slice, w.value)]
  }

  function ApplyWrites(regs: seq<Word>, ws: seq<Write>): (r: seq<Word>)
    requires |regs| == COUNT
    requires forall i :: 0 <= i < |ws| ==> ws[i].Ok()
    ensures |r| == COUNT
    decreases |ws|
  {
    if ws == [] then regs else ApplyWrite(ApplyWrites(regs, ws[..|ws| - 1]), ws[|ws| - 1])
  }

  /** The regions that accessors treat as a unit: bits 7:0, 15:8, 31:16 and 63:32. */
  datatype Lane = Bits7To0 | Bits15To8 | Bits31To16 | Bits63To32

  function LaneOf(reg: Word, l: Lane): nat {
    match l
    case Bits7To0 => reg % 0x100
    case Bits15To8 => reg / 0x100 % 0x100
    case Bits31To16 => reg / 0x1_0000 % 0x1_0000
    case Bits63To32 => reg / TWO32
  }

  datatype Deposit = Keeps | Puts(content: nat)

  /** Reference for the x86-64 rule: what a write leaves in a lane of its register, if it writes the
      lane at all. A 32-bit write also zeroes the upper half. */
  function Deposited(w: Write, l: Lane): Deposit {
    match w.part
    case Whole => Puts(LaneOf(w.value, l))
    case Part(Dword) => if l == Bits63To32 then Puts(0) else Puts(LaneOf(w.value, l))
    case Part(Word16) => if l == Bits7To0 || l == Bits15To8 then Puts(LaneOf(w.value, l)) else Keeps
    case Part(LowByte) => if l == Bits7To0 then Puts(w.value) else Keeps
    case Part(HighByte) => if l == Bits15To8 then Puts(w.value) else Keeps
  }

  /** The lane's last writer decides it; with no writer the initial register does. */
  function LastDeposit(initial: nat, ws: seq<Write>, reg: int, l: Lane): nat
    decreases |ws|
  {
    if ws == [] then initial
    else
      var w := ws[|ws| - 1];
      if w.reg == reg && Deposited(w, l).Puts? then Deposited(w, l).content
      else LastDeposit(initial, ws[..|ws| - 1], reg, l)
  }

  /** One slice write, lane by lane. */
  lemma SliceWriteByLanes(reg: Word, s: Slice, value: Word, l: Lane)
    requires value < s.Bound()
    ensures var d := Deposited(Write(0, Part(s), value), l);
            LaneOf(SetSlice(reg, s, value), l) == if d.Puts? then d.content else LaneOf(reg, l)
  {
    var u, m, h, b := LaneOf(reg, Bits63To32), LaneOf(reg, Bits31To16), LaneOf(reg, Bits15To8), LaneOf(reg, Bits7To0);
    LanesFixReads(reg, s);
    match s {
      case Dword =>
      case Word16 =>
        SetAssembled(u, m, h, b, value / 0x100, value % 0x100);
        LanesOfSum(u, m, value / 0x100, value % 0x100);
      case LowByte =>
        SetAssembled(u, m, h, b, 0, value);
        LanesOfSum(u, m, h, value);
      case HighByte =>
        SetAssembled(u, m, h, b, value, 0);
        LanesOfSum(u, m, value, b);
    }
  }

  /** The setters on a register given by its lanes. */
  lemma SetAssembled(u: nat, m: nat, h: nat, b: nat, x: nat, y: nat)
    requires u < TWO32 && m < 0x1_0000 && h < 0x100 && b < 0x100 && x < 0x100 && y < 0x100
    ensures var w := Assemble(u, m, h, b);
            && w < TWO64
            && SetSlice(w, Word16, 0x100 * x + y) == Assemble(u, m, x, y)
            && SetSlice(w, LowByte, y) == Assemble(u, m, h, y)
            && SetSlice(w, HighByte, x) == Assemble(u, m, x, b)
  {
    var w := Assemble(u, m, h, b);
    assert w / 0x1_0000 == u * 0x1_0000 + m;
    assert w / 0x100 == u * 0x100_0000 + m * 0x100 + h;
  }

  function Assemble(u: nat, m: nat, h: nat, b: nat): (w: nat) {
    u * TWO32 + m * 0x1_0000 + h * 0x100 + b
  }

  lemma LanesOfSum(u: nat, m: nat, h: nat, b: nat)
    requires u < TWO32 && m < 0x1_0000 && h < 0x100 && b < 0x100
    ensures var w := Assemble(u, m, h, b);
            && w < TWO64
            && LaneOf(w, Bits63To32) == u && LaneOf(w, Bits31To16) == m
            && LaneOf(w, Bits15To8) == h && LaneOf(w, Bits7To0) == b
            && w % 0x1_0000 == h * 0x100 + b
  {
    var w := Assemble(u, m, h, b);
    assert w / 0x100 == u * 0x100_0000 + m * 0x100 + h;
    assert w / 0x1_0000 == u * 0x1_0000 + m;
  }

  /** Over any sequence of setter calls, every lane of every register holds what its last writer
      put there; a register or lane that nobody wrote, and the padding slot, hold their old bits. */
  lemma {:induction false} WritesFollowLastWriter(regs: seq<Word>, ws: seq<Write>, reg: int, l: Lane)
    requires |regs| == COUNT && 0 <= reg < COUNT
    requires forall i :: 0 <= i < |ws| ==> ws[i].Ok()
    ensures LaneOf(ApplyWrites(regs, ws)[reg], l) == LastDeposit(LaneOf(regs[reg], l), ws, reg, l)
    decreases |ws|
  {
    if ws != [] {
      var w, init := ws[|ws| - 1], ws[..|ws| - 1];
      WritesFollowLastWriter(regs, init, reg, l);
      if w.reg == reg && w.part.Part? {
        SliceWriteByLanes(ApplyWrites(regs, init)[reg], w.part.slice, w.value, l);
      }
    }
  }

  lemma LanesAssemble(a: Word)
    ensures a == Assemble(LaneOf(a, Bits63To32), LaneOf(a, Bits31To16), LaneOf(a, Bits15To8), LaneOf(a, Bits7To0))
    ensures LaneOf(a, Bits63To32) < TWO32
  {
    assert a / 0x100 / 0x100 == a / 0x1_0000;
    assert a / 0x1_0000 / 0x1_0000 == a / TWO32;
  }

  /** The lanes fix the register, so the lemma above fixes what every getter returns. */
  lemma LanesFixReads(a: Word, s: Slice)
    ensures var u, m, h, b := LaneOf(a, Bits63To32), LaneOf(a, Bits31To16), LaneOf(a, Bits15To8), LaneOf(a, Bits7To0);
            && a == Assemble(u, m, h, b)
            && u < TWO32 && m < 0x1_0000 && h < 0x100 && b < 0x100
            && GetSlice(a, s) == match s
                                 case Dword => Assemble(0, m, h, b)
                                 case Word16 => Assemble(0, 0, h, b)
                                 case LowByte => b
                                 case HighByte => h
  {
    LanesAssemble(a);
  }

  // ---------------------------------------------------------------------------------------------
  // EDX:EAX
  // ---------------------------------------------------------------------------------------------

  /** `VmxVcpu::read_edx_eax`, also what `GeneralRegisters::get_edx_eax` and `run` compute. */
  function ReadEdxEax(regs: seq<Word>): (r: Word)
    requires |regs| == COUNT
  {
    GetSlice(regs[RDX], Dword) * TWO32 + GetSlice(regs[RAX], Dword)
  }

  /** `VmxVcpu::write_edx_eax`. */
  function WriteEdxEax(regs: seq<Word>, val: Word): (r: seq<Word>)
    requires |regs| == COUNT
    ensures |r| == COUNT
  {
    regs[RAX := val % TWO32][RDX := val / TWO32]
  }

  /** EDX:EAX is the low half of RDX above that of RAX. Writing it acts as the two 32-bit setters and reading it
      back is the identity; reading and writing back is the identity exactly on registers that already fit in 32
      bits. */
  lemma EdxEaxRoundTrip(regs: seq<Word>, val: Word)
    requires |regs| == COUNT
    ensures ReadEdxEax(regs) == regs[RDX] % 0x1_0000_0000 * 0x1_0000_0000 + regs[RAX] % 0x1_0000_0000
    ensures ReadEdxEax(WriteEdxEax(regs, val)) == val
    ensures WriteEdxEax(regs, val)
            == ApplyWrite(ApplyWrite(regs, Write(RAX, Part(Dword), val % TWO32)), Write(RDX, Part(Dword), val / TWO32))
    ensures WriteEdxEax(regs, ReadEdxEax(regs)) == regs <==> regs[RAX] < TWO32 && regs[RDX] < TWO32
  {
  }

  // ---------------------------------------------------------------------------------------------
  // The object
  // ---------------------------------------------------------------------------------------------

  /** `GeneralRegisters` with its setters; the padding slot has none. */
  class GeneralRegisters {
    var words: seq<Word>

    ghost predicate Valid()
      reads this
    {
      |words| == COUNT
    }

    /** `default`. */
    constructor ()
      ensures Valid() && words == seq(COUNT, _ => 0)
    {
      words := seq(COUNT, _ => 0);
    }

    /** `get_reg_of_index`; `ok` false is the panic. */
    method GetRegOfIndex(index: nat) returns (ok: bool, value: Word)
      requires Valid()
      ensures ok <==> Named(index)
      ensures ok ==> value == words[index]
    {
      ok, value := false, 0;
      if index < COUNT && index != RSP {
        ok, value := true, words[index];
      }
    }

    /** `set_reg_of_index`; a refused index changes nothing. */
    method SetRegOfIndex(index: nat, value: Word) returns (ok: bool)
      requires Valid()
      modifies this
      ensures Valid() && (ok <==> Named(index))
      ensures words == if ok then ApplyWrite(old(words), Write(index, Whole, value)) else old(words)
    {
      ok := index < COUNT && index != RSP;
      if ok {
        words := words[index := value];
      }
    }

    /** Any of the macro's setters. */
    method SetSub(index: nat, s: Slice, value: Word)
      requires Valid() && Named(index) && value < s.Bound()
      modifies this
      ensures Valid() && words == ApplyWrite(old(words), Write(index, Part(s), value))
    {
      if s == Dword {
        words := words[index := value];
      } else {
        words := words[index := SetSlice(words[index], s, value)];
      }
    }
  }
}
