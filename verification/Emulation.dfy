/** What exit handling does to the guest's registers and instruction pointer. */
module Emulation {
  import opened Wrappers
  import opened Bits
  import opened ControlRegisters
  import opened Interruption
  import opened Registers
  import opened VcpuModel
  import opened VcpuRuns
  import opened ModeRuns

  // ---------------------------------------------------------------------------------------------
  // Registers and instruction pointer
  // ---------------------------------------------------------------------------------------------

  lemma {:induction false} PaddingKept(c: Caps, tr: seq<Vcpu>, ops: seq<Op>, k: nat)
    requires IsRun(c, tr, ops) && k <= |ops| && |tr[0].regs| == COUNT
    ensures |tr[k].regs| == COUNT && tr[k].regs[RSP] == tr[0].regs[RSP]
  {
    if k > 0 {
      PaddingKept(c, tr, ops, k - 1);
      RegsOfStep(c, tr[k - 1], ops[k - 1], tr[k]);
    }
  }

  /** The padding slot keeps its value over every run, register setters of the host included, so a difference
      that `is_same` sees between any two states is one in a register that the diff reports. */
  lemma PaddingOverRuns(c: Caps, tr: seq<Vcpu>, ops: seq<Op>, j: nat, k: nat)
    requires IsRun(c, tr, ops) && j <= |ops| && k <= |ops| && |tr[0].regs| == COUNT
    ensures |tr[j].regs| == |tr[k].regs| == COUNT && tr[j].regs[RSP] == tr[k].regs[RSP] == tr[0].regs[RSP]
    ensures tr[j].regs == tr[k].regs <==> forall i :: Named(i) ==> tr[j].regs[i] == tr[k].regs[i]
  {
    PaddingKept(c, tr, ops, j);
    PaddingKept(c, tr, ops, k);
  }

  /** XCR0 and IA32_XSS with the guest's values in force, as far as the processor has them. */
  function GuestPhys(v: Vcpu): Phys {
    Phys(if v.xstate.xsave then v.xstate.guestXcr0 else v.phys.xcr0,
         if v.xstate.xsave && v.xstate.xsaves then v.xstate.guestXss else v.phys.xss)
  }

  /** What the processor answers to the CPUID that the handler executes: leaf 0xD under the guest's extended state,
      every other leaf under the host's. */
  function RawAnswer(v: Vcpu, table: CpuidTable): CpuidResult
    requires |v.regs| == COUNT
  {
    table.Of(if v.regs[RAX] % 0x1_0000_0000 == 0xd then GuestPhys(v) else v.phys)
  }

  /** The four characters of `s` from `i` on, as a little-endian word. */
  function FourChars(s: string, i: nat): nat
    requires i + 4 <= |s|
  {
    s[i] as nat + 0x100 * s[i + 1] as nat + 0x1_0000 * s[i + 2] as nat + 0x100_0000 * s[i + 3] as nat
  }

  const VENDOR := "RVMRVMRVMRVM"

  /** The answer the guest gets for each leaf, bit by bit. Leaf 1 hides VMX (ECX bit 5) and announces a hypervisor
      (ECX bit 31); it also clears bit 7 of EAX. Leaf 7 with all of RCX zero hides WAITPKG and LA57 (ECX bits 5 and
      16). Leaf 0x16 gives 3000 MHz where the processor gives nothing. The hypervisor leaves carry the vendor. */
  predicate AnswerRight(leaf: nat, rcx: Word, raw: CpuidResult, r: CpuidResult) {
    if leaf == 1 then
      && r == raw.(eax := r.eax, ecx := r.ecx)
      && OneBits(r.ecx) == (OneBits(raw.ecx) - {5}) + {31} && OneBits(r.eax) == OneBits(raw.eax) - {7}
    else if leaf == 7 && rcx == 0 then
      r == raw.(ecx := r.ecx) && OneBits(r.ecx) == OneBits(raw.ecx) - {5, 16}
    else if leaf == 0x16 && raw.eax == 0 then r == raw.(eax := 3000)
    else if leaf == 0x4000_0000 then
      && r.eax == 0x4000_0001
      && r.ebx == FourChars(VENDOR, 0) && r.ecx == FourChars(VENDOR, 4) && r.edx == FourChars(VENDOR, 8)
    else if leaf == 0x4000_0001 then r == CpuidResult(0, 0, 0, 0)
    else r == raw
  }

  /** What the guest finds in its registers after an exit was handled. */
  predicate RegistersAsEmulated(v: Vcpu, exit: Exit, w: Vcpu)
    requires |v.regs| == |w.regs| == COUNT
  {
    match exit
    case MsrRead(apic) =>
      && apic.Some? && w.regs[RAX] == apic.value % 0x1_0000_0000 && w.regs[RDX] == apic.value / 0x1_0000_0000
      && SameRegsBut(v.regs, w.regs, {RAX, RDX})
    case Cpuid(table) =>
      && w.regs[RAX] < TWO32 && w.regs[RBX] < TWO32 && w.regs[RCX] < TWO32 && w.regs[RDX] < TWO32
      && AnswerRight(v.regs[RAX] % 0x1_0000_0000, v.regs[RCX], RawAnswer(v, table),
                     CpuidResult(w.regs[RAX], w.regs[RBX], w.regs[RCX], w.regs[RDX]))
      && SameRegsBut(v.regs, w.regs, {RAX, RBX, RCX, RDX})
    case _ => w.regs == v.regs
  }

  predicate SameRegsBut(a: seq<Word>, b: seq<Word>, changed: set<int>)
    requires |a| == |b| == COUNT
  {
    forall j :: 0 <= j < COUNT && j !in changed ==> a[j] == b[j]
  }

  /** The lengths of the instructions the handler emulates; other exits leave RIP where it is. */
  function EmulatedLength(exit: Exit): nat {
    match exit
    case CrAccessExit(_) => 3
    case Xsetbv => 3
    case Cpuid(_) => 2
    case MsrRead(_) => 2
    case MsrWrite(_) => 2
    case _ => 0
  }

  // ---------------------------------------------------------------------------------------------
  // CPUID
  // ---------------------------------------------------------------------------------------------

  lemma HalfOfCleared(n: U32, w: nat)
    requires w > 0
    ensures ClearBit(n, 2 * w) / 2 == ClearBit(n / 2, w) && ClearBit(n, 2 * w) % 2 == n % 2
  {
    HalfOfQuotient(n, w);
  }

  lemma HalfOfQuotient(n: nat, w: nat)
    requires w > 0
    ensures n / (2 * w) == n / 2 / w
  {
    var q, r, b := n / 2 / w, n / 2 % w, n % 2;
    assert n / 2 == w * q + r;
    assert n == (2 * w) * q + (2 * r + b) && 0 <= 2 * r + b < 2 * w;
    QuotientIs(n, 2 * w, q, 2 * r + b);
  }

  lemma QuotientIs(n: nat, d: nat, q: nat, r: nat)
    requires 0 <= r < d && n == d * q + r
    ensures n / d == q
  {
    assert n == d * (n / d) + n % d;
    SameQuotient(d, n / d, n % d, q, r);
  }

  lemma {:induction false} SameQuotient(d: nat, p: nat, s: nat, q: nat, r: nat)
    requires s < d && r < d && d * p + s == d * q + r
    ensures p == q
    decreases p
  {
    if p > 0 {
      assert d * p == d * (p - 1) + d;
    }
    if q > 0 {
      assert d * q == d * (q - 1) + d;
    }
    if p > 0 && q > 0 {
      SameQuotient(d, p - 1, s, q - 1, r);
    }
  }

  /** Clearing the bit of weight 2^k clears bit k and no other. */
  lemma {:induction false} ClearedBits(n: U32, k: nat, i: nat)
    ensures HasBit(ClearBit(n, PowerOf2(k)), i) <==> HasBit(n, i) && i != k
    decreases i
  {
    if k == 0 {
      if i > 0 {
        assert ClearBit(n, 1) / 2 == n / 2;
      }
    } else {
      HalfOfCleared(n, PowerOf2(k - 1));
      if i > 0 {
        ClearedBits(n / 2, k - 1, i - 1);
      }
    }
  }

  /** Adding 2^k to a smaller number sets bit k. */
  lemma {:induction false} AddedBits(n: nat, k: nat, i: nat)
    requires n < PowerOf2(k)
    ensures HasBit(n + PowerOf2(k), i) <==> HasBit(n, i) || i == k
    decreases i
  {
    if k == 0 {
      if i > 0 {
        NoBits(i - 1);
      }
    } else {
      assert (n + PowerOf2(k)) / 2 == n / 2 + PowerOf2(k - 1) && (n + PowerOf2(k)) % 2 == n % 2;
      if i > 0 {
        AddedBits(n / 2, k - 1, i - 1);
      }
    }
  }

  /** A number of at least 2^k that is below 2^(k+1) has bit k. */
  lemma {:induction false} TopBit(n: nat, k: nat)
    requires PowerOf2(k) <= n < 2 * PowerOf2(k)
    ensures HasBit(n, k)
    decreases k
  {
    if k > 0 {
      assert PowerOf2(k - 1) <= n / 2 < 2 * PowerOf2(k - 1);
      TopBit(n / 2, k - 1);
    }
  }

  lemma Weights()
    ensures PowerOf2(5) == 0x20 && PowerOf2(7) == 0x80 && PowerOf2(16) == 0x1_0000 && PowerOf2(31) == 0x8000_0000
  {
    FourMoreBits(0);
    FourMoreBits(1);
    FourMoreBits(3);
    SixteenMoreBits(0);
    SixteenMoreBits(15);
    FourMoreBits(11);
    FourMoreBits(7);
  }

  lemma ClearedSet(n: U32, k: nat)
    ensures OneBits(ClearBit(n, PowerOf2(k))) == OneBits(n) - {k}
  {
    forall i | 0 <= i < 64 ensures HasBit(ClearBit(n, PowerOf2(k)), i) <==> HasBit(n, i) && i != k {
      ClearedBits(n, k, i);
    }
  }

  lemma SetTop(n: U32)
    ensures OneBits(if n < 0x8000_0000 then n + 0x8000_0000 else n) == OneBits(n) + {31}
  {
    Weights();
    if n < 0x8000_0000 {
      forall i | 0 <= i < 64 ensures HasBit(n + 0x8000_0000, i) <==> HasBit(n, i) || i == 31 {
        AddedBits(n, 31, i);
      }
    } else {
      TopBit(n, 31);
    }
  }

  lemma BitsCleared(n: U32)
    ensures OneBits(ClearBit(n, 0x20)) == OneBits(n) - {5}
    ensures OneBits(ClearBit(n, 0x80)) == OneBits(n) - {7}
    ensures OneBits(ClearBit(n, 0x1_0000)) == OneBits(n) - {16}
  {
    Weights();
    ClearedSet(n, 5);
    ClearedSet(n, 7);
    ClearedSet(n, 16);
  }

  lemma FeatureLeaf(rax: Word, rcx: Word, raw: CpuidResult)
    requires rax % 0x1_0000_0000 == 1
    ensures AnswerRight(1, rcx, raw, CpuidAnswer(rax, rcx, raw))
  {
    BitsCleared(raw.ecx);
    BitsCleared(raw.eax);
    SetTop(ClearBit(raw.ecx, 0x20));
  }

  lemma ExtendedFeatureLeaf(rax: Word, raw: CpuidResult)
    requires rax % 0x1_0000_0000 == 7
    ensures AnswerRight(7, 0, raw, CpuidAnswer(rax, 0, raw))
  {
    BitsCleared(raw.ecx);
    BitsCleared(ClearBit(raw.ecx, 0x20));
    assert OneBits(raw.ecx) - {5} - {16} == OneBits(raw.ecx) - {5, 16};
  }

  /** The rewriting of the processor's answer is right for every leaf, whatever the upper half of RAX. */
  lemma CpuidAnswersRight(rax: Word, rcx: Word, raw: CpuidResult)
    ensures AnswerRight(rax % 0x1_0000_0000, rcx, raw, CpuidAnswer(rax, rcx, raw))
  {
    if rax % 0x1_0000_0000 == 1 {
      FeatureLeaf(rax, rcx, raw);
    } else if rax % 0x1_0000_0000 == 7 && rcx == 0 {
      ExtendedFeatureLeaf(rax, raw);
    }
  }

  /** In particular leaf 7 hides WAITPKG and LA57 if and only if all 64 bits of RCX are zero, although the processor
      selects the sub-leaf by the lower 32 alone. */
  lemma CpuidLeaf7HidesIff(rax: Word, rcx: Word, raw: CpuidResult, i: nat)
    requires rax % 0x1_0000_0000 == 7 && i in {5, 16} && i in OneBits(raw.ecx)
    ensures i !in OneBits(CpuidAnswer(rax, rcx, raw).ecx) <==> rcx == 0
  {
    CpuidAnswersRight(rax, rcx, raw);
  }

  /** Leaf 1 means to hide machine checks but clears the bit in EAX, not in EDX, where the processor announces them.
      So they stay announced, and a guest is told a model number (bits 7:4 of EAX) smaller by 8 if and only if
      the processor's is 8 or more; stepping and the other fields of EAX are as the processor gave them. */
  lemma CpuidLeaf1Model(rax: Word, rcx: Word, raw: CpuidResult)
    requires rax % TWO32 == 1
    ensures var r, model := CpuidAnswer(rax, rcx, raw), raw.eax / 0x10 % 0x10;
            && r.edx == raw.edx && r.ebx == raw.ebx
            && r.eax / 0x10 % 0x10 == (if model >= 8 then model - 8 else model)
            && r.eax % 0x10 == raw.eax % 0x10 && r.eax / 0x100 == raw.eax / 0x100
  {
    var high, model, low := raw.eax / 0x100, raw.eax / 0x10 % 0x10, raw.eax % 0x10;
    assert raw.eax == 0x100 * high + 0x10 * model + low;
    assert raw.eax / 0x80 == 2 * high + model / 8;
    assert raw.eax / 0x80 % 2 == model / 8;
  }

  // ---------------------------------------------------------------------------------------------
  // The handler
  // ---------------------------------------------------------------------------------------------

  lemma RipIsSum(rip: Word, n: Length)
    ensures RipAfter(rip, n) == (rip + n) % 0x1_0000_0000_0000_0000
  {
  }

  lemma CpuidEmulates(v: Vcpu, table: CpuidTable)
    requires |v.regs| == COUNT
    ensures var w := HandleCpuid(v, table);
            && |w.regs| == COUNT && w.vmcs.rip == (v.vmcs.rip + 2) % 0x1_0000_0000_0000_0000
            && RegistersAsEmulated(v, Cpuid(table), w)
  {
    CpuidKeeps(v, table);
    RipIsSum(v.vmcs.rip, 2);
    CpuidAsks(v, table);
    CpuidAnswersRight(v.regs[RAX], v.regs[RCX], RawAnswer(v, table));
  }

  /** The CPUID instruction is executed under the state it should be, and its rewritten answer reaches the guest. */
  lemma CpuidAsks(v: Vcpu, table: CpuidTable)
    requires |v.regs| == COUNT
    ensures var w, r := HandleCpuid(v, table), CpuidAnswer(v.regs[RAX], v.regs[RCX], RawAnswer(v, table));
            w.regs == v.regs[RAX := r.eax][RBX := r.ebx][RCX := r.ecx][RDX := r.edx]
  {
    SwitchesKeep(v);
    SwitchesKeep(ToGuest(v));
    assert ToGuest(v).phys == GuestPhys(v);
  }

  lemma MovAdvances(c: Caps, v: Vcpu, q: Word)
    requires |v.regs| == COUNT
    ensures var (w, o) := HandleCr(c, v, q);
            o != NotHandled && w.regs == v.regs && (o == Handled ==> w.vmcs.rip == RipAfter(v.vmcs.rip, 3))
  {
  }

  lemma MovEmulates(c: Caps, v: Vcpu, q: Word)
    requires |v.regs| == COUNT
    ensures var (w, o) := HandleCr(c, v, q);
            && o != NotHandled && w.regs == v.regs
            && (o == Handled ==> w.vmcs.rip == (v.vmcs.rip + 3) % 0x1_0000_0000_0000_0000)
  {
    MovAdvances(c, v, q);
    RipIsSum(v.vmcs.rip, 3);
  }

  /** An exit that was handled leaves RIP behind the emulated instruction and changes only the registers
      that instruction writes; one that was not leaves the whole state alone. */
  predicate Emulated(v: Vcpu, exit: Exit, w: Vcpu, o: Outcome)
    requires |v.regs| == COUNT
  {
    && |w.regs| == COUNT
    && (o == NotHandled ==> w == v)
    && (o == Handled ==>
          && w.vmcs.rip == (v.vmcs.rip + EmulatedLength(exit)) % 0x1_0000_0000_0000_0000
          && RegistersAsEmulated(v, exit, w))
  }

  lemma HandlerEmulates(c: Caps, v: Vcpu, exit: Exit)
    requires |v.regs| == COUNT
    ensures Emulated(v, exit, Handle(c, v, exit).0, Handle(c, v, exit).1)
  {
    match exit
    case CrAccessExit(q) => MovEmulates(c, v, q);
    case Cpuid(table) => CpuidEmulates(v, table);
    case Xsetbv => XsetbvPanics(v);
    case MsrRead(apic) => MsrReadEmulates(c, v, apic);
    case MsrWrite(apicOk) => MsrWriteEmulates(c, v, apicOk);
    case _ => OthersEmulate(c, v, exit);
  }

  lemma OthersEmulate(c: Caps, v: Vcpu, exit: Exit)
    requires |v.regs| == COUNT && !exit.CrAccessExit? && !exit.Cpuid? && !exit.Xsetbv?
    requires !exit.MsrRead? && !exit.MsrWrite?
    ensures Emulated(v, exit, Handle(c, v, exit).0, Handle(c, v, exit).1)
  {
    RipIsSum(v.vmcs.rip, 0);
  }

  lemma MsrWriteEmulates(c: Caps, v: Vcpu, apicOk: bool)
    requires |v.regs| == COUNT
    ensures Emulated(v, MsrWrite(apicOk), Handle(c, v, MsrWrite(apicOk)).0, Handle(c, v, MsrWrite(apicOk)).1)
  {
    RipIsSum(v.vmcs.rip, 2);
  }

  lemma MsrReadEmulates(c: Caps, v: Vcpu, apic: Option<Word>)
    requires |v.regs| == COUNT
    ensures Emulated(v, MsrRead(apic), Handle(c, v, MsrRead(apic)).0, Handle(c, v, MsrRead(apic)).1)
  {
    RipIsSum(v.vmcs.rip, 2);
  }

  /** How each exit ends. XSETBV always panics: `handle_xsetbv` accepts no value. A control-register access is handled
      exactly when it is a MOV to CR0 or CR4, unless that turns paging on and the processor refuses the IA-32e
      control. An MSR access is the vCPU's own exactly in the x2APIC range, and ends as the local APIC says. */
  lemma HandlerOutcome(c: Caps, v: Vcpu, exit: Exit)
    requires |v.regs| == COUNT
    ensures var o := Handle(c, v, exit).1;
            var x2apic := 0x800 <= v.regs[RCX] % 0x1_0000_0000 <= 0x8ff;
            match exit
            case InterruptWindow => o == Handled
            case PreemptionTimer => o == Handled
            case Cpuid(_) => o == Handled
            case Xsetbv => o == Panicked
            case ApicAccess => o == Panicked
            case CrAccessExit(q) =>
              (o == Handled ==> MovTo(exit, 0) || MovTo(exit, 4)) && o != NotHandled
              && (MovTo(exit, 4) ==> o == Handled)
              && (MovTo(exit, 0) && 31 !in Operand(v.regs, v.vmcs.rsp, q) ==> o == Handled)
            case MsrRead(apic) => o == if !x2apic then NotHandled else if apic.Some? then Handled else Panicked
            case MsrWrite(ok) => o == if !x2apic then NotHandled else if ok then Handled else Panicked
            case _ => o == NotHandled
  {
    if exit.Xsetbv? {
      XsetbvPanics(v);
    }
  }

  /** The exit qualification of a control-register access decodes to the fields it was made of (section
      27.2.1 of Intel SDM Vol. 3C). */
  lemma CrAccessDecodes(cr: nat, kind: nat, lmsw: nat, gpr: nat, rest: nat)
    requires cr < 16 && kind < 4 && lmsw < 4 && gpr < 16 && rest < 0x10_0000_0000_0000
    ensures CrAccessOf(cr + 16 * kind + 64 * lmsw + 256 * gpr + 4096 * rest) == CrAccess(cr, kind, gpr)
  {
    var y := gpr + 16 * rest;
    LowByteSplits(cr, kind, lmsw, y);
    assert y % 16 == gpr;
  }

  lemma LowByteSplits(cr: nat, kind: nat, lmsw: nat, y: nat)
    requires cr < 16 && kind < 4 && lmsw < 4
    ensures var q := cr + 16 * kind + 64 * lmsw + 256 * y;
            q % 16 == cr && q / 16 % 4 == kind && q / 256 == y
  {
    var q := cr + 16 * kind + 64 * lmsw + 256 * y;
    var z := lmsw + 4 * y;
    DigitOf(cr, 16, kind + 4 * z);
    DigitOf(kind, 4, z);
    DigitOf(cr + 16 * kind + 64 * lmsw, 256, y);
    assert q == cr + 16 * (kind + 4 * z) == cr + 16 * kind + 64 * lmsw + 256 * y;
  }

  lemma DigitOf(low: nat, base: nat, high: nat)
    requires low < base && base in {4, 16, 256}
    ensures (low + base * high) % base == low && (low + base * high) / base == high
  {
  }

  /** A trapped MOV from general-purpose register `gpr`, RSP included, moves that register of the guest: CR0 or CR4 is
      set from it and the other is left alone. */
  lemma HandleCrReadsOperand(c: Caps, v: Vcpu, cr: nat, gpr: nat)
    requires |v.regs| == COUNT && (cr == 0 || cr == 4) && gpr < 16
    ensures var file := v.regs[RSP := v.vmcs.rsp];
            var m := HandleCr(c, v, cr + 256 * gpr).0.vmcs;
            && m.cr0 == (if cr == 0 then SetCr0(c.cr0, OneBits(file[gpr])) else v.vmcs.cr0)
            && m.cr4 == (if cr == 4 then SetCr4(c.cr4, OneBits(file[gpr])) else v.vmcs.cr4)
  {
    var q := cr + 256 * gpr;
    LowByteSplits(cr, 0, 0, gpr);
    assert q / 256 % 16 == gpr;
    HandleCrWrites(c, v, q);
  }
}
