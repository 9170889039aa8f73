/** Machine words used as bit masks: the set of the positions of their one-bits. Union, intersection
    and difference are the source's `|`, `&` and `& !`; `Not` is `!` at the word's width. */
module Bits {

  type Bits32 = b: set<nat> | forall i :: i in b ==> i < 32
  type Bits64 = b: set<nat> | forall i :: i in b ==> i < 64

  /** The positions of a word of the given width. */
  function Positions(width: nat): (r: set<nat>)
    ensures forall i :: i in r <==> 0 <= i < width
  {
    if width == 0 then {} else Positions(width - 1) + {width - 1}
  }

  function Not32(b: Bits32): (r: Bits32) {
    Positions(32) - b
  }

  function Not64(b: Bits64): (r: Bits64) {
    Positions(64) - b
  }

  /** Bit `i` of a number. */
  predicate HasBit(n: nat, i: nat) {
    if i == 0 then n % 2 == 1 else HasBit(n / 2, i - 1)
  }

  /** A 64-bit register value as a mask. */
  function OneBits(n: nat): Bits64 {
    set i | i in Positions(64) && HasBit(n, i)
  }

  /** The number whose one-bits are the members of `b` from `low` on, within `width` positions. */
  function NumberFrom(b: set<nat>, low: nat, width: nat): (n: nat)
    ensures n < PowerOf2(width)
    decreases width
  {
    if width == 0 then 0 else (if low in b then 1 else 0) + 2 * NumberFrom(b, low + 1, width - 1)
  }

  function PowerOf2(n: nat): (p: nat)
    ensures p > 0
  {
    if n == 0 then 1 else 2 * PowerOf2(n - 1)
  }

  lemma {:induction false} BitsOfNumber(b: set<nat>, low: nat, width: nat, i: nat)
    ensures HasBit(NumberFrom(b, low, width), i) <==> i < width && low + i in b
    decreases i
  {
    if width == 0 {
      NoBits(i);
    } else {
      var rest := NumberFrom(b, low + 1, width - 1);
      assert NumberFrom(b, low, width) == rest * 2 + if low in b then 1 else 0;
      if i > 0 {
        BitsOfNumber(b, low + 1, width - 1, i - 1);
      }
    }
  }

  lemma {:induction false} NoBits(i: nat)
    ensures !HasBit(0, i)
    decreases i
  {
    if i > 0 {
      NoBits(i - 1);
    }
  }

  lemma FourMoreBits(n: nat)
    ensures PowerOf2(n + 4) == 16 * PowerOf2(n)
  {
    assert PowerOf2(n + 2) == 4 * PowerOf2(n);
  }

  lemma SixteenMoreBits(n: nat)
    ensures PowerOf2(n + 16) == 0x1_0000 * PowerOf2(n)
  {
    FourMoreBits(n);
    FourMoreBits(n + 4);
    FourMoreBits(n + 8);
    FourMoreBits(n + 12);
  }

  lemma Width64()
    ensures PowerOf2(64) == 0x1_0000_0000_0000_0000
  {
    SixteenMoreBits(0);
    SixteenMoreBits(16);
    SixteenMoreBits(32);
    SixteenMoreBits(48);
  }

  lemma NumberWithBits(b: set<nat>, width: nat) returns (n: nat)
    ensures n < PowerOf2(width) && forall i :: 0 <= i < width ==> (HasBit(n, i) <==> i in b)
  {
    n := NumberFrom(b, 0, width);
    forall i | 0 <= i < width ensures HasBit(n, i) <==> i in b {
      BitsOfNumber(b, 0, width, i);
    }
  }

  /** Every mask is the mask of some register value. */
  lemma MaskHasValue(b: Bits64) returns (n: nat)
    ensures n < 0x1_0000_0000_0000_0000 && OneBits(n) == b
  {
    n := NumberWithBits(b, 64);
    Width64();
  }
}

/** `vmcs::set_control`: a 32-bit VMX control field is written within the limits of its capability
    MSR. Section 31.5.1 of Intel SDM Vol. 3C, Algorithm 3. Models `src/vmx/vmcs.rs`. */
module Controls {
  import opened Bits

  /** The two halves of a capability MSR: bits that must be 1, and bits that may be 1. */
  datatype Capability = Capability(allowed0: Bits32, allowed1: Bits32) {
    predicate WellFormed() { allowed0 <= allowed1 }

    /** A field value that VM entry accepts. */
    predicate Accepts(v: Bits32) { allowed0 <= v <= allowed1 }

    predicate Flexible(bit: nat) { bit in allowed1 && bit !in allowed0 }
  }

  /** The five control fields of the VMCS. */
  datatype ControlFields = ControlFields(pin: Bits32, primary: Bits32, secondary: Bits32, exit: Bits32, entry: Bits32)

  datatype ControlResult = Written(value: Bits32) | InvalidInput | Unsupported | BadCapability

  /** The value `set_control` writes, or how it stops. `BadCapability` is the failed `assert_eq!` on the MSR. */
  function SetControl(cap: Capability, old_: Bits32, on: Bits32, off: Bits32): (r: ControlResult) {
    if cap.allowed0 * cap.allowed1 != cap.allowed0 then BadCapability
    else if on * off != {} then InvalidInput
    else if cap.allowed1 * on != on then Unsupported
    else if cap.allowed0 * off != {} then Unsupported
    else
      var flexible := Not32(cap.allowed0) * cap.allowed1;
      var unknown := flexible * Not32(on + off);
      var default_ := unknown * old_;
      Written(cap.allowed0 + default_ + on)
  }

  /** What the caller asked for, said of a value alone: acceptable to the processor, with the
      requested bits on and off, and equal to the old value on every other bit that is free. */
  ghost predicate Granted(cap: Capability, old_: Bits32, on: Bits32, off: Bits32, v: Bits32) {
    && cap.Accepts(v)
    && on <= v
    && off !! v
    && forall i | cap.Flexible(i) && i !in on && i !in off :: i in v <==> i in old_
  }

  lemma MaskTests(a: Bits32, b: Bits32)
    ensures a * b == a <==> a <= b
    ensures a * b == {} <==> a !! b
  {
    if a * b == a {
      forall i | i in a ensures i in b { assert i in a * b; }
    }
    if a * b == {} {
      forall i | i in a ensures i !in b { assert i in b ==> i in a * b; }
    }
  }

  lemma CheckOrder(cap: Capability, on: Bits32, off: Bits32)
    ensures cap.allowed0 * cap.allowed1 == cap.allowed0 <==> cap.WellFormed()
    ensures on * off == {} <==> on !! off
    ensures cap.allowed1 * on == on <==> on <= cap.allowed1
    ensures cap.allowed0 * off == {} <==> off !! cap.allowed0
  {
    MaskTests(cap.allowed0, cap.allowed1);
    MaskTests(on, off);
    MaskTests(on, cap.allowed1);
    assert cap.allowed1 * on == on * cap.allowed1;
    MaskTests(cap.allowed0, off);
  }

  /** `set_control` writes a value exactly when a granted one exists, and writes that one. */
  lemma SetControlExact(cap: Capability, old_: Bits32, on: Bits32, off: Bits32, v: Bits32)
    ensures SetControl(cap, old_, on, off) == Written(v) <==> Granted(cap, old_, on, off, v)
  {
    CheckOrder(cap, on, off);
    var r := SetControl(cap, old_, on, off);
    if Granted(cap, old_, on, off, v) {
      assert r.Written?;
      forall i: nat ensures i in r.value <==> i in v {
        assert cap.Flexible(i) || i in cap.allowed0 || i !in cap.allowed1;
      }
      assert r.value == v;
    }
    if r.Written? {
      assert Granted(cap, old_, on, off, r.value);
    }
  }

  /** When it stops, the error names the reason: the checks are made in the source's order. */
  lemma SetControlErrors(cap: Capability, old_: Bits32, on: Bits32, off: Bits32)
    ensures var r := SetControl(cap, old_, on, off);
            && (r.BadCapability? <==> !cap.WellFormed())
            && (r.InvalidInput? <==> cap.WellFormed() && !(on !! off))
            && (r.Unsupported? <==> cap.WellFormed() && on !! off && !(on <= cap.allowed1 && off !! cap.allowed0))
  {
    CheckOrder(cap, on, off);
  }

  /** Writing the field again with the same request, reading back the first result, changes nothing. */
  lemma SetControlIdempotent(cap: Capability, old_: Bits32, on: Bits32, off: Bits32, v: Bits32)
    requires SetControl(cap, old_, on, off) == Written(v)
    ensures SetControl(cap, v, on, off) == Written(v)
  {
  }

  /** Two requests in a row, the second reading back the first, are one request in which the second
      overrides the first. */
  lemma SetControlComposes(cap: Capability, old_: Bits32, on1: Bits32, off1: Bits32, on2: Bits32, off2: Bits32,
                           v1: Bits32, v2: Bits32)
    requires SetControl(cap, old_, on1, off1) == Written(v1)
    requires SetControl(cap, v1, on2, off2) == Written(v2)
    ensures SetControl(cap, old_, (on1 - off2) + on2, (off1 - on2) + off2) == Written(v2)
  {
    SetControlExact(cap, old_, on1, off1, v1);
    SetControlExact(cap, v1, on2, off2, v2);
    forall i | i in on1 && i !in off2 ensures i in v2 {
      assert i in v1 && i in cap.allowed1;
      assert i in cap.allowed0 || i in on2 || cap.Flexible(i);
    }
    forall i | i in off1 && i !in on2 ensures i !in v2 {
      assert i !in v1;
      assert i in off2 || i !in cap.allowed1 || cap.Flexible(i);
    }
    SetControlExact(cap, old_, (on1 - off2) + on2, (off1 - on2) + off2, v2);
  }
}
