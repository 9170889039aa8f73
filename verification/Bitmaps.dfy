/** The MSR and I/O bitmaps: bytes changed in place, read back as sets of MSR accesses and ports.
    Models `src/vmx/structs.rs` and `setup_msr_bitmap` of `src/vmx/vcpu.rs`. */
module Bitmaps {
  import opened Processor
  import opened Registers
  import opened VcpuModel

  /** A byte is the set of its one-bits. */
  type ByteBits = b: set<nat> | forall i :: i in b ==> i < 8

  const FRAME := 4096
  /** The length of the slices through which both bitmaps are written. */
  const SLICE := 1024

  predicate BitAt(frame: seq<ByteBits>, n: nat)
    requires n < 8 * |frame|
  {
    n % 8 in frame[n / 8]
  }

  /** Sets or clears one bit of one byte. */
  method WriteBit(frame: array<ByteBits>, byte: nat, bit: nat, on: bool)
    requires byte < frame.Length && bit < 8
    modifies frame
    ensures forall n :: 0 <= n < 8 * frame.Length ==>
              (BitAt(frame[..], n) <==> if n == 8 * byte + bit then on else old(BitAt(frame[..], n)))
  {
    if on {
      frame[byte] := frame[byte] + {bit};
    } else {
      frame[byte] := frame[byte] - {bit};
    }
  }

  // ---------------------------------------------------------------------------------------------
  // MSR bitmap
  // ---------------------------------------------------------------------------------------------

  type Msr = m: nat | m < TWO32

  /** Section 24.6.9 of Intel SDM Vol. 3C: read bitmaps for low and high MSRs, then write bitmaps, 1 KByte
      each; the bit number in the whole 4-KByte frame. */
  function SdmBit(msr: Msr, isWrite: bool): nat
    requires Covered(msr)
  {
    (if isWrite then 2 * 8192 else 0) + (if msr <= 0x1fff then msr else 8192 + (msr - 0xc000_0000))
  }

  /** Distinct accesses have distinct bits inside the frame. */
  lemma SdmBitInjective(m: Msr, w: bool, n: Msr, x: bool)
    requires Covered(m) && Covered(n)
    ensures SdmBit(m, w) < 8 * FRAME
    ensures SdmBit(m, w) == SdmBit(n, x) <==> m == n && w == x
  {
  }

  class MsrBitmap {
    const frame: array<ByteBits>

    ghost predicate Valid()
      reads this
    {
      frame.Length == FRAME
    }

    /** The processor exits on this access. */
    ghost predicate Traps(msr: Msr, isWrite: bool)
      requires Valid() && Covered(msr)
      reads this, frame
    {
      BitAt(frame[..], SdmBit(msr, isWrite))
    }

    /** `passthrough_all`: a zeroed frame. */
    constructor ()
      ensures Valid() && fresh(frame)
      ensures forall m: Msr, w: bool :: Covered(m) ==> !Traps(m, w)
    {
      frame := new ByteBits[FRAME](_ => {});
    }

    /** Exactly one access changes. The source reaches `unreachable!` on MSRs that the bitmap does not cover. */
    method SetIntercept(msr: Msr, isWrite: bool, intercept: bool)
      requires Valid() && Covered(msr)
      modifies frame
      ensures forall m: Msr, w: bool :: Covered(m) ==>
                (Traps(m, w) <==> if m == msr && w == isWrite then intercept else old(Traps(m, w)))
    {
      var offset;
      if msr <= 0x1fff {
        offset := if !isWrite then 0 else 2;
      } else {
        offset := if !isWrite then 1 else 3;
      }
      offset := offset * 1024;
      var index := msr % 0x2000;
      var byte, bits := index / 8, index % 8;
      assert byte < SLICE;
      assert 8 * (offset + byte) + bits == SdmBit(msr, isWrite) by {
        assert msr > 0x1fff ==> index == msr - 0xc000_0000;
      }
      WriteBit(frame, offset + byte, bits, intercept);
    }

    /** `setup_msr_bitmap`: both directions of IA32_UMWAIT_CONTROL and of 0x800 to 0x83f are added, and
        nothing else changes. */
    method SetupMsrBitmap()
      requires Valid()
      modifies frame
      ensures forall m: Msr, w: bool :: Covered(m) ==>
                (Traps(m, w) <==> m == 0xe1 || 0x800 <= m <= 0x83f || old(Traps(m, w)))
    {
      SetIntercept(0xe1, true, true);
      SetIntercept(0xe1, false, true);
      for msr := 0x800 to 0x840
        invariant forall m: Msr, w: bool :: Covered(m) ==>
                    (Traps(m, w) <==> m == 0xe1 || 0x800 <= m < msr || old(Traps(m, w)))
      {
        SetIntercept(msr, false, true);
        SetIntercept(msr, true, true);
      }
    }
  }

  /** Of the accesses that setup makes trap, the handler takes every x2APIC one itself, and passes on
      exactly IA32_UMWAIT_CONTROL. RCX's upper half does not matter. */
  lemma TrappedMsrsHandled(c: Caps, v: VcpuModel.Vcpu, exit: Exit, msr: Msr)
    requires |v.regs| == COUNT && (exit.MsrRead? || exit.MsrWrite?)
    requires msr == v.regs[RCX] % TWO32 && (msr == 0xe1 || 0x800 <= msr <= 0x83f)
    ensures Handle(c, v, exit).1 == NotHandled <==> msr == 0xe1
  {
  }

  // ---------------------------------------------------------------------------------------------
  // I/O bitmaps
  // ---------------------------------------------------------------------------------------------

  /** The ports that `set_intercept` can reach: its slices cover a quarter of each 4-KByte frame. */
  predicate Reachable(port: nat) { port < 0x2000 || 0x8000 <= port < 0xa000 }

  class IOBitmap {
    const a: array<ByteBits>
    const b: array<ByteBits>

    ghost predicate Valid()
      reads this
    {
      a.Length == b.Length == FRAME && a != b
    }

    /** Bitmap A covers ports 0 to 0x7fff, bitmap B the rest (section 24.6.4 of Intel SDM Vol. 3C). */
    ghost predicate Traps(port: nat)
      requires Valid() && port < PORTS
      reads this, a, b
    {
      if port < 0x8000 then BitAt(a[..], port) else BitAt(b[..], port - 0x8000)
    }

    /** The intercepted ports, as a set. */
    ghost function Ports(): set<nat>
      requires Valid()
      reads this, a, b
    {
      set p: nat | p < PORTS && Traps(p)
    }

    constructor ()
      ensures Valid() && fresh(a) && fresh(b)
      ensures forall p :: 0 <= p < PORTS ==> !Traps(p)
    {
      a := new ByteBits[FRAME](_ => {});
      b := new ByteBits[FRAME](_ => {});
    }

    /** One port, or an index out of the slice's bounds (`ok` false, nothing written). */
    method SetIntercept(port: nat, intercept: bool) returns (ok: bool)
      requires Valid()
      modifies a, b
      ensures ok <==> Reachable(port)
      ensures forall p :: 0 <= p < PORTS ==> (Traps(p) <==> if ok && p == port then intercept else old(Traps(p)))
    {
      var index, frame;
      if port <= 0x7fff {
        index, frame := port, a;
      } else {
        index, frame := port - 0x8000, b;
      }
      var byte, bits := index / 8, index % 8;
      if byte >= SLICE {
        return false;
      }
      WriteBit(frame, byte, bits, intercept);
      return true;
    }

    /** A range of ports becomes intercepted or not, and no other port changes. The call panics half-way
        unless the range lies in one of the two reachable windows; `stop` is where it got to. An overflow
        of `port_base + count` panics before the first port. */
    method SetInterceptOfRange(portBase: nat, count: nat, intercept: bool) returns (ok: bool, stop: nat)
      requires Valid()
      modifies a, b
      ensures ok <==>
              && portBase + count < TWO32
              && (count == 0 || portBase + count <= 0x2000 || (0x8000 <= portBase && portBase + count <= 0xa000))
      ensures portBase <= stop <= portBase + count && (ok ==> stop == portBase + count)
      ensures forall p :: portBase <= p < stop ==> Reachable(p)
      ensures !ok && portBase + count < TWO32 ==> !Reachable(stop) && stop < portBase + count
      ensures forall p :: 0 <= p < PORTS ==> (Traps(p) <==> if portBase <= p < stop then intercept else old(Traps(p)))
      ensures Ports() == if intercept then old(Ports()) + Interval(portBase, stop)
                         else old(Ports()) - Interval(portBase, stop)
    {
      stop := portBase;
      if portBase + count >= TWO32 {
        return false, stop;
      }
      while stop < portBase + count
        invariant portBase <= stop <= portBase + count
        invariant forall p :: portBase <= p < stop ==> Reachable(p)
        invariant forall p :: 0 <= p < PORTS ==>
                    (Traps(p) <==> if portBase <= p < stop then intercept else old(Traps(p)))
      {
        var done := SetIntercept(stop, intercept);
        if !done {
          return false, stop;
        }
        stop := stop + 1;
      }
      ok := true;
      WindowBounds(portBase, stop);
    }
  }

  /** A non-empty range of reachable ports lies in one window. */
  lemma WindowBounds(lo: nat, hi: nat)
    requires forall p :: lo <= p < hi ==> Reachable(p)
    ensures lo >= hi || hi <= 0x2000 || (0x8000 <= lo && hi <= 0xa000)
  {
    if lo < hi {
      assert Reachable(lo) && Reachable(hi - 1);
      assert lo < 0x2000 < hi ==> Reachable(0x2000);
    }
  }
}
