/** Control-register virtualisation: the guest/host mask and read shadow of section 24.6.6 of Intel
    SDM Vol. 3C, `set_cr`, `cr` and `update_efer`. Models `src/vmx/vcpu.rs` and `src/vmx/vmcs.rs`. */
module ControlRegisters {
  import opened Bits
  import opened Controls
  import opened Processor

  const PE: nat := 0
  const ET: nat := 4
  const WP: nat := 16
  const NW: nat := 29
  const CD: nat := 30
  const PG: nat := 31
  const PAE: nat := 5
  const VMXE: nat := 13
  const PCIDE: nat := 17
  const CET: nat := 23
  const LME: nat := 8
  const LMA: nat := 10
  /** VM-entry control "IA-32e mode guest". */
  const IA32E: nat := 9
  /** The bits that `EferFlags::from_bits_truncate` keeps. */
  const EFER_KNOWN: set<nat> := {0, 8, 10, 11, 12, 13, 14, 15}

  /** The FIXED0 and FIXED1 capability MSRs of a control register. */
  datatype Limits = Limits(fixed0: Bits64, fixed1: Bits64) {
    predicate WellFormed() { fixed0 <= fixed1 }
  }

  /** The VMCS fields of one virtualised control register. */
  datatype Cr = Cr(actual: Bits64, shadow: Bits64, mask: Bits64)

  // ---------------------------------------------------------------------------------------------
  // The code
  // ---------------------------------------------------------------------------------------------

  function Cr0May(l: Limits): Bits64 { l.fixed1 * Not64({NW, CD}) }

  function Cr0Must(l: Limits): Bits64 { l.fixed0 * Not64({PG, PE}) }

  function SetCr0(l: Limits, val: Bits64): Cr {
    var must0, must1 := Cr0May(l), Cr0Must(l);
    Cr((val * must0) + must1, val, must1 + Not64(must0))
  }

  function SetCr4(l: Limits, val: Bits64): Cr {
    var must0, must1 := l.fixed1, l.fixed0;
    var v := val + {VMXE};
    Cr((v * must0) + must1, v, must1 + Not64(must0))
  }

  /** `cr(0)`. */
  function ReadCr0(cr: Cr): Bits64 { cr.actual }

  /** `cr(4)`. */
  function ReadCr4(cr: Cr): Bits64 { (cr.shadow * cr.mask) + (cr.actual * Not64(cr.mask)) }

  datatype EferUpdate = EferUpdate(efer: Bits64, entry: Bits32, ok: bool)

  /** `update_efer`: IA32_EFER is written before the entry control, so it stays written on an error. */
  function UpdateEfer(cap: Capability, efer: Bits64, entry: Bits32): (r: EferUpdate) {
    var flags := efer * EFER_KNOWN;
    if LME in flags && LMA in flags then EferUpdate(efer, entry, true)
    else
      var efer1 := flags + {LMA};
      match SetControl(cap, entry, {IA32E}, {})
      case Written(v) => EferUpdate(efer1, v, true)
      case _ => EferUpdate(efer1, entry, false)
  }

  function PagingLevel(cr0: Bits64, cr4: Bits64, efer: Bits64): nat {
    if PG !in cr0 then 0
    else if PAE !in cr4 then 2
    else if LMA in efer then 4
    else 3
  }

  // ---------------------------------------------------------------------------------------------
  // The hardware: section 24.6.6 and MOV to CR in VMX non-root operation
  // ---------------------------------------------------------------------------------------------

  /** What the guest reads: shadow bits where the host owns the bit, real bits elsewhere. */
  function Visible(cr: Cr): Bits64 { (cr.shadow * cr.mask) + (cr.actual * Not64(cr.mask)) }

  /** A MOV to the register exits iff it would change a host-owned bit of the shadow. */
  predicate Absorbed(cr: Cr, w: Bits64) { w * cr.mask == cr.shadow * cr.mask }

  /** A MOV that does not exit writes the guest-owned bits. */
  function Absorb(cr: Cr, w: Bits64): Cr {
    cr.(actual := (cr.actual * cr.mask) + (w * Not64(cr.mask)))
  }

  function AbsorbAll(cr: Cr, ws: seq<Bits64>): (r: Cr)
    ensures r.shadow == cr.shadow && r.mask == cr.mask
    decreases |ws|
  {
    if ws == [] then cr else Absorb(AbsorbAll(cr, ws[..|ws| - 1]), ws[|ws| - 1])
  }

  function GuestMovCr0(l: Limits, cr: Cr, w: Bits64): Cr {
    if Absorbed(cr, w) then Absorb(cr, w) else SetCr0(l, w)
  }

  function GuestMovCr4(l: Limits, cr: Cr, w: Bits64): Cr {
    if Absorbed(cr, w) then Absorb(cr, w) else SetCr4(l, w)
  }

  function RunCr0(l: Limits, cr: Cr, ws: seq<Bits64>): Cr
    decreases |ws|
  {
    if ws == [] then cr else GuestMovCr0(l, RunCr0(l, cr, ws[..|ws| - 1]), ws[|ws| - 1])
  }

  function RunCr4(l: Limits, cr: Cr, ws: seq<Bits64>): Cr
    decreases |ws|
  {
    if ws == [] then cr else GuestMovCr4(l, RunCr4(l, cr, ws[..|ws| - 1]), ws[|ws| - 1])
  }

  // ---------------------------------------------------------------------------------------------
  // Refinement of a plain register
  // ---------------------------------------------------------------------------------------------

  /** A plain register holds the last value moved to it. */
  function Last(first: Bits64, ws: seq<Bits64>): Bits64 {
    if ws == [] then first else ws[|ws| - 1]
  }

  /** The state of a register whose plain value is `v`, whoever performed the last write: the guest
      sees `v`, and the processor runs with `v` forced into the limits. */
  ghost predicate Holds(may: Bits64, must: Bits64, cr: Cr, v: Bits64) {
    && cr.mask == must + Not64(may)
    && Visible(cr) == v
    && cr.actual == (v * may) + must
  }

  lemma AbsorbHolds(may: Bits64, must: Bits64, cr: Cr, v: Bits64, w: Bits64)
    requires Holds(may, must, cr, v) && Absorbed(cr, w)
    ensures Holds(may, must, Absorb(cr, w), w)
  {
  }

  lemma SetCr0Holds(l: Limits, w: Bits64)
    ensures Holds(Cr0May(l), Cr0Must(l), SetCr0(l, w), w)
  {
  }

  lemma SetCr4Holds(l: Limits, w: Bits64)
    ensures Holds(l.fixed1, l.fixed0, SetCr4(l, w), w + {VMXE})
  {
  }

  lemma {:induction false} AbsorbAllHolds(may: Bits64, must: Bits64, cr: Cr, v: Bits64, ws: seq<Bits64>)
    requires Holds(may, must, cr, v)
    requires forall i :: 0 <= i < |ws| ==> Absorbed(cr, ws[i])
    ensures Holds(may, must, AbsorbAll(cr, ws), Last(v, ws))
    decreases |ws|
  {
    if ws != [] {
      var init, w := ws[..|ws| - 1], ws[|ws| - 1];
      AbsorbAllHolds(may, must, cr, v, init);
      AbsorbHolds(may, must, AbsorbAll(cr, init), Last(v, init), w);
    }
  }

  /** CR0 looks like a plain register over every sequence of MOVs, trapped or absorbed, and the real
      register is always the plain value forced into the limits. */
  lemma Cr0RefinesPlain(l: Limits, first: Bits64, ws: seq<Bits64>)
    ensures Visible(RunCr0(l, SetCr0(l, first), ws)) == Last(first, ws)
    ensures l.WellFormed() ==> Cr0BitsRight(l, RunCr0(l, SetCr0(l, first), ws), Last(first, ws))
  {
    Cr0Held(l, first, ws);
    if l.WellFormed() {
      HeldCr0IsLegal(l, RunCr0(l, SetCr0(l, first), ws), Last(first, ws));
    }
  }

  lemma {:induction false} Cr0Held(l: Limits, first: Bits64, ws: seq<Bits64>)
    ensures Holds(Cr0May(l), Cr0Must(l), RunCr0(l, SetCr0(l, first), ws), Last(first, ws))
    decreases |ws|
  {
    if ws == [] {
      SetCr0Holds(l, first);
    } else {
      var init, w := ws[..|ws| - 1], ws[|ws| - 1];
      Cr0Held(l, first, init);
      var cr := RunCr0(l, SetCr0(l, first), init);
      if Absorbed(cr, w) {
        AbsorbHolds(Cr0May(l), Cr0Must(l), cr, Last(first, init), w);
      } else {
        SetCr0Holds(l, w);
      }
    }
  }

  /** CR4 looks like a plain register whose VMXE bit reads as 1 for ever, when the host owns VMXE. */
  lemma {:induction false} Cr4RefinesPlain(l: Limits, first: Bits64, ws: seq<Bits64>)
    requires VMXE in l.fixed0 || VMXE !in l.fixed1
    ensures Holds(l.fixed1, l.fixed0, RunCr4(l, SetCr4(l, first), ws), Last(first, ws) + {VMXE})
    decreases |ws|
  {
    if ws == [] {
      SetCr4Holds(l, first);
    } else {
      var init, w := ws[..|ws| - 1], ws[|ws| - 1];
      Cr4RefinesPlain(l, first, init);
      var cr := RunCr4(l, SetCr4(l, first), init);
      if Absorbed(cr, w) {
        AbsorbHolds(l.fixed1, l.fixed0, cr, Last(first, init) + {VMXE}, w);
        assert VMXE in w by {
          assert VMXE in Visible(cr);
          assert VMXE in cr.shadow * cr.mask;
        }
        assert w + {VMXE} == w;
      } else {
        SetCr4Holds(l, w);
      }
    }
  }

  /** The condition is exact: where the processor leaves VMXE free, a guest can clear it unseen. */
  lemma Cr4RefinesPlainIff(l: Limits)
    ensures (forall first: Bits64, ws: seq<Bits64> ::
               Visible(RunCr4(l, SetCr4(l, first), ws)) == Last(first, ws) + {VMXE})
            <==> VMXE in l.fixed0 || VMXE !in l.fixed1
  {
    if VMXE in l.fixed0 || VMXE !in l.fixed1 {
      forall first: Bits64, ws: seq<Bits64>
        ensures Visible(RunCr4(l, SetCr4(l, first), ws)) == Last(first, ws) + {VMXE}
      {
        Cr4RefinesPlain(l, first, ws);
      }
    } else {
      var first: Bits64 := {};
      var w: Bits64 := {};
      var cr := SetCr4(l, first);
      assert Absorbed(cr, w) by {
        assert cr.shadow * cr.mask == {};
        assert w * cr.mask == {};
      }
      assert [w][..0] == [];
      assert RunCr4(l, cr, []) == cr;
      assert RunCr4(l, cr, [w]) == Absorb(cr, w);
      assert VMXE !in Visible(Absorb(cr, w));
      assert Visible(RunCr4(l, SetCr4(l, first), [w])) != Last(first, [w]) + {VMXE};
    }
  }

  /** Along any run `cr(4)` returns what the guest sees, and `cr(0)` does so exactly when the guest's
      value already respects the limits: it reads the real register where `cr(4)` consults the shadow. */
  lemma ReadsOfHeldRegister(may: Bits64, must: Bits64, cr: Cr, v: Bits64)
    requires Holds(may, must, cr, v)
    ensures ReadCr4(cr) == v
    ensures ReadCr0(cr) == v <==> must <= v <= may + must
  {
  }

  /** Appendix A.7 and A.8 of Intel SDM Vol. 3D, with PE and PG freed for an unrestricted guest. */
  predicate Cr0WithinLimits(l: Limits, actual: Bits64, unrestricted: bool) {
    (if unrestricted then l.fixed0 - {0, 31} else l.fixed0) <= actual <= l.fixed1
  }

  predicate Cr4WithinLimits(l: Limits, actual: Bits64) { l.fixed0 <= actual <= l.fixed1 }

  /** Bit `i` of real CR0 for a guest that wrote `w`, stated without the code: NW and CD are the processor's, PE and
      PG the guest's where they exist, every other bit as far as the limits allow. */
  predicate RealCr0Bit(l: Limits, w: Bits64, i: nat) {
    if i in {29, 30} then i in l.fixed0
    else if i in {0, 31} then i in w && i in l.fixed1
    else On(l, w, i)
  }

  /** The host owns the bits that the guest is not free to choose. */
  predicate OwnedCr0Bit(l: Limits, i: nat) {
    (i in l.fixed0 && i !in {0, 31}) || i !in l.fixed1 || i in {29, 30}
  }

  /** Bit `i` is on once `w` is forced into the limits. */
  predicate On(l: Limits, w: Bits64, i: nat) { i in l.fixed0 || (i in w && i in l.fixed1) }

  /** The whole real register and the whole mask, bit by bit. */
  ghost predicate Cr0BitsRight(l: Limits, cr: Cr, w: Bits64) {
    && (forall i :: 0 <= i < 64 ==> (i in cr.actual <==> RealCr0Bit(l, w, i)))
    && (forall i :: 0 <= i < 64 ==> (i in cr.mask <==> OwnedCr0Bit(l, i)))
  }

  ghost predicate Cr4BitsRight(l: Limits, cr: Cr, w: Bits64) {
    && (forall i :: 0 <= i < 64 ==> (i in cr.actual <==> On(l, w + {13}, i)))
    && (forall i :: 0 <= i < 64 ==> (i in cr.mask <==> i in l.fixed0 || i !in l.fixed1))
  }

  /** Whatever the guest wrote, the real register is exactly what the limits make of it; so it obeys the fixed
      bits, and NW and CD are off unless the processor insists on them. */
  lemma HeldCr0IsLegal(l: Limits, cr: Cr, v: Bits64)
    requires l.WellFormed() && Holds(Cr0May(l), Cr0Must(l), cr, v)
    ensures Cr0BitsRight(l, cr, v)
    ensures Cr0WithinLimits(l, cr.actual, true)
  {
  }

  lemma HeldCr4IsLegal(l: Limits, cr: Cr, v: Bits64)
    requires l.WellFormed() && Holds(l.fixed1, l.fixed0, cr, v + {VMXE})
    ensures Cr4BitsRight(l, cr, v)
    ensures Cr4WithinLimits(l, cr.actual)
  {
  }

  // ---------------------------------------------------------------------------------------------
  // The checks of VM entry on CR0, CR4, IA32_EFER and the IA-32e-mode-guest control
  // ---------------------------------------------------------------------------------------------

  /** Section 26.3.1.1 of Intel SDM Vol. 3C, under the control fields `k`. */
  predicate EntryAccepts(l0: Limits, l4: Limits, cr0: Bits64, cr4: Bits64, efer: Bits64, k: ControlFields) {
    && Cr0WithinLimits(l0, cr0, Unrestricted(k))
    && (PG in cr0 ==> PE in cr0)
    && Cr4WithinLimits(l4, cr4)
    && (CET in cr4 ==> WP in cr0)
    && (LongModeGuest(k) ==> PG in cr0 && PAE in cr4)
    && (!LongModeGuest(k) ==> PCIDE !in cr4)
    && (EntryLoadsEfer(k) ==>
          && (LMA in efer <==> LongModeGuest(k))
          && (PG in cr0 ==> (LMA in efer <==> LME in efer)))
  }

  /** The mode state that `handle_cr` leaves after a trapped MOV of `w` to CR0. */
  function AfterMovCr0(cap: Capability, l0: Limits, efer: Bits64, entry: Bits32, w: Bits64): (Cr, EferUpdate) {
    (SetCr0(l0, w), if PG in w then UpdateEfer(cap, efer, entry) else EferUpdate(efer, entry, true))
  }

  /** LMA and the IA-32e control go on together. Every other bit of EFER that is defined is kept; the reserved ones
      go, unless long mode was active already and nothing is written. */
  lemma UpdateEferEffect(cap: Capability, efer: Bits64, entry: Bits32)
    requires cap.Accepts(entry) && (LMA in efer <==> IA32E in entry)
    ensures var u := UpdateEfer(cap, efer, entry);
            && (u.ok <==> {8, 10} <= efer || 9 in cap.allowed1)
            && (forall i :: 0 <= i < 64 ==>
                  (i in u.efer <==> i == 10 || (i in efer && ({8, 10} <= efer || i in {0, 8, 11, 12, 13, 14, 15}))))
            && u.entry == (if u.ok then entry + {9} else entry)
  {
    assert {8, 10} <= efer <==> LME in efer && LMA in efer;
    assert LMA in efer * EFER_KNOWN <==> LMA in efer;
    assert LME in efer * EFER_KNOWN <==> LME in efer;
  }

  /** Real CR0 after a trapped MOV: PE and PG are the guest's, WP as far as the limits allow. */
  lemma SetCr0Checks(l: Limits, w: Bits64)
    requires l.WellFormed() && {PE, PG} <= l.fixed1
    ensures var a := SetCr0(l, w).actual;
            && Cr0WithinLimits(l, a, true)
            && (PG in a <==> PG in w) && (PE in a <==> PE in w) && (WP in a <==> On(l, w, WP))
  {
    SetCr0Holds(l, w);
    HeldCr0IsLegal(l, SetCr0(l, w), w);
    assert PG in l.fixed1 && PE in l.fixed1;
  }

  /** From an accepted state of an unrestricted guest whose EFER is loaded, a trapped MOV to CR0 leads to a state VM
      entry accepts if and only if it turns paging on as the last step into long mode (PE, PAE and LME already
      there), or leaves paging off while long mode is inactive, and keeps WP while CR4.CET is on. `update_efer` sets
      LMA without looking at LME, and nothing clears LMA when paging is turned off. */
  lemma MovCr0AcceptedIff(cap: Capability, l0: Limits, l4: Limits, cr0: Bits64, cr4: Bits64,
                          efer: Bits64, k: ControlFields, w: Bits64)
    requires l0.WellFormed() && {PE, PG} <= l0.fixed1 && cap.Accepts(k.entry) && IA32E in cap.allowed1
    requires EntryAccepts(l0, l4, cr0, cr4, efer, k) && Unrestricted(k) && EntryLoadsEfer(k)
    ensures var (c, u) := AfterMovCr0(cap, l0, efer, k.entry, w);
            && u.ok
            && (EntryAccepts(l0, l4, c.actual, cr4, u.efer, k.(entry := u.entry)) <==>
                && (if PG in w then PE in w && PAE in cr4 && LME in efer else LMA !in efer)
                && (CET in cr4 ==> On(l0, w, WP)))
  {
    SetCr0Checks(l0, w);
    if PG in w {
      UpdateEferEffect(cap, efer, k.entry);
    }
  }

  /** From an accepted state, a trapped MOV to CR4 is accepted if and only if it keeps PAE in long
      mode, leaves PCIDE clear outside it, and does not turn on CET without CR0.WP. */
  lemma MovCr4AcceptedIff(l0: Limits, l4: Limits, cr0: Bits64, cr4: Bits64, efer: Bits64, k: ControlFields, w: Bits64)
    requires l4.WellFormed() && EntryAccepts(l0, l4, cr0, cr4, efer, k) && EntryLoadsEfer(k)
    ensures EntryAccepts(l0, l4, cr0, SetCr4(l4, w).actual, efer, k) <==>
            && (if LMA in efer then On(l4, w, PAE) else !On(l4, w, PCIDE))
            && (On(l4, w, CET) ==> WP in cr0)
  {
    SetCr4Bits(l4, w);
  }

  lemma SetCr4Bits(l: Limits, w: Bits64)
    requires l.WellFormed()
    ensures var a := SetCr4(l, w).actual;
            && Cr4WithinLimits(l, a)
            && (PAE in a <==> On(l, w, PAE)) && (PCIDE in a <==> On(l, w, PCIDE)) && (CET in a <==> On(l, w, CET))
  {
  }

  /** Turning paging on by a trapped MOV while PAE is set always ends at four-level paging. */
  lemma PagingOnIsFourLevels(cap: Capability, l0: Limits, cr4: Bits64, efer: Bits64, entry: Bits32, w: Bits64)
    requires PG in l0.fixed1 && PG in w && PAE in cr4
    ensures var (c, u) := AfterMovCr0(cap, l0, efer, entry, w);
            PagingLevel(c.actual, cr4, u.efer) == 4
  {
  }

  /** In every state that VM entry accepts, the level is that of the guest's paging mode (section 4.1.1 of Intel SDM
      Vol. 3A): none without PG, four-level exactly in long mode, PAE paging's three or two levels otherwise. */
  lemma PagingLevelOfAccepted(l0: Limits, l4: Limits, cr0: Bits64, cr4: Bits64, efer: Bits64, k: ControlFields)
    requires EntryAccepts(l0, l4, cr0, cr4, efer, k) && EntryLoadsEfer(k)
    ensures var level := PagingLevel(cr0, cr4, efer);
            && (level == 0 <==> 31 !in cr0) && (level == 4 <==> 9 in k.entry)
            && (level == 2 <==> 31 in cr0 && 5 !in cr4) && (level == 3 <==> 31 in cr0 && 5 in cr4 && 9 !in k.entry)
  {
  }

  /** The mode state of a fresh guest is accepted if and only if PE and PG are free, or demanded by nobody, and the
      processor demands neither PCIDE, nor CET without WP. */
  lemma FreshAcceptedIff(l0: Limits, l4: Limits, k: ControlFields)
    requires l0.WellFormed() && l4.WellFormed() && !LongModeGuest(k)
    ensures EntryAccepts(l0, l4, SetCr0(l0, {NW, CD, ET}).actual, SetCr4(l4, {}).actual, {}, k) <==>
            && (Unrestricted(k) || {0, 31} !! l0.fixed0)
            && PCIDE !in l4.fixed0 && (CET in l4.fixed0 ==> WP in l0.fixed0)
  {
    SetCr0Holds(l0, {NW, CD, ET});
    HeldCr0IsLegal(l0, SetCr0(l0, {NW, CD, ET}), {NW, CD, ET});
    var a := SetCr0(l0, {NW, CD, ET}).actual;
    assert 0 !in a && 31 !in a;
    assert WP in a <==> WP in l0.fixed0;
    assert l0.fixed0 <= a <==> {0, 31} !! l0.fixed0 by {
      if {0, 31} !! l0.fixed0 {
        assert l0.fixed0 - {0, 31} == l0.fixed0;
      }
    }
    SetCr4Bits(l4, {});
  }
}
