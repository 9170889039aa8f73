/** Turning VMX operation on and off on one processor. Models `src/vmx/percpu.rs`, with `VmxRegion::new`
    and `FeatureControl::write` of `src/vmx/structs.rs`. */
module PerCpu {
  import opened Wrappers
  import opened Bits
  import opened ControlRegisters

  /** The 31-bit revision identifier at the start of a VMXON region, and the shadow indicator above it. */
  datatype Region = Uninit | Live(revision: nat, shadow: bool)

  const OSXSAVE: nat := 18
  const LOCKED: nat := 0
  const INSIDE_SMX: nat := 1
  const OUTSIDE_SMX: nat := 2

  /** What the processor and the allocator answer. */
  datatype Answers = Answers(hasVmx: bool, hasXsave: bool, cr0: Bits64, cr0Limits: Limits, cr4Limits: Limits,
                             basicSupported: bool, revision: nat, frame: bool)

  datatype Result = Ok | Unsupported | ResourceBusy | BadState | NoMemory | Fault

  /** The test of `cr_is_valid!`. */
  predicate CrIsValid(l: Limits, value: Bits64) {
    Not64(l.fixed0) + value != {} && l.fixed1 + Not64(value) != {}
  }

  /** What VMXON demands of a control register: every bit of FIXED0 on and every bit outside FIXED1 off. */
  predicate Fixed(l: Limits, value: Bits64) { l.fixed0 <= value <= l.fixed1 }

  /** The test is far weaker: it fails only for zero where FIXED0 is all ones, and for all ones where FIXED1 is
      zero. So it never refuses a value that VMXON takes, but it lets through others. */
  lemma CrIsValidIff(l: Limits, value: Bits64)
    ensures CrIsValid(l, value) <==>
            !(l.fixed0 == Positions(64) && value == {}) && !(l.fixed1 == {} && value == Positions(64))
    ensures Fixed(l, value) ==> CrIsValid(l, value)
  {
    assert Not64(l.fixed0) == {} <==> l.fixed0 == Positions(64);
    assert Not64(value) == {} <==> value == Positions(64);
    assert 0 in Positions(64);
  }

  predicate VmxonAccepts(h: Answers, cr4: Bits64) { Fixed(h.cr0Limits, h.cr0) && Fixed(h.cr4Limits, cr4) }

  /** `enable_xsave`. */
  function WithXsave(cr4: Bits64, hasXsave: bool): Bits64 { if hasXsave then cr4 + {OSXSAVE} else cr4 }

  /** Of CR4 it changes bit 18 at most, and sets it where the processor has XSAVE. */
  lemma XsaveIsBit18(cr4: Bits64, hasXsave: bool)
    ensures var r := WithXsave(cr4, hasXsave);
            && r - {18} == cr4 - {18} && (18 in r <==> hasXsave || 18 in cr4)
            && (r + {13}) - {13, 18} == cr4 - {13, 18}
  {
  }

  class VmxPerCpuState {
    var revisionId: nat
    var region: Region
    // The processor
    var cr4: Bits64
    var feature: Bits64
    /** The revision of the region in use while in VMX operation. */
    var vmxOn: Option<nat>

    /** In VMX operation VMXE is set and the region is live with the revision the processor was given. */
    ghost predicate Valid()
      reads this
    {
      vmxOn.Some? ==> VMXE in cr4 && region == Live(vmxOn.value, false) && revisionId == vmxOn.value
    }

    /** A processor that looks enabled to `is_enabled` without being in VMX operation. */
    ghost predicate HalfEnabled()
      reads this
    {
      VMXE in cr4 && vmxOn.None?
    }

    /** `new`, on a processor outside VMX operation. */
    constructor (cr4: Bits64, feature: Bits64)
      ensures Valid() && vmxOn.None? && this.cr4 == cr4 && this.feature == feature
      ensures revisionId == 0 && region == Uninit
    {
      revisionId, region, vmxOn := 0, Uninit, None;
      this.cr4, this.feature := cr4, feature;
    }

    /** VMXON: a general-protection fault without VMXE, with the MSR unlocked or forbidding it, or with CR0 or CR4
        outside the fixed bits; a failure on a region with another revision. */
    method Vmxon(h: Answers) returns (r: Result)
      requires vmxOn.None?
      modifies this`vmxOn
      ensures r == Fault <==> !(VMXE in cr4 && {LOCKED, OUTSIDE_SMX} <= feature && VmxonAccepts(h, cr4))
      ensures r in {Ok, BadState, Fault} && (r == BadState ==> region != Live(h.revision, false))
      ensures r == Ok ==> region == Live(h.revision, false)
      ensures vmxOn == if r == Ok then Some(h.revision) else None
    {
      if !(VMXE in cr4 && {LOCKED, OUTSIDE_SMX} <= feature && VmxonAccepts(h, cr4)) { return Fault; }
      if region != Live(h.revision, false) { return BadState; }
      vmxOn := Some(h.revision);
      return Ok;
    }

    /** The feature-control MSR: locked with VMXON allowed, unless it is locked without. Reserved bits are kept. */
    method AllowVmxon() returns (ok: bool)
      modifies this`feature
      ensures ok <==> old(LOCKED in feature ==> OUTSIDE_SMX in feature)
      ensures feature == if ok then old(feature) + {LOCKED, OUTSIDE_SMX} else old(feature)
    {
      var flags := feature * {LOCKED, INSIDE_SMX, OUTSIDE_SMX};
      if LOCKED !in flags {
        var reserved := feature - {LOCKED, INSIDE_SMX, OUTSIDE_SMX};
        feature := reserved + (flags + {LOCKED, OUTSIDE_SMX});
        assert feature == old(feature) + {LOCKED, OUTSIDE_SMX};
      } else if OUTSIDE_SMX !in flags {
        return false;
      }
      return true;
    }

    /** What `hardware_enable` asks of the processor, the firmware and the allocator before VMXON. */
    ghost predicate Permitted(h: Answers)
      reads this
    {
      && h.hasVmx && (LOCKED in feature ==> OUTSIDE_SMX in feature)
      && CrIsValid(h.cr0Limits, h.cr0) && CrIsValid(h.cr4Limits, WithXsave(cr4, h.hasXsave))
      && h.basicSupported && h.frame
    }

    /** `hardware_enable` on a processor that does not look enabled brings it into VMX operation unless an
        error says why not, and every prerequisite of VMXON that software controls is in place by then. The
        processor is left looking enabled without being so exactly when VMXON faults, and it faults exactly when
        everything before it succeeded and a control register violates the fixed bits. */
    method HardwareEnable(h: Answers) returns (r: Result)
      requires Valid()
      modifies this
      ensures Valid()
      ensures old(VMXE in cr4) ==> r in {Unsupported, ResourceBusy} && vmxOn == old(vmxOn) && cr4 == old(cr4)
      ensures old(VMXE !in cr4) ==>
                var fixed := VmxonAccepts(h, WithXsave(old(cr4), h.hasXsave) + {VMXE});
                && (r == Ok <==> old(Permitted(h)) && fixed) && (r == Ok <==> vmxOn.Some?)
                && (r == Fault <==> old(Permitted(h)) && !fixed) && (r == Fault <==> HalfEnabled())
      ensures r == Ok ==> 13 in cr4 && (h.hasXsave ==> 18 in cr4) && cr4 - {13, 18} == old(cr4) - {13, 18}
      ensures feature == old(feature) || feature == old(feature) + {0, 2}
      ensures r == Ok ==> {0, 2} <= feature
    {
      if !h.hasVmx { return Unsupported; }
      if VMXE in cr4 { return ResourceBusy; }
      cr4 := WithXsave(cr4, h.hasXsave);
      XsaveIsBit18(old(cr4), h.hasXsave);
      var allowed := AllowVmxon();
      if !allowed { return Unsupported; }
      if !CrIsValid(h.cr0Limits, h.cr0) { return BadState; }
      if !CrIsValid(h.cr4Limits, cr4) { return BadState; }
      if !h.basicSupported { return Unsupported; }
      revisionId := h.revision;
      if !h.frame { return NoMemory; }
      region := Live(revisionId, false);
      cr4 := cr4 + {VMXE};
      r := Vmxon(h);
    }

    /** `hardware_disable` leaves VMX operation, clears VMXE and forgets the region, in that order. On a
        half-enabled processor VMXOFF itself faults. */
    method HardwareDisable() returns (r: Result)
      requires Valid()
      modifies this
      ensures Valid()
      ensures r == Ok <==> old(vmxOn.Some?)
      ensures r == Ok ==> vmxOn.None? && cr4 == old(cr4) - {VMXE} && region == Uninit
      ensures r == Fault <==> old(HalfEnabled())
      ensures r != Ok ==> cr4 == old(cr4) && vmxOn == old(vmxOn) && region == old(region)
      ensures feature == old(feature)
    {
      if VMXE !in cr4 { return BadState; }
      if vmxOn.None? { return Fault; }
      vmxOn := None;
      cr4 := cr4 - {VMXE};
      region := Uninit;
      return Ok;
    }
  }
}
