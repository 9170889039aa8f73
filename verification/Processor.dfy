/** What the processor does because a control bit is on, bit by bit and by number (sections 24.6 to 24.8 of Intel
    SDM Vol. 3C). Nothing here is code of the crate; what the crate requests is proved to have these effects. */
module Processor {
  import opened Bits
  import opened Controls

  // Pin-based controls
  predicate InterruptsExit(k: ControlFields) { 0 in k.pin }

  predicate NmisExit(k: ControlFields) { 3 in k.pin }

  /** The preemption timer counts. */
  predicate TimerExits(k: ControlFields) { 6 in k.pin }

  // Primary controls
  predicate WindowArmed(k: ControlFields) { 2 in k.primary }

  /** With no CR3-target values, as setup leaves it. */
  predicate Cr3LoadsExit(k: ControlFields) { 15 in k.primary }

  predicate Cr3StoresExit(k: ControlFields) { 16 in k.primary }

  predicate Cr8LoadsExit(k: ControlFields) { 19 in k.primary }

  predicate Cr8StoresExit(k: ControlFields) { 20 in k.primary }

  const PORTS := 0x1_0000

  predicate Within(p: nat, lo: nat, hi: nat) { lo <= p < hi }

  /** The ports of a half-open range that exist. */
  function Interval(lo: nat, hi: nat): set<nat> {
    set p: nat | p < PORTS && Within(p, lo, hi)
  }

  /** Without I/O bitmaps, bit 24 decides for all ports. */
  predicate PortExits(k: ControlFields, trapped: bool) { if 25 in k.primary then trapped else 24 in k.primary }

  /** Without MSR bitmaps every access exits, and with them every access to an MSR they do not cover. */
  predicate MsrExits(k: ControlFields, covered: bool, trapped: bool) { 28 in k.primary && covered ==> trapped }

  /** The MSRs that the bitmaps cover (section 24.6.9). */
  predicate Covered(msr: nat) { msr <= 0x1fff || 0xc000_0000 <= msr <= 0xc000_1fff }

  // Secondary controls, in force only with bit 31 of the primary ones
  predicate Secondary(k: ControlFields, bit: nat) { 31 in k.primary && bit in k.secondary }

  predicate ApicAccessesExit(k: ControlFields) { Secondary(k, 0) }

  predicate UsesEpt(k: ControlFields) { Secondary(k, 1) }

  /** PE and PG need not be on. */
  predicate Unrestricted(k: ControlFields) { Secondary(k, 7) }

  /** Instructions that raise an invalid-opcode exception in the guest unless a control allows them. */
  datatype Guarded = Rdtscp | Invpcid | Xsaves

  predicate Allows(k: ControlFields, i: Guarded) {
    match i
    case Rdtscp => Secondary(k, 3)
    case Invpcid => Secondary(k, 12)
    case Xsaves => Secondary(k, 20)
  }

  // VM-exit controls
  predicate HostIs64Bit(k: ControlFields) { 9 in k.exit }

  predicate InterruptsAcknowledged(k: ControlFields) { 15 in k.exit }

  predicate ExitSavesPat(k: ControlFields) { 18 in k.exit }

  predicate ExitLoadsPat(k: ControlFields) { 19 in k.exit }

  predicate ExitSavesEfer(k: ControlFields) { 20 in k.exit }

  predicate ExitLoadsEfer(k: ControlFields) { 21 in k.exit }

  // VM-entry controls
  predicate LongModeGuest(k: ControlFields) { 9 in k.entry }

  predicate EntryLoadsPat(k: ControlFields) { 14 in k.entry }

  predicate EntryLoadsEfer(k: ControlFields) { 15 in k.entry }

  /** Checks of sections 26.2.1.1 and 26.2.4 between control fields, for a 64-bit host: when one fails, VMLAUNCH or
      VMRESUME itself fails. */
  predicate Consistent(k: ControlFields) { HostIs64Bit(k) && (Unrestricted(k) ==> UsesEpt(k)) }

  /** IA32_EFER and IA32_PAT. */
  datatype Msrs = Msrs(efer: Bits64, pat: nat)

  /** EFER with LMA and LME as the address-space size dictates, where VMX does not load it. */
  function Adjusted(efer: Bits64, long: bool): Bits64 { (efer - {8, 10}) + if long then {8, 10} else {} }

  /** What the guest starts with, given the guest fields and what the processor has. */
  function AtGuestEntry(k: ControlFields, guest: Msrs, now: Msrs): Msrs {
    Msrs(if EntryLoadsEfer(k) then guest.efer else Adjusted(now.efer, LongModeGuest(k)),
         if EntryLoadsPat(k) then guest.pat else now.pat)
  }

  /** The guest fields after a VM exit at which the guest had `left`. */
  function SavedAtExit(k: ControlFields, guest: Msrs, left: Msrs): Msrs {
    Msrs(if ExitSavesEfer(k) then left.efer else guest.efer, if ExitSavesPat(k) then left.pat else guest.pat)
  }

  /** What the processor has after it, given the host fields. */
  function AtHostEntry(k: ControlFields, host: Msrs, left: Msrs): Msrs {
    Msrs(if ExitLoadsEfer(k) then host.efer else Adjusted(left.efer, HostIs64Bit(k)),
         if ExitLoadsPat(k) then host.pat else left.pat)
  }
}
