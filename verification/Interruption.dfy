/** The VM-entry interruption-information field: `VmxInterruptionType`, `VmxInterruptInfo` and
    `inject_event`. Models `src/vmx/definitions.rs` and `src/vmx/vmcs.rs`. */
module Interruption {
  import opened Wrappers

  type Vector = v: nat | v < 256
  type U32 = v: nat | v < 0x1_0000_0000

  datatype Kind = External | Reserved | NMI | HardException | SoftIntr | PrivSoftException | SoftException | Other {
    function Code(): nat {
      match this
      case External => 0
      case Reserved => 1
      case NMI => 2
      case HardException => 3
      case SoftIntr => 4
      case PrivSoftException => 5
      case SoftException => 6
      case Other => 7
    }

    predicate IsSoft() { SoftIntr? || SoftException? || PrivSoftException? }
  }

  /** `try_from` on the three type bits. */
  function KindOf(code: nat): Kind
    requires code < 8
  {
    match code
    case 0 => External
    case 1 => Reserved
    case 2 => NMI
    case 3 => HardException
    case 4 => SoftIntr
    case 5 => PrivSoftException
    case 6 => SoftException
    case _ => Other
  }

  predicate HasErrorCode(vector: Vector) {
    vector == 8 || 10 <= vector <= 14 || vector == 17
  }

  function FromVector(vector: Vector): Kind {
    if vector == 1 then PrivSoftException
    else if vector == 2 then NMI
    else if vector == 3 || vector == 4 then SoftException
    else if vector <= 20 then HardException
    else if 32 <= vector then External
    else Other
  }

  datatype Info = Info(vector: Vector, kind: Kind, err: Option<U32>, valid: bool)

  const DELIVER_ERR := 0x800
  const VALID := 0x8000_0000

  function Encode(i: Info): U32 {
    i.vector + 0x100 * i.kind.Code() + (if i.err.Some? then DELIVER_ERR else 0) + (if i.valid then VALID else 0)
  }

  /** `interrupt_exit_info`, over the raw field and the error-code field beside it. */
  function Decode(raw: U32, errField: U32): Info {
    Info(raw % 0x100, KindOf(raw / 0x100 % 8),
         if raw / DELIVER_ERR % 2 == 1 then Some(errField) else None, raw / VALID == 1)
  }

  /** The three VM-entry fields that `inject_event` may write. */
  datatype EntryFields = EntryFields(info: U32, err: U32, len: U32) {
    predicate IsValid() { info / VALID == 1 }

    /** Every VM exit clears the valid bit. */
    function Consumed(): EntryFields { this.(info := info % VALID) }
  }

  /** The error code that goes with an injected event; a missing one is taken from the last exit. */
  function EffectiveErr(vector: Vector, err: Option<U32>, exitErr: U32): Option<U32> {
    if !HasErrorCode(vector) then None else if err.Some? then err else Some(exitErr)
  }

  function InjectEvent(f: EntryFields, vector: Vector, err: Option<U32>, exitErr: U32, exitLen: U32): EntryFields {
    var e := EffectiveErr(vector, err, exitErr);
    var info := Info(vector, FromVector(vector), e, true);
    EntryFields(Encode(info),
                if e.Some? then e.value else f.err,
                if info.kind.IsSoft() then exitLen else f.len)
  }

  /** Encoding and decoding are inverse on everything the layout can express. */
  lemma EncodeDecode(i: Info, errField: U32)
    requires i.err.Some? ==> i.err.value == errField
    ensures Decode(Encode(i), errField) == i
    ensures Encode(i) / 0x1000 % 0x8_0000 == 0
  {
    var k, d := i.kind.Code(), if i.err.Some? then 1 else 0;
    var v := if i.valid then 1 else 0;
    var raw := Encode(i);
    assert raw == i.vector + 0x100 * k + DELIVER_ERR * d + VALID * v;
    assert raw / 0x100 == k + 8 * d + 0x80_0000 * v;
    assert raw / DELIVER_ERR == d + 0x10_0000 * v;
  }

  lemma DecodeEncode(raw: U32, errField: U32)
    requires raw / 0x1000 % 0x8_0000 == 0
    ensures Encode(Decode(raw, errField)) == raw
  {
    assert raw == raw % 0x100 + 0x100 * (raw / 0x100 % 8)
                  + DELIVER_ERR * (raw / DELIVER_ERR % 2) + VALID * (raw / VALID);
  }

  /** The three fields announce an event to the processor, in the layout of section 24.8.3 of Intel SDM Vol. 3C and
      without any function of the code: the vector; the type of that vector (external interrupt, NMI, hardware
      exception, privileged software exception or software exception; 7 for the vectors that have none); for the
      vectors with an error code, the code that was asked for, or that of the last exit; for INT1, INT3 and INTO, the
      instruction length of the last exit. */
  predicate Announces(f: EntryFields, vector: Vector, err: Option<U32>, exitErr: U32, exitLen: U32) {
    && f.info % 0x100 == vector
    && f.info / 0x100 % 8 == (if 32 <= vector then 0
                              else if vector == 2 then 2
                              else if vector == 1 then 5
                              else if vector in {3, 4} then 6
                              else if vector <= 20 then 3
                              else 7)
    && (f.info / 0x800 % 2 == 1 <==> vector in {8, 10, 11, 12, 13, 14, 17})
    && f.info / 0x1000 % 0x8_0000 == 0
    && f.info / 0x8000_0000 == 1
    && (vector in {8, 10, 11, 12, 13, 14, 17} ==> f.err == if err.Some? then err.value else exitErr)
    && (vector in {1, 3, 4} ==> f.len == exitLen)
  }

  /** What `inject_event` writes announces the event, and touches the error code and the length only where they
      matter. */
  lemma InjectAnnounces(f: EntryFields, vector: Vector, err: Option<U32>, exitErr: U32, exitLen: U32)
    ensures var g := InjectEvent(f, vector, err, exitErr, exitLen);
            && Announces(g, vector, err, exitErr, exitLen)
            && g.IsValid() && !g.Consumed().IsValid()
            && (vector !in {8, 10, 11, 12, 13, 14, 17} ==> g.err == f.err)
            && (vector !in {1, 3, 4} ==> g.len == f.len)
  {
    var e := EffectiveErr(vector, err, exitErr);
    var g := InjectEvent(f, vector, err, exitErr, exitLen);
    var i := Info(vector, FromVector(vector), e, true);
    EncodeDecode(i, g.err);
    RawFields(i);
  }

  /** The raw field of an interruption information, part by part. */
  lemma RawFields(i: Info)
    ensures var raw := Encode(i);
            && raw % 0x100 == i.vector && raw / 0x100 % 8 == i.kind.Code()
            && (raw / 0x800 % 2 == 1 <==> i.err.Some?) && (raw / 0x8000_0000 == 1 <==> i.valid)
  {
    var k, d := i.kind.Code(), if i.err.Some? then 1 else 0;
    var v := if i.valid then 1 else 0;
    var raw := Encode(i);
    assert raw == i.vector + 0x100 * k + DELIVER_ERR * d + VALID * v;
    assert raw / 0x100 == k + 8 * d + 0x80_0000 * v;
    assert raw / DELIVER_ERR == d + 0x10_0000 * v;
  }

  /** And `interrupt_exit_info`'s layout reads the event back: the vector, the type by number, and an error code
      exactly when the vector has one, namely the one asked for or else the last exit's. */
  lemma InjectedFieldsDecode(f: EntryFields, vector: Vector, err: Option<U32>, exitErr: U32, exitLen: U32)
    ensures var g := InjectEvent(f, vector, err, exitErr, exitLen);
            var i := Decode(g.info, g.err);
            && i.vector == vector && i.valid && i.kind.Code() == g.info / 0x100 % 8
            && i.err == (if vector in {8, 10, 11, 12, 13, 14, 17} then Some(if err.Some? then err.value else exitErr)
                         else None)
  {
    InjectAnnounces(f, vector, err, exitErr, exitLen);
  }

  /** Section 26.2.1.3 of Intel SDM Vol. 3C, on the raw fields, with CR0.PE of the guest. They are checks on the
      VMX controls: when one fails, VMLAUNCH or VMRESUME itself fails. */
  predicate EntryChecks(f: EntryFields, pe: bool) {
    var vector, kind := f.info % 0x100, f.info / 0x100 % 8;
    var deliver := f.info / DELIVER_ERR % 2 == 1;
    f.IsValid() ==>
      && kind != 1
      && (kind == 2 ==> vector == 2)
      && (kind == 3 ==> vector <= 31)
      && (kind == 7 ==> vector == 0)
      && (deliver <==> kind == 3 && pe && vector in {8, 10, 11, 12, 13, 14, 17})
      && f.info / 0x1000 % 0x8_0000 == 0
      && (deliver ==> f.err < 0x1_0000)
      && (kind in {4, 5, 6} ==> 1 <= f.len <= 15)
  }

  /** VM entry takes what `inject_event` wrote if and only if the vector is not one of the unassigned 21 to 31;
      an exception with an error code meets a guest in protected mode, and the code fits 16 bits; and, for INT1,
      INT3 and INTO, the last exit reported an instruction length. */
  predicate Injectable(vector: Vector, err: Option<U32>, exitErr: U32, exitLen: U32, pe: bool) {
    && !(21 <= vector <= 31)
    && (vector in {8, 10, 11, 12, 13, 14, 17} ==> pe && (if err.Some? then err.value else exitErr) < 0x1_0000)
    && (vector in {1, 3, 4} ==> 1 <= exitLen <= 15)
  }

  lemma InjectAcceptedIff(f: EntryFields, vector: Vector, err: Option<U32>, exitErr: U32, exitLen: U32, pe: bool)
    ensures EntryChecks(InjectEvent(f, vector, err, exitErr, exitLen), pe) <==>
            Injectable(vector, err, exitErr, exitLen, pe)
  {
    InjectAnnounces(f, vector, err, exitErr, exitLen);
  }
}
