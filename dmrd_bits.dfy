/**
 * Byte 15 of a DMRD frame (dmrtools/dmrproto/mmdvm_l1.py:262-365 and the same
 * accessors in dmrtools/dmrproto.py:352-414):
 *
 *   | 7    | 6         | 5    4     | 3 2 1 0 |
 *   | slot | call_type | frame_type | vseq    |
 *   |                  |      voice_type      |
 *
 * The masks and shifts of the source are written as division and remainder by
 * powers of two, which is the same thing on a byte.
 */
module DmrdBits {
  import opened Wrappers
  import opened Fields
  import opened Enums

  /** The four sub-fields of the byte. */
  datatype BitFields = BitFields(slotBit: nat, unitBit: nat, frameType: nat, vseq: nat)

  predicate ValidFields(f: BitFields) {
    f.slotBit < 2 && f.unitBit < 2 && f.frameType < 4 && f.vseq < 16
  }

  function Unpack(b: byte): (f: BitFields)
    ensures ValidFields(f)
  {
    BitFields(b / 128, b / 64 % 2, b / 16 % 4, b % 16)
  }

  function Pack(f: BitFields): (b: byte)
    requires ValidFields(f)
    ensures Unpack(b) == f
  {
    PackDigits(f);
    f.slotBit * 128 + f.unitBit * 64 + f.frameType * 16 + f.vseq
  }

  /** Reading the packed byte back, field by field. */
  lemma PackDigits(f: BitFields)
    requires ValidFields(f)
    ensures var b := f.slotBit * 128 + f.unitBit * 64 + f.frameType * 16 + f.vseq;
      && 0 <= b < 256
      && b / 128 == f.slotBit && b / 64 % 2 == f.unitBit && b / 16 % 4 == f.frameType && b % 16 == f.vseq
  {
    var b := f.slotBit * 128 + f.unitBit * 64 + f.frameType * 16 + f.vseq;
    var h := f.slotBit * 8 + f.unitBit * 4 + f.frameType;
    assert b == 16 * h + f.vseq;
    assert b / 16 == h && b % 16 == f.vseq;
    assert h == 4 * (f.slotBit * 2 + f.unitBit) + f.frameType;
    assert h / 4 == f.slotBit * 2 + f.unitBit && h % 4 == f.frameType;
    assert b / 64 == h / 4;
    assert b / 128 == f.slotBit;
  }

  /** Every byte is the packing of its sub-fields: the layout covers all eight bits. */
  lemma PackUnpack(b: byte)
    ensures Pack(Unpack(b)) == b
  {
    var h := b / 16;
    var q := h / 4;
    assert b == h * 16 + b % 16;
    assert h == q * 4 + h % 4;
    assert q == b / 64 && q == q / 2 * 2 + q % 2 && q / 2 == b / 128;
  }

  /** A byte is determined by its sub-fields. */
  lemma UnpackInjective(a: byte, b: byte)
    requires Unpack(a) == Unpack(b)
    ensures a == b
  {
    PackUnpack(a);
    PackUnpack(b);
  }

  /** get_slot: 2 exactly when bit 7 is set. */
  function Slot(b: byte): (r: nat)
    ensures r == 1 || r == 2
    ensures r == 2 <==> b >= 0x80
  {
    if Unpack(b).slotBit == 1 then 2 else 1
  }

  /** set_slot: only 1 and 2 are accepted; only bit 7 changes. */
  function SetSlot(b: byte, slot: int): (r: Result<byte>)
    ensures r.Ok? <==> 1 <= slot <= 2
    ensures r.Err? ==> r.error == FieldOutOfRange("slot")
    ensures r.Ok? ==> Unpack(r.value) == Unpack(b).(slotBit := slot - 1) && Slot(r.value) == slot
  {
    if !(1 <= slot <= 2) then Err(FieldOutOfRange("slot"))
    else Ok(Pack(Unpack(b).(slotBit := if slot == 2 then 1 else 0)))
  }

  /** get_call_type: UNIT exactly when bit 6 is set. */
  function GetCallType(b: byte): (r: CallType)
    ensures r == Unit <==> b / 64 % 2 == 1
  {
    if Unpack(b).unitBit == 1 then Unit else Group
  }

  /**
   * set_call_type: only bit 6 changes. The source's membership test cannot fail
   * for a value of the two-member type.
   */
  function SetCallType(b: byte, ct: CallType): (r: byte)
    ensures Unpack(r) == Unpack(b).(unitBit := if ct == Unit then 1 else 0)
    ensures GetCallType(r) == ct
  {
    Pack(Unpack(b).(unitBit := if ct == Unit then 1 else 0))
  }

  /** get_frame_type: bits 5-4. */
  function FrameType(b: byte): (r: nat)
    ensures r < 4 && r == Unpack(b).frameType
  {
    b / 16 % 4
  }

  /** set_frame_type: values of two bits only; only bits 5-4 change. */
  function SetFrameType(b: byte, ft: int): (r: Result<byte>)
    ensures r.Ok? <==> 0 <= ft < 4
    ensures r.Err? ==> r.error == FieldOutOfRange("frame_type")
    ensures r.Ok? ==> Unpack(r.value) == Unpack(b).(frameType := ft) && FrameType(r.value) == ft
  {
    if !(0 <= ft < 4) then Err(FieldOutOfRange("frame_type"))
    else Ok(Pack(Unpack(b).(frameType := ft)))
  }

  /** get_vseq: bits 3-0. */
  function Vseq(b: byte): (r: nat)
    ensures r < 16 && r == Unpack(b).vseq
  {
    b % 16
  }

  /** set_vseq: values of four bits only; only bits 3-0 change. */
  function SetVseq(b: byte, v: int): (r: Result<byte>)
    ensures r.Ok? <==> 0 <= v < 16
    ensures r.Err? ==> r.error == FieldOutOfRange("vseq")
    ensures r.Ok? ==> Unpack(r.value) == Unpack(b).(vseq := v) && Vseq(r.value) == v
  {
    if !(0 <= v < 16) then Err(FieldOutOfRange("vseq"))
    else Ok(Pack(Unpack(b).(vseq := v)))
  }

  /** get_voice_type: from_value of the low six bits (frame type and vseq together). */
  function GetVoiceType(b: byte): (r: VoiceType)
    ensures r == FromValue(FrameType(b) * 16 + Vseq(b))
  {
    LowSixBits(b);
    FromValue(b % 64)
  }

  /** The low six bits are the frame type followed by vseq. */
  lemma LowSixBits(b: byte)
    ensures b % 64 == b / 16 % 4 * 16 + b % 16
  {
    var h := b / 16;
    var q := h / 4;
    assert b == 16 * h + b % 16;
    assert h == 4 * q + h % 4;
    assert b == 64 * q + (h % 4 * 16 + b % 16);
  }

  /** set_voice_type: rewrites the low six bits; slot and call type are kept. */
  function SetVoiceType(b: byte, vt: VoiceType): (r: byte)
    ensures Unpack(r).slotBit == Unpack(b).slotBit && Unpack(r).unitBit == Unpack(b).unitBit
    ensures GetVoiceType(r) == vt
  {
    FromValueOfValue(vt);
    HighBitsKept(b, Value(vt));
    b - b % 64 + Value(vt)
  }

  /** Replacing the low six bits keeps bits 7 and 6. */
  lemma HighBitsKept(b: byte, v: nat)
    requires v < 64
    ensures var r := b - b % 64 + v;
      0 <= r < 256 && r / 128 == b / 128 && r / 64 % 2 == b / 64 % 2 && r % 64 == v
  {
    var k := b / 64;
    var r := b - b % 64 + v;
    assert b == 64 * k + b % 64;
    assert r == 64 * k + v;
    assert r / 64 == k;
    assert r / 128 == k / 2 && b / 128 == k / 2;
  }

  /** is_voice_term of dmrtools/dmrproto/mmdvm_l1.py */
  predicate IsVoiceTerm(b: byte) {
    GetVoiceType(b) == Term
  }

  /** is_voice_term of dmrtools/dmrproto.py: frame type 2 and vseq 2. */
  predicate LegacyIsVoiceTerm(b: byte) {
    FrameType(b) == 2 && Vseq(b) == 2
  }

  /** The two codecs agree on which frames terminate a voice call. */
  lemma VoiceTermAgrees(b: byte)
    ensures IsVoiceTerm(b) <==> LegacyIsVoiceTerm(b)
  {
    var v := FrameType(b) * 16 + Vseq(b);
    if IsVoiceTerm(b) {
      assert Value(FromValue(v)) == v;
    }
  }
}
