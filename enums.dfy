/** The enumerations of the DMR codec (dmrtools/dmrproto/enums.py). */
module Enums {

  /** CallType: a StrEnum with exactly the two members UNIT and GROUP. */
  datatype CallType = Unit | Group

  /** VoiceType; `NoVoice` is the member NONE. */
  datatype VoiceType = NoVoice | Head | BurstA | BurstB | BurstC | BurstD | BurstE | BurstF | Term

  /** The member values; every one fits in the 6 bits the codec masks with 0x3F. */
  function Value(m: VoiceType): (r: nat)
    ensures r < 64
  {
    match m
    case NoVoice => 0x00   // 0b000000
    case Head    => 0x21   // 0b100001
    case BurstA  => 0x10   // 0b010000
    case BurstB  => 0x01
    case BurstC  => 0x02
    case BurstD  => 0x03
    case BurstE  => 0x04
    case BurstF  => 0x05
    case Term    => 0x22   // 0b100010
  }

  /** from_value: the member with that value, NONE when there is none. */
  function FromValue(v: int): (r: VoiceType)
    ensures (exists m :: Value(m) == v) ==> Value(r) == v
    ensures (forall m :: Value(m) != v) ==> r == NoVoice
  {
    if v == 0x21 then Head
    else if v == 0x10 then BurstA
    else if v == 0x01 then BurstB
    else if v == 0x02 then BurstC
    else if v == 0x03 then BurstD
    else if v == 0x04 then BurstE
    else if v == 0x05 then BurstF
    else if v == 0x22 then Term
    else NoVoice
  }

  /** Member values are pairwise distinct. */
  lemma ValueInjective(m1: VoiceType, m2: VoiceType)
    requires Value(m1) == Value(m2)
    ensures m1 == m2
  {
  }

  /** from_value(m.value) == m for every member. */
  lemma FromValueOfValue(m: VoiceType)
    ensures FromValue(Value(m)) == m
  {
    ValueInjective(FromValue(Value(m)), m);
  }
}
