/**
 * The Homebrew/MMDVM repeater protocol packets (dmrtools/dmrproto/mmdvm_l1.py):
 * fixed-size datagrams that start with an ASCII type tag, with fields at fixed
 * offsets. A packet owns a byte buffer that its setters rewrite in place; a DMRD
 * packet also caches the layer-2 view of its 33-byte burst.
 */
module MmdvmL1 {
  import opened Wrappers
  import opened Fields
  import opened Enums
  import opened DmrdBits
  import EtsiL2
  import Factory

  type uint32 = x: int | 0 <= x < 0x1_0000_0000

  /** A 4-byte int field holds exactly the uint32 values. */
  lemma FourBytesIsUint32()
    ensures Pow256(4) == 0x1_0000_0000
  {
    assert Pow256(2) == 65536;
  }

  /** The packet classes of the codec. */
  datatype Kind =
    | MasterNoAck | MasterClose | RepeaterClose | Login | Ack | Auth | Config
    | Ping | Pong | Salt | Beacon | Data | TalkerAlias

  /** A packet class: one of the codec's own, or one registered later with its own tag and size. */
  datatype PacketClass =
    | Builtin(kind: Kind)
    | Custom(name: string, customType: seq<byte>, customSize: nat)

  /** The bytes of an ASCII tag. */
  function Ascii(s: string): (r: seq<byte>)
    requires IsAscii(s)
    ensures |r| == |s| && forall i :: 0 <= i < |s| ==> r[i] == s[i] as int
  {
    seq(|s|, i requires 0 <= i < |s| => s[i] as int)
  }

  /** PKT_TYPE */
  function PktType(c: PacketClass): seq<byte> {
    match c
    case Custom(_, t, _) => t
    case Builtin(k) =>
      match k
      case MasterNoAck   => Ascii("MSTNAK")
      case MasterClose   => Ascii("MSTCL")
      case RepeaterClose => Ascii("RPTCL")
      case Login         => Ascii("RPTL")
      case Ack           => Ascii("RPTACK")
      case Auth          => Ascii("RPTK")
      case Config        => Ascii("RPTC")
      case Ping          => Ascii("RPTPING")
      case Pong          => Ascii("MSTPONG")
      case Salt          => Ascii("RPTACK")
      case Beacon        => Ascii("RPTSBKN")
      case Data          => Ascii("DMRD")
      case TalkerAlias   => Ascii("DMRA")
  }

  /** PKT_SIZE */
  function PktSize(c: PacketClass): nat {
    match c
    case Custom(_, _, n) => n
    case Builtin(k) =>
      match k
      case MasterNoAck   => 10
      case MasterClose   => 9
      case RepeaterClose => 9
      case Login         => 8
      case Ack           => 10
      case Auth          => 40
      case Config        => 302
      case Ping          => 11
      case Pong          => 11
      case Salt          => 10
      case Beacon        => 11
      case Data          => 55
      case TalkerAlias   => 15
  }

  // ---------------------------------------------------------------------------
  // Field layouts

  /**
   * peer_id: DMRPFieldPeerAuto puts it right after the type tag; DMRD declares its
   * own at offset 11; the salt packet has none.
   */
  function PeerIdField(c: PacketClass): (r: Option<Field>)
    ensures r.Some? ==> r.value.bytelen == 4 && r.value.kind == IntField
    ensures r.Some? && c.Builtin? && c.kind != Data ==> r.value.offset == |PktType(c)|
  {
    match c
    case Builtin(Salt) => None
    case Builtin(Data) => Some(Field("peer_id", 11, 4, IntField))
    case Builtin(_) => Some(Field("peer_id", |PktType(c)|, 4, IntField))
    case Custom(_, _, _) => None
  }

  const SaltField := Field("salt", 6, 4, BytesField)
  const PassHashField := Field("pass_hash", 8, 32, BytesField)

  function ConfigStr(name: string, offset: nat, len: nat): Field {
    Field(name, offset, len, StrField(Space))
  }

  /** The fourteen space-padded strings of RPTC, in declaration order. */
  const ConfigFields: seq<Field> := [
    ConfigStr("callsign", 8, 8), ConfigStr("rx_freq", 16, 9), ConfigStr("tx_freq", 25, 9),
    ConfigStr("power", 34, 2), ConfigStr("color_code", 36, 2), ConfigStr("lat", 38, 8),
    ConfigStr("lon", 46, 9), ConfigStr("height", 55, 3), ConfigStr("location", 58, 20),
    ConfigStr("description", 78, 19), ConfigStr("slots", 97, 1), ConfigStr("url", 98, 124),
    ConfigStr("software_id", 222, 40), ConfigStr("package_id", 262, 40)]

  const TaSrcIdField := Field("src_id", 8, 3, IntField)
  const TaDataField := Field("ta_data", 11, 4, BytesField)
  const TaStrField := Field("ta_str", 11, 4, StrField(Space))

  const SeqField := Field("seq", 4, 1, IntField)
  const SrcIdField := Field("src_id", 5, 3, IntField)
  const DstIdField := Field("dst_id", 8, 3, IntField)
  const DataPeerIdField := Field("peer_id", 11, 4, IntField)
  const BitsField := Field("bits", 15, 1, IntField)
  const StreamIdField := Field("stream_id", 16, 4, IntField)
  const DmrDataField := Field("dmr_data", 20, 33, BytesField)
  const BerField := Field("ber", 53, 1, IntField)
  const RssiField := Field("rssi", 54, 1, IntField)

  /** Every field a class declares, peer_id included. */
  function FieldsOf(c: PacketClass): seq<Field> {
    var peer := if PeerIdField(c).Some? then [PeerIdField(c).value] else [];
    match c
    case Builtin(Salt) => [SaltField]
    case Builtin(Auth) => peer + [PassHashField]
    case Builtin(Config) => peer + ConfigFields
    case Builtin(TalkerAlias) => peer + [TaSrcIdField, TaDataField, TaStrField]
    case Builtin(Data) =>
      [SeqField, SrcIdField, DstIdField, DataPeerIdField, BitsField, StreamIdField,
       DmrDataField, BerField, RssiField]
    case _ => peer
  }

  /** Every field of every class of the codec lies inside the packet, after the type tag. */
  lemma FieldsInsidePacket(c: PacketClass, f: Field)
    requires c.Builtin? && f in FieldsOf(c)
    ensures Fits(f, PktSize(c)) && |PktType(c)| <= f.offset
  {
    if c.kind == Config {
      if f != PeerIdField(c).value {
        ConfigFieldsInside(f);
      }
    } else if c.kind == Data {
      DataFieldsInside(f);
    }
  }

  lemma ConfigFieldsInside(f: Field)
    requires f in ConfigFields
    ensures Fits(f, PktSize(Builtin(Config))) && |PktType(Builtin(Config))| <= f.offset
  {
  }

  lemma DataFieldsInside(f: Field)
    requires f in FieldsOf(Builtin(Data))
    ensures Fits(f, PktSize(Builtin(Data))) && |PktType(Builtin(Data))| <= f.offset
  {
  }

  // ---------------------------------------------------------------------------
  // Detection, creation, parsing

  predicate StartsWith(d: seq<byte>, prefix: seq<byte>) {
    |prefix| <= |d| && d[..|prefix|] == prefix
  }

  /** detect_by_data */
  function Detect(c: PacketClass, d: seq<byte>): (r: bool)
    ensures r <==> PktType(c) != [] && (PktSize(c) == 0 || |d| == PktSize(c)) && StartsWith(d, PktType(c))
  {
    if PktSize(c) != 0 && PktSize(c) != |d| then false
    else if PktType(c) == [] then false
    else StartsWith(d, PktType(c))
  }

  /** What from_data demands before it keeps the bytes (it raises DMRPBadPacketException otherwise). */
  predicate Acceptable(c: PacketClass, d: seq<byte>) {
    StartsWith(d, PktType(c)) && |d| == PktSize(c)
  }

  /** A class that detects the data also accepts it, unless it has no fixed size. */
  lemma DetectThenAcceptable(c: PacketClass, d: seq<byte>)
    requires Detect(c, d) && PktSize(c) != 0
    ensures Acceptable(c, d)
  {
  }

  /** The byte `create` fills the buffer with: spaces for RPTC, zeros otherwise. */
  function Filler(c: PacketClass): byte {
    if c == Builtin(Config) then Space else Nul
  }

  /**
   * create: a PKT_SIZE buffer of filler bytes with the type tag written at its start;
   * a tag longer than the buffer extends it (Python slice assignment).
   */
  function CreateData(c: PacketClass): (r: seq<byte>)
    ensures StartsWith(r, PktType(c))
    ensures |r| == if |PktType(c)| <= PktSize(c) then PktSize(c) else |PktType(c)|
    ensures forall i :: |PktType(c)| <= i < |r| ==> r[i] == Filler(c)
  {
    var t := PktType(c);
    if |t| <= PktSize(c) then t + seq(PktSize(c) - |t|, _ => Filler(c)) else t
  }

  /** A freshly created packet is recognised by its own class. */
  lemma CreateDetected(c: PacketClass)
    requires PktType(c) != [] && |PktType(c)| <= PktSize(c)
    ensures Detect(c, CreateData(c)) && Acceptable(c, CreateData(c))
  {
  }

  /** The class list of DMRPPacketFactory, in its order. */
  const DefaultClasses: seq<PacketClass> := [
    Builtin(MasterNoAck), Builtin(MasterClose), Builtin(RepeaterClose),
    Builtin(Login), Builtin(Ack), Builtin(Auth), Builtin(Config),
    Builtin(Ping), Builtin(Pong), Builtin(Salt), Builtin(Beacon),
    Builtin(Data), Builtin(TalkerAlias)]

  /** The class the packet factory picks for a datagram (DMRPPacketFactory.from_data). */
  function Classify(d: seq<byte>): Result<PacketClass> {
    Factory.Produce(DefaultClasses, Detect, UnknownPacketType, d)
  }

  /** Same size and same tag where both tags are defined: only RPTACK is shared. */
  lemma DetectDisjoint(c1: PacketClass, c2: PacketClass, d: seq<byte>)
    requires c1.Builtin? && c2.Builtin? && Detect(c1, d) && Detect(c2, d)
    ensures c1 == c2 || {c1.kind, c2.kind} == {Ack, Salt}
  {
    var t1, t2 := PktType(c1), PktType(c2);
    assert d[..|t1|] == t1 && d[..|t2|] == t2;
    assert t1[0] == d[0] == t2[0];
    if |t1| >= 4 && |t2| >= 4 {
      assert t1[3] == d[3] == t2[3];
    }
    if |t1| >= 5 && |t2| >= 5 {
      assert t1[4] == d[4] == t2[4];
    }
  }

  function IndexOfDefault(k: Kind): (i: nat)
    ensures i < |DefaultClasses| && DefaultClasses[i] == Builtin(k)
    ensures forall j :: 0 <= j < i ==> DefaultClasses[j] != Builtin(k)
  {
    match k
    case MasterNoAck => 0
    case MasterClose => 1
    case RepeaterClose => 2
    case Login => 3
    case Ack => 4
    case Auth => 5
    case Config => 6
    case Ping => 7
    case Pong => 8
    case Salt => 9
    case Beacon => 10
    case Data => 11
    case TalkerAlias => 12
  }

  /** The class that wins for data of kind `k`: the ack class shadows the salt class. */
  function Winner(k: Kind): Kind {
    if k == Salt then Ack else k
  }

  /**
   * In a list of distinct codec classes where the salt class does not precede the ack class, data
   * detected as kind k, with Winner(k) at position i, is produced as Winner(k).
   */
  lemma FirstDetectedWins(cs: seq<PacketClass>, i: nat, k: Kind, d: seq<byte>)
    requires i < |cs| && cs[i] == Builtin(Winner(k)) && Detect(Builtin(k), d)
    requires forall j :: 0 <= j < i ==> cs[j].Builtin? && cs[j] != cs[i]
    requires Winner(k) == Ack ==> forall j :: 0 <= j < i ==> cs[j] != Builtin(Salt)
    ensures Factory.Produce(cs, Detect, UnknownPacketType, d) == Ok(Builtin(Winner(k)))
  {
    assert Detect(cs[i], d);
    forall j | 0 <= j < i
      ensures !Detect(cs[j], d)
    {
      if Detect(cs[j], d) {
        DetectDisjoint(cs[j], Builtin(k), d);
      }
    }
    Factory.ProduceFirst(cs, Detect, UnknownPacketType, d, i);
  }

  /**
   * First match in list order: data that a class of the codec detects parses as that
   * class, except that 10-byte RPTACK data always parses as an ack, never as a salt.
   */
  lemma ClassifyDetected(k: Kind, d: seq<byte>)
    requires Detect(Builtin(k), d)
    ensures Classify(d) == Ok(Builtin(Winner(k)))
  {
    FirstDetectedWins(DefaultClasses, IndexOfDefault(Winner(k)), k, d);
  }

  /** Data no class of the codec detects is reported as an unknown packet type. */
  lemma ClassifyUnknown(d: seq<byte>)
    requires forall k :: !Detect(Builtin(k), d)
    ensures Classify(d) == Err(UnknownPacketType)
  {
  }

  // ---------------------------------------------------------------------------
  // Layer 2 (DMRPPacketData.get_l2 and friends), on the frame bytes

  /**
   * The view get_l2 builds when nothing is cached: a full-LC view for a voice
   * header or terminator, a voice-burst view for bursts A-F, none otherwise.
   */
  function L2Of(d: seq<byte>): (r: Option<EtsiL2.View>)
    requires |d| == PktSize(Builtin(Data))
    ensures r.Some? && r.value.FullLc? <==> GetVoiceType(d[15]) in {Head, Term}
    ensures r.Some? && r.value.VoiceBurst? <==> GetVoiceType(d[15]) in {BurstA, BurstB, BurstC, BurstD, BurstE, BurstF}
    ensures r.None? <==> GetVoiceType(d[15]) == NoVoice
    ensures r.Some? ==> EtsiL2.GetData(r.value) == Get(d, DmrDataField) && |r.value.bitdata| == 264
  {
    var vt := GetVoiceType(d[15]);
    var burst := Get(d, DmrDataField);
    EtsiL2.GetDataOfSetData(true, burst);
    EtsiL2.GetDataOfSetData(false, burst);
    if vt in {Head, Term} then Some(EtsiL2.SetDataAsWritten(true, burst))
    else if vt != NoVoice then Some(EtsiL2.SetDataAsWritten(false, burst))
    else None
  }

  /** get_l2 with the cache: a cached view wins, even if the frame changed since. */
  function CachedL2(cache: Option<EtsiL2.View>, d: seq<byte>): Option<EtsiL2.View>
    requires |d| == PktSize(Builtin(Data))
  {
    if cache.Some? then cache else L2Of(d)
  }

  /** get_full_lc on a view, with the BPTC decoder as a parameter. */
  function FullLcOf(v: Option<EtsiL2.View>, decodeFullLc: seq<EtsiL2.bit> -> seq<EtsiL2.bit>): Option<seq<byte>> {
    if v.Some? && v.value.FullLc? then Some(EtsiL2.GetFullLc(v.value, decodeFullLc)) else None
  }

  /** get_emb_lc on a view. */
  function EmbLcOf(v: Option<EtsiL2.View>): Option<seq<byte>> {
    if v.Some? && v.value.VoiceBurst? then Some(EtsiL2.GetEmbLc(v.value)) else None
  }

  /** get_lc: the full LC, else the embedded LC fragment, else empty bytes. */
  function LcOf(v: Option<EtsiL2.View>, decodeFullLc: seq<EtsiL2.bit> -> seq<EtsiL2.bit>): (r: seq<byte>)
    ensures v.None? ==> r == []
    ensures v.Some? && v.value.VoiceBurst? && |v.value.bitdata| == 264 ==> |r| == 4
  {
    match FullLcOf(v, decodeFullLc)
    case Some(lc) => lc
    case None =>
      match EmbLcOf(v)
      case Some(lc) => lc
      case None => []
  }

  /** A burst B-E frame seen with an empty cache always yields its embedded-LC fragment. */
  lemma EmbLcOfVoiceBurst(d: seq<byte>)
    requires |d| == PktSize(Builtin(Data))
    requires GetVoiceType(d[15]) in {BurstB, BurstC, BurstD, BurstE}
    ensures var e := EmbLcOf(CachedL2(None, d));
      e.Some? && forall k :: 0 <= k < 4 ==> e.value[k] == d[34 + k] % 16 * 16 + d[35 + k] / 16
  {
    var burst := Get(d, DmrDataField);
    EtsiL2.EmbLcOfBurst(burst);
  }

  // ---------------------------------------------------------------------------
  // The packet object

  class Packet {
    const cls: PacketClass
    /** The bytearray `_data`. */
    const data: array<byte>
    /** DMRPPacketData.__l2: the cached layer-2 view. */
    var l2: Option<EtsiL2.View>

    predicate Valid()
      reads this
    {
      data.Length == PktSize(cls)
    }

    predicate IsData()
      reads this
    {
      cls == Builtin(Data) && Valid()
    }

    /** get_data */
    function GetData(): seq<byte>
      reads data
    {
      data[..]
    }

    /** Packet() without data: create. */
    constructor Create(c: PacketClass)
      ensures cls == c && data[..] == CreateData(c) && l2.None? && fresh(data)
    {
      var d := CreateData(c);
      cls := c;
      data := new byte[|d|](i requires 0 <= i < |d| => d[i]);
      l2 := None;
    }

    constructor Wrap(c: PacketClass, d: seq<byte>)
      ensures cls == c && data[..] == d && l2.None? && fresh(data)
    {
      cls := c;
      data := new byte[|d|](i requires 0 <= i < |d| => d[i]);
      l2 := None;
    }

    /** Packet(data): from_data raises DMRPBadPacketException on a wrong tag or size. */
    static method FromData(c: PacketClass, d: seq<byte>) returns (r: Result<Packet>)
      ensures r.Ok? <==> Acceptable(c, d)
      ensures r.Err? ==> r.error == BadPacket
      ensures r.Ok? ==> fresh(r.value) && fresh(r.value.data) && r.value.cls == c
      ensures r.Ok? ==> r.value.GetData() == d && r.value.l2.None? && r.value.Valid()
    {
      if !StartsWith(d, PktType(c)) {
        return Err(BadPacket);
      }
      if |d| != PktSize(c) {
        return Err(BadPacket);
      }
      var p := new Packet.Wrap(c, d);
      return Ok(p);
    }

    /** copy: same class, an independent byte-identical buffer, nothing cached. */
    method Copy() returns (p: Packet)
      ensures fresh(p) && fresh(p.data)
      ensures p.cls == cls && p.GetData() == GetData() && p.l2.None?
    {
      p := new Packet.Wrap(cls, data[..]);
    }

    function GetBytes(f: Field): (r: seq<byte>)
      reads data
      requires Fits(f, data.Length)
    {
      Get(data[..], f)
    }

    function GetInt(f: Field): nat
      reads data
      requires Fits(f, data.Length)
    {
      Fields.GetInt(data[..], f)
    }

    function GetStr(f: Field): string
      reads data
      requires Fits(f, data.Length)
    {
      Fields.GetStr(data[..], f)
    }

    /** A bytes field's setter. */
    method SetBytes(f: Field, v: seq<byte>) returns (r: Outcome)
      requires Fits(f, data.Length)
      modifies data
      ensures r.Pass? <==> |v| == f.bytelen
      ensures r.Fail? ==> r.error == FieldOutOfRange(f.name) && data[..] == old(data[..])
      ensures r.Pass? ==> data[..] == Splice(old(data[..]), f, v)
    {
      r := Write(data, f, v);
    }

    /** An int field's setter: range check first, then the big-endian bytes. */
    method SetInt(f: Field, v: int) returns (r: Outcome)
      requires Fits(f, data.Length)
      modifies data
      ensures r.Pass? <==> IntInRange(f, v)
      ensures r.Fail? ==> r.error == FieldOutOfRange(f.name) && data[..] == old(data[..])
      ensures r.Pass? ==> Fields.SetInt(old(data[..]), f, v) == Ok(data[..])
    {
      match EncodeInt(f, v)
      case Err(e) =>
        r := Fail(e);
      case Ok(bs) =>
        r := Write(data, f, bs);
    }

    /** A string field's setter. */
    method SetStr(f: Field, s: string)
      requires Fits(f, data.Length) && f.kind.StrField?
      modifies data
      ensures data[..] == Fields.SetStr(old(data[..]), f, s)
    {
      var _ := Write(data, f, EncodeStr(f, s));
    }

    /** Rewrites byte 15 of a DMRD frame. */
    method SetBitsByte(b: byte)
      requires IsData()
      modifies data
      ensures data[..] == old(data[..])[15 := b]
    {
      data[15] := b;
    }

    /** set_slot */
    method SetSlot(slot: int) returns (r: Outcome)
      requires IsData()
      modifies data
      ensures r.Pass? <==> DmrdBits.SetSlot(old(data[15]), slot).Ok?
      ensures r.Fail? ==> r.error == FieldOutOfRange("slot") && data[..] == old(data[..])
      ensures r.Pass? ==> data[..] == old(data[..])[15 := DmrdBits.SetSlot(old(data[15]), slot).value]
    {
      match DmrdBits.SetSlot(data[15], slot)
      case Err(e) => r := Fail(e);
      case Ok(b) => SetBitsByte(b); r := Pass;
    }

    /** set_call_type */
    method SetCallType(ct: CallType)
      requires IsData()
      modifies data
      ensures data[..] == old(data[..])[15 := DmrdBits.SetCallType(old(data[15]), ct)]
    {
      SetBitsByte(DmrdBits.SetCallType(data[15], ct));
    }

    /** set_frame_type */
    method SetFrameType(ft: int) returns (r: Outcome)
      requires IsData()
      modifies data
      ensures r.Pass? <==> DmrdBits.SetFrameType(old(data[15]), ft).Ok?
      ensures r.Fail? ==> r.error == FieldOutOfRange("frame_type") && data[..] == old(data[..])
      ensures r.Pass? ==> data[..] == old(data[..])[15 := DmrdBits.SetFrameType(old(data[15]), ft).value]
    {
      match DmrdBits.SetFrameType(data[15], ft)
      case Err(e) => r := Fail(e);
      case Ok(b) => SetBitsByte(b); r := Pass;
    }

    /** set_vseq */
    method SetVseq(v: int) returns (r: Outcome)
      requires IsData()
      modifies data
      ensures r.Pass? <==> DmrdBits.SetVseq(old(data[15]), v).Ok?
      ensures r.Fail? ==> r.error == FieldOutOfRange("vseq") && data[..] == old(data[..])
      ensures r.Pass? ==> data[..] == old(data[..])[15 := DmrdBits.SetVseq(old(data[15]), v).value]
    {
      match DmrdBits.SetVseq(data[15], v)
      case Err(e) => r := Fail(e);
      case Ok(b) => SetBitsByte(b); r := Pass;
    }

    /** set_voice_type */
    method SetVoiceType(vt: VoiceType)
      requires IsData()
      modifies data
      ensures data[..] == old(data[..])[15 := DmrdBits.SetVoiceType(old(data[15]), vt)]
    {
      SetBitsByte(DmrdBits.SetVoiceType(data[15], vt));
    }

    /** get_l2: builds the view on first use and caches it. */
    method GetL2() returns (v: Option<EtsiL2.View>)
      requires IsData()
      modifies this
      ensures l2 == CachedL2(old(l2), data[..]) && v == l2
    {
      if l2.None? {
        l2 := L2Of(data[..]);
      }
      v := l2;
    }

    /** get_full_lc */
    method GetFullLc(decodeFullLc: seq<EtsiL2.bit> -> seq<EtsiL2.bit>) returns (r: Option<seq<byte>>)
      requires IsData()
      modifies this
      ensures l2 == CachedL2(old(l2), data[..]) && r == FullLcOf(l2, decodeFullLc)
    {
      var v := GetL2();
      r := FullLcOf(v, decodeFullLc);
    }

    /** get_emb_lc */
    method GetEmbLc() returns (r: Option<seq<byte>>)
      requires IsData()
      modifies this
      ensures l2 == CachedL2(old(l2), data[..]) && r == EmbLcOf(l2)
    {
      var v := GetL2();
      r := EmbLcOf(v);
    }

    /**
     * get_lc: on a frame seen with an empty cache, the decoded full LC of a header or
     * terminator, the 4-byte embedded fragment of a voice burst, and empty bytes for
     * anything else.
     */
    method GetLc(decodeFullLc: seq<EtsiL2.bit> -> seq<EtsiL2.bit>) returns (r: seq<byte>)
      requires IsData()
      modifies this
      ensures l2 == CachedL2(old(l2), data[..]) && r == LcOf(l2, decodeFullLc)
      ensures old(l2).None? && GetVoiceType(data[15]) == NoVoice ==> r == []
      ensures old(l2).None? && GetVoiceType(data[15]) in {Head, Term} ==>
        r == EtsiL2.GetFullLc(l2.value, decodeFullLc)
      ensures old(l2).None? && GetVoiceType(data[15]) in {BurstA, BurstB, BurstC, BurstD, BurstE, BurstF} ==>
        r == EtsiL2.GetEmbLc(l2.value) && |r| == 4
    {
      var full := GetFullLc(decodeFullLc);
      if full.Some? {
        return full.value;
      }
      var emb := GetEmbLc();
      if emb.Some? {
        return emb.value;
      }
      return [];
    }
  }

  /** DMRPPacketFactory(): the generic factory over the codec's class list. */
  method NewPacketFactory() returns (f: Factory.Factory<PacketClass>)
    ensures fresh(f) && f.classes == DefaultClasses
    ensures f.detect == Detect && f.notFound == UnknownPacketType
  {
    f := new Factory.Factory(Some(DefaultClasses), Detect, UnknownPacketType);
  }

  /**
   * from_data of a packet factory: the first class that detects the data builds the
   * packet from it; a class without a fixed size can detect data it then refuses.
   */
  method ParsePacket(f: Factory.Factory<PacketClass>, d: seq<byte>) returns (r: Result<Packet>)
    ensures var c := Factory.Produce(f.classes, f.detect, f.notFound, d);
      && (c.Err? ==> r == Err(f.notFound))
      && (c.Ok? && Acceptable(c.value, d) ==> r.Ok?)
      && (c.Ok? && !Acceptable(c.value, d) ==> r == Err(BadPacket))
    ensures r.Ok? ==> fresh(r.value) && fresh(r.value.data)
    ensures r.Ok? ==> Factory.Produce(f.classes, f.detect, f.notFound, d) == Ok(r.value.cls)
    ensures r.Ok? ==> r.value.GetData() == d && r.value.l2.None? && r.value.Valid()
  {
    var c := f.FromData(d);
    match c
    case Err(e) =>
      r := Err(e);
    case Ok(cls) =>
      r := Packet.FromData(cls, d);
  }

  /**
   * DMRPPacketFactory.fd(data): the packet factory parses the datagram; it fails
   * exactly when no class of the codec detects it.
   */
  method FromDatagram(d: seq<byte>) returns (r: Result<Packet>)
    ensures r.Err? <==> Classify(d).Err?
    ensures r.Ok? ==> fresh(r.value) && fresh(r.value.data)
    ensures r.Ok? ==> r.value.cls == Classify(d).value && r.value.cls.Builtin?
    ensures r.Ok? ==> r.value.GetData() == d && r.value.l2.None? && r.value.Valid()
  {
    var f := NewPacketFactory();
    r := ParsePacket(f, d);
    if Classify(d).Ok? {
      ClassifiedParses(d);
    }
  }

  /** With the codec's own detection and sized classes, every detected datagram parses. */
  lemma SizedClassesParse(cs: seq<PacketClass>, d: seq<byte>)
    requires forall c :: c in cs ==> PktSize(c) != 0
    requires Factory.Produce(cs, Detect, UnknownPacketType, d).Ok?
    ensures Acceptable(Factory.Produce(cs, Detect, UnknownPacketType, d).value, d)
  {
    var c := Factory.Produce(cs, Detect, UnknownPacketType, d).value;
    DetectThenAcceptable(c, d);
  }

  /**
   * The packet factory's classes are the codec's own, each of a fixed size, so a
   * datagram it classifies always parses as that class.
   */
  lemma ClassifiedParses(d: seq<byte>)
    requires Classify(d).Ok?
    ensures Classify(d).value.Builtin? && Acceptable(Classify(d).value, d)
  {
    DefaultClassesSized();
    SizedClassesParse(DefaultClasses, d);
  }

  /** Every class of the packet factory is one of the codec's, with a fixed size. */
  lemma DefaultClassesSized()
    ensures forall c :: c in DefaultClasses ==> c.Builtin? && PktSize(c) != 0
  {
    forall c | c in DefaultClasses
      ensures c.Builtin? && PktSize(c) != 0
    {
      assert c.Builtin?;
    }
  }
}
