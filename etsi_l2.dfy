/**
 * Layer-2 views of the 33-byte DMR burst carried in a DMRD frame
 * (dmrtools/dmrproto/etsi_l2.py). The burst is laid out as in section 4.2 of
 * ETSI TS 102 361-1: 108 payload bits, a 48-bit centre field (sync, or EMB with
 * 32 bits of embedded signalling), then 108 payload bits. The views keep the burst
 * as a big-endian bit string and only slice it.
 */
module EtsiL2 {
  import opened Wrappers
  import opened Fields

  type bit = x: int | 0 <= x < 2

  /** Bits of one byte, most significant first (bitarray(..., endian='big')). */
  function BitsOf(b: byte): (r: seq<bit>)
    ensures |r| == 8
  {
    var b1 := b / 2; var b2 := b1 / 2; var b3 := b2 / 2; var b4 := b3 / 2;
    var b5 := b4 / 2; var b6 := b5 / 2; var b7 := b6 / 2;
    [b7 % 2, b6 % 2, b5 % 2, b4 % 2, b3 % 2, b2 % 2, b1 % 2, b % 2]
  }

  /** The byte whose bits, most significant first, are `bs`. */
  function ByteOf(bs: seq<bit>): byte
    requires |bs| == 8
  {
    var hi := ((bs[0] as int * 2 + bs[1]) * 2 + bs[2]) * 2 + bs[3];
    var lo := ((bs[4] as int * 2 + bs[5]) * 2 + bs[6]) * 2 + bs[7];
    hi * 16 + lo
  }

  lemma ByteOfBitsOf(b: byte)
    ensures ByteOf(BitsOf(b)) == b
  {
    HighNibbleBits(b);
    LowNibbleBits(b);
  }

  /** bitarray(data, endian='big') */
  function BytesToBits(d: seq<byte>): (r: seq<bit>)
    ensures |r| == 8 * |d|
  {
    if d == [] then [] else BitsOf(d[0]) + BytesToBits(d[1..])
  }

  /** bitarray.tobytes(): a final partial byte is filled up with zero bits. */
  function BitsToBytes(bs: seq<bit>): (r: seq<byte>)
    ensures |r| == (|bs| + 7) / 8
  {
    if bs == [] then []
    else if |bs| < 8 then [ByteOf(bs + seq(8 - |bs|, _ => 0))]
    else [ByteOf(bs[..8])] + BitsToBytes(bs[8..])
  }

  lemma {:induction false} BytesToBitsAt(d: seq<byte>, i: nat, j: nat)
    requires i < |d| && j < 8
    ensures BytesToBits(d)[8 * i + j] == BitsOf(d[i])[j]
  {
    if i > 0 {
      BytesToBitsAt(d[1..], i - 1, j);
    }
  }

  lemma {:induction false} BitsToBytesAt(bs: seq<bit>, k: nat)
    requires |bs| % 8 == 0 && k < |bs| / 8
    ensures BitsToBytes(bs)[k] == ByteOf(bs[8 * k..8 * k + 8])
  {
    if k > 0 {
      BitsToBytesAt(bs[8..], k - 1);
      assert bs[8..][8 * (k - 1)..8 * (k - 1) + 8] == bs[8 * k..8 * k + 8];
    }
  }

  /** tobytes inverts the bit expansion: get_data returns the bytes the view was built from. */
  lemma BitsRoundTrip(d: seq<byte>)
    ensures BitsToBytes(BytesToBits(d)) == d
  {
    var bs := BytesToBits(d);
    var n := |d|;
    assert (8 * n + 7) / 8 == n;
    assert |BitsToBytes(bs)| == n;
    forall k | 0 <= k < |d|
      ensures BitsToBytes(bs)[k] == d[k]
    {
      BitsToBytesAt(bs, k);
      ChunkIsBitsOf(d, k);
      ByteOfBitsOf(d[k]);
    }
  }

  /** The k-th eight bits of the expansion are the bits of the k-th byte. */
  lemma {:induction false} ChunkIsBitsOf(d: seq<byte>, k: nat)
    requires k < |d|
    ensures BytesToBits(d)[8 * k..8 * k + 8] == BitsOf(d[k])
  {
    var bs := BytesToBits(d);
    assert bs == BitsOf(d[0]) + BytesToBits(d[1..]);
    if k == 0 {
      assert bs[..8] == BitsOf(d[0]);
    } else {
      ChunkIsBitsOf(d[1..], k - 1);
      assert bs[8..] == BytesToBits(d[1..]);
      assert bs[8..][8 * (k - 1)..8 * (k - 1) + 8] == bs[8 * k..8 * k + 8];
    }
  }

  // Python slicing clamps its bounds to the sequence.

  /** s[:n] */
  function Prefix<T>(s: seq<T>, n: nat): (r: seq<T>)
    ensures |r| == if n <= |s| then n else |s|
    ensures r == s[..|r|]
  {
    if n <= |s| then s[..n] else s
  }

  /** s[-n:] for n > 0 */
  function Suffix<T>(s: seq<T>, n: nat): (r: seq<T>)
    ensures |r| == if n <= |s| then n else |s|
    ensures r == s[|s| - |r|..]
  {
    if n <= |s| then s[|s| - n..] else s
  }

  /** s[a:b] for 0 <= a <= b */
  function Slice<T>(s: seq<T>, a: nat, b: nat): (r: seq<T>)
    requires a <= b
    ensures b <= |s| ==> r == s[a..b]
    ensures |r| <= b - a
  {
    if b <= |s| then s[a..b] else if a <= |s| then s[a..] else []
  }

  /** DMRPL2Base.DataTypes */
  datatype DataType = Unknown | FullLcType | VoiceBurstType

  /** The two concrete views; `bitdata` is the burst as bits. */
  datatype View = FullLc(bitdata: seq<bit>) | VoiceBurst(bitdata: seq<bit>)

  const BurstBytes: nat := 33

  /**
   * The constructor / set_data as written: the length check builds the exception but
   * never raises it, so a burst of any length is accepted.
   */
  function SetDataAsWritten(fullLc: bool, d: seq<byte>): (r: View)
    ensures r.FullLc? <==> fullLc
    ensures |r.bitdata| == 8 * |d|
  {
    if fullLc then FullLc(BytesToBits(d)) else VoiceBurst(BytesToBits(d))
  }

  /** A 32-byte burst gets through set_data. */
  lemma SetDataAcceptsShortBurst()
    ensures var v := SetDataAsWritten(false, seq(32, _ => 0)); |GetData(v)| == 32 != BurstBytes
  {
    BitsRoundTrip(seq(32, _ => 0));
  }

  /** set_data with the length check raising as intended. */
  function SetData(fullLc: bool, d: seq<byte>): (r: Result<View>)
    ensures r.Ok? <==> |d| == BurstBytes
    ensures r.Err? ==> r.error == L2BadData
    ensures r.Ok? ==> r.value == SetDataAsWritten(fullLc, d) && |r.value.bitdata| == 264
  {
    if |d| != BurstBytes then Err(L2BadData) else Ok(SetDataAsWritten(fullLc, d))
  }

  /** get_data */
  function GetData(v: View): seq<byte> {
    BitsToBytes(v.bitdata)
  }

  /** get_data returns exactly the bytes the view was built from. */
  lemma GetDataOfSetData(fullLc: bool, d: seq<byte>)
    ensures GetData(SetDataAsWritten(fullLc, d)) == d
  {
    BitsRoundTrip(d);
  }

  /** get_data_type */
  function GetDataType(v: View): (r: DataType)
    ensures r != Unknown
    ensures r == FullLcType <==> v.FullLc?
  {
    match v
    case FullLc(_) => FullLcType
    case VoiceBurst(_) => VoiceBurstType
  }

  /**
   * The 196 bits DMRPL2FullLC hands to the BPTC(196,96) decoder: the 98 bits before
   * and the 98 bits after the centre field of the burst.
   */
  function FullLcInput(v: View): (r: seq<bit>)
    requires v.FullLc?
    ensures |v.bitdata| == 264 ==> |r| == 196 && r == v.bitdata[..98] + v.bitdata[166..]
  {
    Prefix(v.bitdata, 98) + Suffix(v.bitdata, 98)
  }

  /** get_full_lc, with the BPTC decoder of the dmr_utils3 package as a parameter. */
  function GetFullLc(v: View, decodeFullLc: seq<bit> -> seq<bit>): seq<byte>
    requires v.FullLc?
  {
    BitsToBytes(decodeFullLc(FullLcInput(v)))
  }

  /** get_voice_bits: the two 108-bit vocoder halves around the centre field. */
  function GetVoiceBits(v: View): (r: (seq<bit>, seq<bit>))
    requires v.VoiceBurst?
    ensures |v.bitdata| == 264 ==> |r.0| == 108 == |r.1|
    ensures |v.bitdata| == 264 ==> v.bitdata == r.0 + v.bitdata[108..156] + r.1
  {
    (Prefix(v.bitdata, 108), Suffix(v.bitdata, 108))
  }

  /** get_emb_lc: bits 116..147, the embedded-signalling part of the centre field. */
  function GetEmbLc(v: View): (r: seq<byte>)
    requires v.VoiceBurst?
    ensures |v.bitdata| == 264 ==> |r| == 4
  {
    BitsToBytes(Slice(v.bitdata, 116, 148))
  }

  /** The last four bits of a byte spell its low nibble. */
  lemma LowNibbleBits(x: byte)
    ensures var b := BitsOf(x); ((b[4] as int * 2 + b[5]) * 2 + b[6]) * 2 + b[7] == x % 16
  {
    var x1 := x / 2; var x2 := x1 / 2; var x3 := x2 / 2;
    assert x % 16 == ((x3 % 2 * 2 + x2 % 2) * 2 + x1 % 2) * 2 + x % 2;
  }

  /** The first four bits of a byte spell its high nibble. */
  lemma HighNibbleBits(y: byte)
    ensures var b := BitsOf(y); ((b[0] as int * 2 + b[1]) * 2 + b[2]) * 2 + b[3] == y / 16
  {
    var y1 := y / 2; var y2 := y1 / 2; var y3 := y2 / 2; var y4 := y3 / 2;
    var y5 := y4 / 2; var y6 := y5 / 2; var y7 := y6 / 2;
    assert y / 16 == y4;
    assert y4 == ((y7 % 2 * 2 + y6 % 2) * 2 + y5 % 2) * 2 + y4 % 2;
  }

  lemma NibbleByte(x: byte, y: byte)
    ensures ByteOf(BitsOf(x)[4..] + BitsOf(y)[..4]) == x % 16 * 16 + y / 16
  {
    var hx, hy := BitsOf(x), BitsOf(y);
    var w := hx[4..] + hy[..4];
    assert w[0] == hx[4] && w[1] == hx[5] && w[2] == hx[6] && w[3] == hx[7];
    assert w[4] == hy[0] && w[5] == hy[1] && w[6] == hy[2] && w[7] == hy[3];
    LowNibbleBits(x);
    HighNibbleBits(y);
  }

  /**
   * The embedded LC fragment of a 33-byte burst is the low nibble of byte 14 through
   * the high nibble of byte 18, regrouped into four bytes.
   */
  lemma EmbLcOfBurst(d: seq<byte>)
    requires |d| == BurstBytes
    ensures forall k :: 0 <= k < 4 ==>
      GetEmbLc(SetDataAsWritten(false, d))[k] == d[14 + k] % 16 * 16 + d[15 + k] / 16
  {
    var bs := BytesToBits(d);
    var e := bs[116..148];
    forall k | 0 <= k < 4
      ensures GetEmbLc(SetDataAsWritten(false, d))[k] == d[14 + k] % 16 * 16 + d[15 + k] / 16
    {
      BitsToBytesAt(e, k);
      var c, w := e[8 * k..8 * k + 8], BitsOf(d[14 + k])[4..] + BitsOf(d[15 + k])[..4];
      forall j | 0 <= j < 8
        ensures c[j] == w[j]
      {
        if j < 4 {
          BytesToBitsAt(d, 14 + k, 4 + j);
        } else {
          BytesToBitsAt(d, 15 + k, j - 4);
        }
      }
      assert c == w;
      NibbleByte(d[14 + k], d[15 + k]);
    }
  }
}
