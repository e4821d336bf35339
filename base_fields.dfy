/**
 * Packet fields: a field is a window [offset, offset + bytelen) of a packet's byte
 * buffer, read and written as raw bytes, as a space-padded string or as a big-endian
 * unsigned integer (dmrtools/dmrproto/base_fields.py; the field classes of the older
 * dmrtools/dmrproto.py behave identically).
 */
module Fields {
  import opened Wrappers

  type byte = x: int | 0 <= x < 256

  datatype FieldKind = BytesField | StrField(pad: byte) | IntField

  datatype Field = Field(name: string, offset: nat, bytelen: nat, kind: FieldKind)

  const Space: byte := 0x20
  const Nul: byte := 0x00

  /** The field's window lies inside a buffer of `size` bytes. */
  predicate Fits(f: Field, size: nat) {
    f.offset + f.bytelen <= size
  }

  /** DMRPFieldBase.get: the bytes of the field's window. */
  function Get(d: seq<byte>, f: Field): (r: seq<byte>)
    requires Fits(f, |d|)
    ensures |r| == f.bytelen
    ensures forall i :: 0 <= i < f.bytelen ==> r[i] == d[f.offset + i]
  {
    d[f.offset..f.offset + f.bytelen]
  }

  /** The buffer after the window has been overwritten by `v`. */
  function Splice(d: seq<byte>, f: Field, v: seq<byte>): (r: seq<byte>)
    requires Fits(f, |d|) && |v| == f.bytelen
    ensures |r| == |d|
    ensures Get(r, f) == v
    ensures forall i :: 0 <= i < |d| && !(f.offset <= i < f.offset + f.bytelen) ==> r[i] == d[i]
  {
    d[..f.offset] + v + d[f.offset + f.bytelen..]
  }

  /** Byte j of a spliced buffer: the value's inside the window, the old one outside. */
  lemma SpliceAt(d: seq<byte>, f: Field, v: seq<byte>, j: nat)
    requires Fits(f, |d|) && |v| == f.bytelen && j < |d|
    ensures Splice(d, f, v)[j] == if f.offset <= j < f.offset + f.bytelen then v[j - f.offset] else d[j]
  {
    if f.offset <= j < f.offset + f.bytelen {
      assert Splice(d, f, v)[j] == Get(Splice(d, f, v), f)[j - f.offset];
    }
  }

  /** Two buffers agree everywhere outside the window of `f`. */
  predicate SameOutside(d: seq<byte>, e: seq<byte>, f: Field) {
    |d| == |e| && forall i :: 0 <= i < |d| && !(f.offset <= i < f.offset + f.bytelen) ==> d[i] == e[i]
  }

  /**
   * DMRPFieldBase.set, in place: a value of the wrong length is refused before any
   * byte is written; otherwise exactly the field's window is overwritten.
   */
  method Write(buf: array<byte>, f: Field, v: seq<byte>) returns (r: Outcome)
    requires Fits(f, buf.Length)
    modifies buf
    ensures r.Pass? <==> |v| == f.bytelen
    ensures r.Fail? ==> r.error == FieldOutOfRange(f.name) && buf[..] == old(buf[..])
    ensures r.Pass? ==> buf[..] == Splice(old(buf[..]), f, v)
  {
    if |v| != f.bytelen {
      return Fail(FieldOutOfRange(f.name));
    }
    ghost var d := buf[..];
    ghost var e := Splice(d, f, v);
    forall i | 0 <= i < f.bytelen {
      buf[f.offset + i] := v[i];
    }
    forall j | 0 <= j < buf.Length
      ensures buf[j] == e[j]
    {
      SpliceAt(d, f, v, j);
    }
    assert buf[..] == e;
    r := Pass;
  }

  // ---------------------------------------------------------------------------
  // Big-endian integers (DMRPFieldInt)

  function Pow256(n: nat): (r: nat)
    ensures r > 0
  {
    if n == 0 then 1 else 256 * Pow256(n - 1)
  }

  /** int.from_bytes(bs, byteorder="big") */
  function FromBigEndian(bs: seq<byte>): (r: nat)
    ensures r < Pow256(|bs|)
  {
    if bs == [] then 0
    else
      var hi := FromBigEndian(bs[..|bs| - 1]);
      assert hi + 1 <= Pow256(|bs| - 1);
      assert (hi + 1) * 256 <= Pow256(|bs| - 1) * 256;
      hi * 256 + bs[|bs| - 1]
  }

  /** v.to_bytes(n, byteorder="big"), defined for 0 <= v < 256^n. */
  function ToBigEndian(v: nat, n: nat): (r: seq<byte>)
    requires v < Pow256(n)
    ensures |r| == n
    ensures FromBigEndian(r) == v
  {
    if n == 0 then []
    else
      var q, m := v / 256, v % 256;
      assert v == q * 256 + m;
      assert q < Pow256(n - 1);
      var r := ToBigEndian(q, n - 1) + [m];
      assert r[..|r| - 1] == ToBigEndian(q, n - 1);
      r
  }

  lemma {:induction false} BigEndianInjective(a: seq<byte>, b: seq<byte>)
    requires |a| == |b| && FromBigEndian(a) == FromBigEndian(b)
    ensures a == b
  {
    if a != [] {
      var n := |a|;
      var ha, hb := FromBigEndian(a[..n - 1]), FromBigEndian(b[..n - 1]);
      assert ha * 256 + a[n - 1] == hb * 256 + b[n - 1];
      assert a[n - 1] == b[n - 1] && ha == hb;
      BigEndianInjective(a[..n - 1], b[..n - 1]);
      assert a == a[..n - 1] + [a[n - 1]] && b == b[..n - 1] + [b[n - 1]];
    }
  }

  /** Encoding is the inverse of decoding: every n-byte string is the encoding of its value. */
  lemma BigEndianRoundTrip(bs: seq<byte>)
    ensures ToBigEndian(FromBigEndian(bs), |bs|) == bs
  {
    BigEndianInjective(ToBigEndian(FromBigEndian(bs), |bs|), bs);
  }

  predicate IntInRange(f: Field, v: int) {
    0 <= v < Pow256(f.bytelen)
  }

  /** DMRPFieldInt.__get__ */
  function GetInt(d: seq<byte>, f: Field): (r: nat)
    requires Fits(f, |d|)
    ensures IntInRange(f, r)
  {
    FromBigEndian(Get(d, f))
  }

  /** The bytes DMRPFieldInt.__set__ hands to set, or the range error it raises first. */
  function EncodeInt(f: Field, v: int): (r: Result<seq<byte>>)
    ensures r.Ok? <==> IntInRange(f, v)
    ensures r.Err? ==> r.error == FieldOutOfRange(f.name)
    ensures r.Ok? ==> |r.value| == f.bytelen && FromBigEndian(r.value) == v
  {
    if !IntInRange(f, v) then Err(FieldOutOfRange(f.name)) else Ok(ToBigEndian(v, f.bytelen))
  }

  /**
   * DMRPFieldInt.__set__ on a buffer value: out-of-range values are refused;
   * otherwise reading the field back gives `v` and no other byte changes.
   */
  function SetInt(d: seq<byte>, f: Field, v: int): (r: Result<seq<byte>>)
    requires Fits(f, |d|)
    ensures r.Ok? <==> IntInRange(f, v)
    ensures r.Err? ==> r.error == FieldOutOfRange(f.name)
    ensures r.Ok? ==> SameOutside(d, r.value, f) && GetInt(r.value, f) == v
  {
    match EncodeInt(f, v)
    case Err(e) => Err(e)
    case Ok(bs) => Ok(Splice(d, f, bs))
  }

  /** A field whose window lies clear of `f`'s reads the same after `f` is overwritten. */
  lemma GetOutsideWindow(d: seq<byte>, e: seq<byte>, f: Field, g: Field)
    requires SameOutside(d, e, f) && Fits(g, |d|)
    requires g.offset + g.bytelen <= f.offset || f.offset + f.bytelen <= g.offset
    ensures Get(e, g) == Get(d, g) && GetInt(e, g) == GetInt(d, g)
  {
    assert forall i :: 0 <= i < g.bytelen ==> Get(e, g)[i] == Get(d, g)[i];
  }

  /** Setting an int field gives the same buffer whatever the field held before. */
  lemma SetIntOverwrites(d: seq<byte>, e: seq<byte>, f: Field, v: int)
    requires SameOutside(d, e, f) && Fits(f, |d|)
    ensures SetInt(d, f, v) == SetInt(e, f, v)
  {
    if IntInRange(f, v) {
      var bs := EncodeInt(f, v).value;
      var x, y := Splice(d, f, bs), Splice(e, f, bs);
      forall i | 0 <= i < |d|
        ensures x[i] == y[i]
      {
        if f.offset <= i < f.offset + f.bytelen {
          assert x[i] == Get(x, f)[i - f.offset] && y[i] == Get(y, f)[i - f.offset];
        }
      }
      assert x == y;
      assert SetInt(d, f, v) == Ok(x) && SetInt(e, f, v) == Ok(y);
    }
  }

  /** Setting an int field to the value it already holds leaves the buffer as it is. */
  lemma SetIntSameValue(d: seq<byte>, f: Field)
    requires Fits(f, |d|)
    ensures SetInt(d, f, GetInt(d, f)) == Ok(d)
  {
    BigEndianRoundTrip(Get(d, f));
    assert EncodeInt(f, GetInt(d, f)) == Ok(Get(d, f));
    var e := Splice(d, f, Get(d, f));
    assert forall i :: 0 <= i < |d| ==> e[i] == d[i];
    assert e == d;
  }

  // ---------------------------------------------------------------------------
  // Strings (DMRPFieldStr)

  /** str.encode(): UTF-8 encoding of one Unicode scalar value. */
  function Utf8Char(c: char): (r: seq<byte>)
    ensures 1 <= |r| <= 4
    ensures (c as int < 0x80) <==> (|r| == 1)
    ensures |r| == 1 ==> r[0] == c as int
  {
    var cp := c as int;
    if cp < 0x80 then [cp]
    else if cp < 0x800 then [0xC0 + cp / 64, 0x80 + cp % 64]
    else if cp < 0x10000 then [0xE0 + cp / 4096, 0x80 + (cp / 64) % 64, 0x80 + cp % 64]
    else [0xF0 + (cp / 262144) % 8, 0x80 + (cp / 4096) % 64, 0x80 + (cp / 64) % 64, 0x80 + cp % 64]
  }

  function Utf8(s: string): (r: seq<byte>)
    ensures |r| >= |s|
  {
    if s == [] then [] else Utf8Char(s[0]) + Utf8(s[1..])
  }

  /** How many bytes the UTF-8 sequence starting with lead byte `b` takes. */
  function Utf8Width(b: byte): nat {
    if b < 0x80 then 1 else if b < 0xE0 then 2 else if b < 0xF0 then 3 else 4
  }

  /** The code point a UTF-8 sequence of one to four bytes spells. */
  function Utf8Value(r: seq<byte>): int
    requires 1 <= |r| <= 4
  {
    if |r| == 1 then r[0] as int
    else if |r| == 2 then (r[0] as int - 0xC0) * 64 + (r[1] as int - 0x80)
    else if |r| == 3 then (r[0] as int - 0xE0) * 4096 + (r[1] as int - 0x80) * 64 + (r[2] as int - 0x80)
    else (r[0] as int - 0xF0) * 262144 + (r[1] as int - 0x80) * 4096 + (r[2] as int - 0x80) * 64 + (r[3] as int - 0x80)
  }

  /** Peeling six bits off twice is peeling twelve. */
  lemma DivDiv64(n: nat)
    ensures (n / 64) / 64 == n / 4096 && n == (n / 4096) * 4096 + ((n / 64) % 64) * 64 + n % 64
  {
    var q, x := n / 64, n % 64;
    var z, y := q / 64, q % 64;
    assert n == z * 4096 + (y * 64 + x);
  }

  /** A character's encoding announces its own length in its lead byte and spells its code point. */
  lemma Utf8CharDecodes(c: char)
    ensures Utf8Width(Utf8Char(c)[0]) == |Utf8Char(c)|
    ensures Utf8Value(Utf8Char(c)) == c as int
  {
    var cp := c as int;
    if cp < 0x80 {
    } else if cp < 0x800 {
      assert cp == (cp / 64) * 64 + cp % 64;
    } else if cp < 0x10000 {
      DivDiv64(cp);
    } else {
      Utf8FourDecodes(c);
    }
  }

  /** The four-byte case: a code point above 0xFFFF has at most 21 bits. */
  lemma Utf8FourDecodes(c: char)
    requires 0x10000 <= c as int
    ensures Utf8Width(Utf8Char(c)[0]) == 4
    ensures Utf8Value(Utf8Char(c)) == c as int
  {
    var cp := c as int;
    var a := cp / 64;
    DivDiv64(cp);
    DivDiv64(a);
    assert a / 4096 == cp / 262144;
    var top := cp / 262144;
    assert top < 8;
    assert Utf8Char(c) == [0xF0 + top, 0x80 + (a / 64) % 64, 0x80 + a % 64, 0x80 + cp % 64];
  }

  /** UTF-8 is a prefix code: an encoding starts with exactly one character's bytes. */
  lemma {:induction false} Utf8Injective(s: string, t: string)
    requires Utf8(s) == Utf8(t)
    ensures s == t
  {
    if s != [] {
      assert t != [];
      var a, b := Utf8Char(s[0]), Utf8Char(t[0]);
      Utf8CharDecodes(s[0]);
      Utf8CharDecodes(t[0]);
      assert a[0] == Utf8(s)[0] == b[0];
      assert a == Utf8(s)[..|a|] == Utf8(t)[..|b|] == b;
      assert Utf8(s[1..]) == Utf8(s)[|a|..] == Utf8(t)[|b|..] == Utf8(t[1..]);
      Utf8Injective(s[1..], t[1..]);
    } else {
      assert t == [];
    }
  }

  predicate IsAscii(s: string) {
    forall i :: 0 <= i < |s| ==> s[i] as int < 0x80
  }

  /** The code units of an ASCII string are its UTF-8 encoding. */
  lemma {:induction false} Utf8OfAscii(s: string)
    requires IsAscii(s)
    ensures |Utf8(s)| == |s|
    ensures forall i :: 0 <= i < |s| ==> Utf8(s)[i] == s[i] as int
  {
    if s != [] {
      Utf8OfAscii(s[1..]);
    }
  }

  /** Truncate to n bytes, then left-justify to n bytes with `pad`. */
  function FitTo(bs: seq<byte>, n: nat, pad: byte): (r: seq<byte>)
    ensures |r| == n
    ensures forall i :: 0 <= i < n ==> r[i] == (if i < |bs| then bs[i] else pad)
  {
    if |bs| >= n then bs[..n] else bs + seq(n - |bs|, _ => pad)
  }

  /** The bytes DMRPFieldStr.__set__ writes for `s`. */
  function EncodeStr(f: Field, s: string): (r: seq<byte>)
    requires f.kind.StrField?
    ensures |r| == f.bytelen
  {
    FitTo(Utf8(s), f.bytelen, f.kind.pad)
  }

  /** DMRPFieldStr.__set__ never fails: the value is cut or padded to the field's width. */
  function SetStr(d: seq<byte>, f: Field, s: string): (r: seq<byte>)
    requires Fits(f, |d|) && f.kind.StrField?
    ensures SameOutside(d, r, f)
    ensures Get(r, f) == EncodeStr(f, s)
  {
    Splice(d, f, EncodeStr(f, s))
  }

  predicate IsStripped(b: byte) {
    b == Space || b == Nul
  }

  function StripLeft(bs: seq<byte>): (r: seq<byte>)
    ensures |r| <= |bs| && r == bs[|bs| - |r|..]
    ensures r != [] ==> !IsStripped(r[0])
    ensures forall i :: 0 <= i < |bs| - |r| ==> IsStripped(bs[i])
  {
    if bs != [] && IsStripped(bs[0]) then StripLeft(bs[1..]) else bs
  }

  function StripRight(bs: seq<byte>): (r: seq<byte>)
    ensures |r| <= |bs| && r == bs[..|r|]
    ensures r != [] ==> !IsStripped(r[|r| - 1])
    ensures forall i :: |r| <= i < |bs| ==> IsStripped(bs[i])
  {
    if bs != [] && IsStripped(bs[|bs| - 1]) then StripRight(bs[..|bs| - 1]) else bs
  }

  /** bytes.strip(b'\x20\x00') */
  function Strip(bs: seq<byte>): seq<byte> {
    StripLeft(StripRight(bs))
  }

  /** bytes.decode('ascii', errors='ignore'): bytes above 0x7F are dropped. */
  function AsciiIgnore(bs: seq<byte>): (r: string)
    ensures |r| <= |bs|
    ensures IsAscii(r)
  {
    if bs == [] then []
    else if bs[0] < 0x80 then [bs[0] as char] + AsciiIgnore(bs[1..])
    else AsciiIgnore(bs[1..])
  }

  /**
   * Decoding goes byte by byte: a byte below 0x80 becomes its character, any other
   * byte is dropped, and what comes before is decoded on its own.
   */
  lemma {:induction false} AsciiIgnoreAppend(bs: seq<byte>, b: byte)
    ensures AsciiIgnore(bs + [b]) == AsciiIgnore(bs) + (if b < 0x80 then [b as char] else [])
  {
    if bs != [] {
      assert (bs + [b])[1..] == bs[1..] + [b];
      AsciiIgnoreAppend(bs[1..], b);
    }
  }

  /** DMRPFieldStr.__get__ */
  function GetStr(d: seq<byte>, f: Field): string
    requires Fits(f, |d|)
  {
    AsciiIgnore(Strip(Get(d, f)))
  }

  /** An ASCII string survives being written to and read back from a string field. */
  predicate StrRoundTrips(s: string, n: nat) {
    && IsAscii(s)
    && |s| <= n
    && (s != [] ==> s[0] != ' ' && s[0] != '\0' && s[|s| - 1] != ' ' && s[|s| - 1] != '\0')
  }

  lemma {:induction false} AsciiIgnoreOfAscii(s: string)
    requires IsAscii(s)
    ensures AsciiIgnore(seq(|s|, i requires 0 <= i < |s| => s[i] as int)) == s
  {
    if s != [] {
      var bs := seq(|s|, i requires 0 <= i < |s| => s[i] as int);
      assert bs[1..] == seq(|s| - 1, i requires 0 <= i < |s| - 1 => s[1..][i] as int);
      AsciiIgnoreOfAscii(s[1..]);
      assert [s[0]] + s[1..] == s;
    }
  }

  /** Padding a stripped byte string and stripping it again gives it back. */
  lemma StripFitTo(bs: seq<byte>, n: nat, pad: byte)
    requires |bs| <= n && IsStripped(pad)
    requires bs != [] ==> !IsStripped(bs[0]) && !IsStripped(bs[|bs| - 1])
    ensures Strip(FitTo(bs, n, pad)) == bs
  {
    var w := FitTo(bs, n, pad);
    assert w[..|bs|] == bs;
    assert forall i :: |bs| <= i < n ==> IsStripped(w[i]);
    var sr := StripRight(w);
    if bs == [] {
      assert sr == [];
    } else {
      assert !IsStripped(w[|bs| - 1]);
      assert |sr| == |bs|;
      assert sr == bs;
      assert !IsStripped(sr[0]);
      assert |StripLeft(sr)| == |bs|;
    }
  }

  /**
   * get(set(s)) == s for an ASCII string that fits the field and has no leading or
   * trailing space or NUL, when the field pads with a space or NUL.
   */
  lemma StrRoundTrip(d: seq<byte>, f: Field, s: string)
    requires Fits(f, |d|) && f.kind.StrField? && IsStripped(f.kind.pad)
    requires StrRoundTrips(s, f.bytelen)
    ensures GetStr(SetStr(d, f, s), f) == s
  {
    Utf8OfAscii(s);
    var bs := seq(|s|, i requires 0 <= i < |s| => s[i] as int);
    assert Utf8(s) == bs;
    assert Get(SetStr(d, f, s), f) == FitTo(bs, f.bytelen, f.kind.pad);
    StripFitTo(bs, f.bytelen, f.kind.pad);
    AsciiIgnoreOfAscii(s);
  }
}
