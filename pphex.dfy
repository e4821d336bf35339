/**
 * hexdump (dmrtools/pphex.py): `width` bytes per line, each line the offset in
 * upper-case hex of at least four digits, ": ", the bytes as two-digit hex
 * separated by spaces and left-justified to width*3 characters, a space and the
 * bytes as printable ASCII ('.' for the rest); lines joined by '\n'.
 */
module HexDump {
  import opened Wrappers
  import opened Fields
  import opened Text

  /** f"{b:02X}": exactly two upper-case hex digits that read back as b. */
  function HexByte(b: byte): (r: string)
    ensures |r| == 2 && ValueOf(r, 16) == b
    ensures forall k :: 0 <= k < 2 ==> 0 <= DigitValue(r[k]) < 16
  {
    var r := [DigitChar(b / 16), DigitChar(b % 16)];
    assert r[..1][..0] == [];
    assert ValueOf(r[..1], 16) == b / 16;
    r
  }

  /** ' '.join of the bytes' hex pairs. */
  function HexColumn(chunk: seq<byte>): (r: string)
    ensures |r| == if chunk == [] then 0 else 3 * |chunk| - 1
  {
    if chunk == [] then ""
    else if |chunk| == 1 then HexByte(chunk[0])
    else HexByte(chunk[0]) + " " + HexColumn(chunk[1..])
  }

  /** Pair j of the hex column sits at columns 3 * j and 3 * j + 1; a space follows all but the last. */
  lemma {:induction false} HexColumnPair(chunk: seq<byte>, j: nat)
    requires j < |chunk|
    ensures HexColumn(chunk)[3 * j] == HexByte(chunk[j])[0] && HexColumn(chunk)[3 * j + 1] == HexByte(chunk[j])[1]
    ensures j < |chunk| - 1 ==> HexColumn(chunk)[3 * j + 2] == ' '
    decreases j
  {
    var r, b := HexColumn(chunk), HexByte(chunk[0]);
    if |chunk| > 1 {
      var rest := HexColumn(chunk[1..]);
      assert r == b + " " + rest;
      if j > 0 {
        HexColumnPair(chunk[1..], j - 1);
        assert chunk[1..][j - 1] == chunk[j];
        assert r[3 * j] == rest[3 * j - 3] && r[3 * j + 1] == rest[3 * j - 2];
        if j < |chunk| - 1 {
          assert r[3 * j + 2] == rest[3 * j - 1];
        }
      }
    }
  }

  /** The hex column holds only hex digits and spaces. */
  lemma {:induction false} HexColumnChars(chunk: seq<byte>)
    ensures forall k :: 0 <= k < |HexColumn(chunk)| ==> HexColumn(chunk)[k] == ' ' || 0 <= DigitValue(HexColumn(chunk)[k]) < 16
  {
    if |chunk| > 1 {
      HexColumnChars(chunk[1..]);
      var r, rest := HexColumn(chunk), HexColumn(chunk[1..]);
      forall k | 3 <= k < |r| ensures r[k] == rest[k - 3] {
      }
    }
  }

  /** k spaces. */
  function Spaces(k: nat): (r: string)
    ensures |r| == k
  {
    if k == 0 then "" else " " + Spaces(k - 1)
  }

  lemma {:induction false} SpacesAreSpaces(k: nat)
    ensures forall i :: 0 <= i < k ==> Spaces(k)[i] == ' '
  {
    if k > 0 {
      SpacesAreSpaces(k - 1);
    }
  }

  /** f"{s:<{width}}": `s` followed by spaces up to `width` characters. */
  function LeftJustify(s: string, width: int): string {
    if |s| >= width then s else s + Spaces(width - |s|)
  }

  /** The justified text starts with `s` and continues with spaces. */
  lemma JustifyAt(s: string, width: int)
    ensures |LeftJustify(s, width)| == if |s| >= width then |s| else width
    ensures forall k :: 0 <= k < |s| ==> LeftJustify(s, width)[k] == s[k]
    ensures forall k :: |s| <= k < |LeftJustify(s, width)| ==> LeftJustify(s, width)[k] == ' '
  {
    if |s| < width {
      SpacesAreSpaces(width - |s|);
      var r := LeftJustify(s, width);
      forall k | |s| <= k < |r| ensures r[k] == ' ' {
        assert r[k] == Spaces(width - |s|)[k - |s|];
      }
    }
  }

  /** chr(b) when printable, '.' otherwise. */
  function AsciiChar(b: byte): (c: char)
    ensures c != '\n'
    ensures 32 <= b <= 126 ==> c as int == b
    ensures !(32 <= b <= 126) ==> c == '.'
  {
    if 32 <= b <= 126 then b as char else '.'
  }

  /** ''.join of the bytes' ASCII characters. */
  function AsciiColumn(chunk: seq<byte>): (r: string)
    ensures |r| == |chunk|
  {
    if chunk == [] then "" else [AsciiChar(chunk[0])] + AsciiColumn(chunk[1..])
  }

  lemma {:induction false} AsciiColumnAt(chunk: seq<byte>)
    ensures forall j :: 0 <= j < |chunk| ==> AsciiColumn(chunk)[j] == AsciiChar(chunk[j])
  {
    if chunk != [] {
      AsciiColumnAt(chunk[1..]);
    }
  }

  /** data[i:i + width], cut at the end of the data. */
  function Chunk(data: seq<byte>, i: nat, width: nat): (chunk: seq<byte>)
    requires i < |data| && width > 0
    ensures 1 <= |chunk| <= width
  {
    if i + width <= |data| then data[i..i + width] else data[i..]
  }

  /** f"{offset}: {hex} {ascii}" */
  function Layout(offset: string, hex: string, ascii: string): string {
    offset + ": " + hex + " " + ascii
  }

  /** Where the three columns sit in a laid-out line. */
  lemma LayoutAt(offset: string, hex: string, ascii: string)
    ensures var r := Layout(offset, hex, ascii);
      && |r| == |offset| + 3 + |hex| + |ascii|
      && r[..|offset|] == offset && r[|offset|] == ':' && r[|offset| + 1] == ' '
      && (forall k :: 0 <= k < |hex| ==> r[|offset| + 2 + k] == hex[k])
      && r[|offset| + 2 + |hex|] == ' '
      && (forall k :: 0 <= k < |ascii| ==> r[|offset| + 3 + |hex| + k] == ascii[k])
  {
  }

  /** The line for the chunk at offset i. */
  function Line(data: seq<byte>, i: nat, width: nat): string
    requires i < |data| && width > 0
  {
    var chunk := Chunk(data, i, width);
    Layout(Hex(i, 4), LeftJustify(HexColumn(chunk), width * 3), AsciiColumn(chunk))
  }

  /** range(i, n, width): the offsets i, i + width, ... below n. */
  function Offsets(n: nat, width: nat, i: nat): (r: seq<nat>)
    requires width > 0
    ensures forall k :: 0 <= k < |r| ==> i <= r[k] < n
    decreases n - i
  {
    if i >= n then [] else [i] + Offsets(n, width, i + width)
  }

  /** The line for each chunk, in offset order. */
  function Lines(data: seq<byte>, width: nat): seq<string>
    requires width > 0
  {
    var offsets := Offsets(|data|, width, 0);
    seq(|offsets|, k requires 0 <= k < |offsets| => Line(data, offsets[k], width))
  }

  /** '\n'.join(lines) */
  function Join(lines: seq<string>): string {
    if lines == [] then ""
    else if |lines| == 1 then lines[0]
    else lines[0] + "\n" + Join(lines[1..])
  }

  /** s.split('\n') */
  function Split(s: string): (r: seq<string>)
    ensures |r| >= 1
  {
    if s == [] then [""]
    else
      var rest := Split(s[1..]);
      if s[0] == '\n' then [""] + rest else [[s[0]] + rest[0]] + rest[1..]
  }

  /** What hexdump returns: range() refuses a zero step, a negative one gives no line. */
  function Dump(data: seq<byte>, width: int): Result<string> {
    if width == 0 then Err(ValueError)
    else if width < 0 then Ok("")
    else Ok(Join(Lines(data, width)))
  }

  /** hexdump */
  method Hexdump(data: seq<byte>, width: int) returns (r: Result<string>)
    ensures r == Dump(data, width)
  {
    if width == 0 {
      return Err(ValueError);
    }
    var lines: seq<string> := [];
    if width > 0 {
      lines := CollectLines(data, width);
    }
    r := Ok(Join(lines));
  }

  /** The loop of hexdump: one line appended per offset of range(0, len(data), width). */
  method CollectLines(data: seq<byte>, width: nat) returns (lines: seq<string>)
    requires width > 0
    ensures lines == Lines(data, width)
  {
    lines := [];
    ghost var offsets := Offsets(|data|, width, 0);
    OffsetsStep(|data|, width, 0);
    ghost var k: nat := 0;
    var i := 0;
    while i < |data|
      invariant k == |lines| <= |offsets|
      invariant k < |offsets| ==> offsets[k] == i
      invariant k == |offsets| ==> i >= |data|
      invariant lines == Lines(data, width)[..k]
      decreases |data| - i
    {
      PrefixNext(Lines(data, width), k);
      lines := lines + [Line(data, i, width)];
      i, k := i + width, k + 1;
    }
    assert Lines(data, width)[..k] == Lines(data, width);
  }

  lemma PrefixNext<T>(s: seq<T>, k: nat)
    requires k < |s|
    ensures s[..k + 1] == s[..k] + [s[k]]
  {
  }

  /** range() starts at i, steps by width and stops at the first offset from n on. */
  lemma {:induction false} OffsetsStep(n: nat, width: nat, i: nat)
    requires width > 0
    ensures var offsets := Offsets(n, width, i);
      && (|offsets| == 0 <==> i >= n)
      && (offsets != [] ==> offsets[0] == i && offsets[|offsets| - 1] + width >= n)
      && forall k :: 0 <= k < |offsets| - 1 ==> offsets[k + 1] == offsets[k] + width
    decreases n - i
  {
    if i < n {
      OffsetsStep(n, width, i + width);
      var offsets, rest := Offsets(n, width, i), Offsets(n, width, i + width);
      assert offsets == [i] + rest;
      forall k | 1 <= k < |offsets| - 1 ensures offsets[k + 1] == offsets[k] + width {
        assert offsets[k + 1] == rest[k] && offsets[k] == rest[k - 1];
      }
    }
  }

  /**
   * Offset k is i + k * width, and there are as many as make the last one the
   * last below n: ceil((n - i) / width) of them.
   */
  lemma {:induction false} OffsetsShape(n: nat, width: nat, i: nat)
    requires width > 0
    ensures var offsets := Offsets(n, width, i);
      && (forall k :: 0 <= k < |offsets| ==> offsets[k] == i + k * width)
      && (i >= n ==> |offsets| == 0)
      && (i < n ==> i + (|offsets| - 1) * width < n <= i + |offsets| * width)
    decreases n - i
  {
    if i < n {
      OffsetsShape(n, width, i + width);
      var offsets, rest := Offsets(n, width, i), Offsets(n, width, i + width);
      var c := |rest|;
      assert |offsets| == c + 1;
      forall k | 1 <= k < |offsets| ensures offsets[k] == i + k * width {
        MulSucc(k - 1, width);
        assert offsets[k] == rest[k - 1];
      }
      MulSucc(c, width);
      if c > 0 {
        MulSucc(c - 1, width);
      }
    }
  }

  lemma MulSucc(a: int, w: int)
    ensures (a + 1) * w == a * w + w
  {
  }

  /**
   * The layout of line r for `chunk` with offset text `off`: the offset, then
   * ": "; byte j of the chunk as its two hex digits at column |off| + 2 + 3 * j,
   * the same on every line; a space at column |off| + 2 + 3 * width and then one
   * ASCII character per byte; and no newline anywhere.
   */
  predicate LaidOut(r: string, off: string, chunk: seq<byte>, width: nat) {
    var h := |off|;
    && |chunk| <= width && |r| == h + 3 + 3 * width + |chunk|
    && r[..h] == off && r[h] == ':' && r[h + 1] == ' ' && r[h + 2 + 3 * width] == ' '
    && PairsAt(r, h + 2, chunk)
    && AsciiAt(r, h + 3 + 3 * width, chunk)
    && NoNewline(r)
  }

  /** Byte j's two hex digits sit at column start + 3 * j. */
  predicate PairsAt(r: string, start: nat, chunk: seq<byte>) {
    && start + 3 * |chunk| <= |r| + 1
    && forall j :: 0 <= j < |chunk| ==> r[start + 3 * j] == HexByte(chunk[j])[0] && r[start + 3 * j + 1] == HexByte(chunk[j])[1]
  }

  /** Byte j's ASCII character sits at column start + j. */
  predicate AsciiAt(r: string, start: nat, chunk: seq<byte>) {
    && start + |chunk| <= |r|
    && forall j :: 0 <= j < |chunk| ==> r[start + j] == AsciiChar(chunk[j])
  }

  /** The offset column: hex digits, at least four, reading back as i. */
  predicate OffsetText(off: string, i: nat) {
    && |off| >= 4 && ValueOf(off, 16) == i
    && forall k :: 0 <= k < |off| ==> 0 <= DigitValue(off[k]) < 16
  }

  /** The hex column: width * 3 characters, byte j's pair at 3 * j, hex digits and spaces only. */
  predicate HexText(col: string, chunk: seq<byte>, width: nat) {
    && |chunk| <= width && |col| == 3 * width
    && (forall j :: 0 <= j < |chunk| ==> col[3 * j] == HexByte(chunk[j])[0] && col[3 * j + 1] == HexByte(chunk[j])[1])
    && forall k :: 0 <= k < |col| ==> col[k] == ' ' || 0 <= DigitValue(col[k]) < 16
  }

  /** The ASCII column: one character per byte. */
  predicate AsciiText(asc: string, chunk: seq<byte>) {
    && |asc| == |chunk|
    && forall j :: 0 <= j < |chunk| ==> asc[j] == AsciiChar(chunk[j])
  }

  lemma OffsetColumn(i: nat)
    ensures OffsetText(Hex(i, 4), i)
  {
    HexValue(i, 4);
  }

  lemma HexColumnJustified(chunk: seq<byte>, width: nat)
    requires 1 <= |chunk| <= width
    ensures HexText(LeftJustify(HexColumn(chunk), width * 3), chunk, width)
  {
    var hc := HexColumn(chunk);
    JustifyAt(hc, width * 3);
    HexColumnChars(chunk);
    forall j | 0 <= j < |chunk| ensures hc[3 * j] == HexByte(chunk[j])[0] && hc[3 * j + 1] == HexByte(chunk[j])[1] {
      HexColumnPair(chunk, j);
    }
  }

  lemma AsciiColumnText(chunk: seq<byte>)
    ensures AsciiText(AsciiColumn(chunk), chunk)
  {
    AsciiColumnAt(chunk);
  }

  /** Three well-formed columns lay out into a well-formed line. */
  lemma LayoutLaidOut(off: string, col: string, asc: string, chunk: seq<byte>, i: nat, width: nat)
    requires OffsetText(off, i) && HexText(col, chunk, width) && AsciiText(asc, chunk)
    ensures LaidOut(Layout(off, col, asc), off, chunk, width)
  {
    LayoutAt(off, col, asc);
    LayoutPairs(off, col, asc, chunk, width);
    LayoutAscii(off, col, asc, chunk);
    NoNewlineInColumns(off, col, asc, chunk, i, width);
    LayoutNoNewline(off, col, asc);
  }

  lemma LayoutPairs(off: string, col: string, asc: string, chunk: seq<byte>, width: nat)
    requires HexText(col, chunk, width)
    ensures PairsAt(Layout(off, col, asc), |off| + 2, chunk)
  {
    var r, h := Layout(off, col, asc), |off|;
    LayoutAt(off, col, asc);
    forall j | 0 <= j < |chunk|
      ensures r[h + 2 + 3 * j] == HexByte(chunk[j])[0] && r[h + 2 + 3 * j + 1] == HexByte(chunk[j])[1]
    {
      assert r[h + 2 + 3 * j] == col[3 * j];
      assert r[h + 2 + (3 * j + 1)] == col[3 * j + 1];
    }
  }

  lemma LayoutAscii(off: string, col: string, asc: string, chunk: seq<byte>)
    requires AsciiText(asc, chunk)
    ensures AsciiAt(Layout(off, col, asc), |off| + 3 + |col|, chunk)
  {
    LayoutAt(off, col, asc);
  }

  lemma NoNewlineInColumns(off: string, col: string, asc: string, chunk: seq<byte>, i: nat, width: nat)
    requires OffsetText(off, i) && HexText(col, chunk, width) && AsciiText(asc, chunk)
    ensures NoNewline(off) && NoNewline(col) && NoNewline(asc)
  {
    assert forall k :: 0 <= k < |off| ==> off[k] != '\n';
    assert forall k :: 0 <= k < |col| ==> col[k] != '\n';
    assert forall k :: 0 <= k < |asc| ==> asc[k] != '\n';
  }

  lemma LayoutNoNewline(off: string, col: string, asc: string)
    requires NoNewline(off) && NoNewline(col) && NoNewline(asc)
    ensures NoNewline(Layout(off, col, asc))
  {
    var r, h := Layout(off, col, asc), |off|;
    LayoutAt(off, col, asc);
    forall k | 0 <= k < |r| ensures r[k] != '\n' {
      if k < h {
        assert r[k] == r[..h][k] == off[k];
      } else if h + 2 <= k < h + 2 + |col| {
        assert r[k] == col[k - h - 2];
      } else if h + 3 + |col| <= k {
        assert r[k] == asc[k - h - 3 - |col|];
      }
    }
  }

  /** Every line has the layout of its chunk, behind an offset text that reads back as its offset. */
  lemma LineLayout(data: seq<byte>, i: nat, width: nat)
    requires i < |data| && width > 0
    ensures OffsetText(Hex(i, 4), i)
    ensures LaidOut(Line(data, i, width), Hex(i, 4), Chunk(data, i, width), width)
  {
    var chunk := Chunk(data, i, width);
    OffsetColumn(i);
    HexColumnJustified(chunk, width);
    AsciiColumnText(chunk);
    LayoutLaidOut(Hex(i, 4), LeftJustify(HexColumn(chunk), width * 3), AsciiColumn(chunk), chunk, i, width);
  }

  /** No character of `s` is a newline. */
  predicate NoNewline(s: string) {
    forall k :: 0 <= k < |s| ==> s[k] != '\n'
  }

  /** A string without a newline splits into itself. */
  lemma {:induction false} SplitPlain(a: string)
    requires NoNewline(a)
    ensures Split(a) == [a]
    decreases |a|
  {
    if a != [] {
      SplitPlain(a[1..]);
      assert [a[0]] + a[1..] == a;
    }
  }

  /** A leading newline-free piece up to the first newline splits off as one element. */
  lemma {:induction false} SplitAfter(a: string, rest: string)
    requires NoNewline(a)
    ensures Split(a + "\n" + rest) == [a] + Split(rest)
    decreases |a|
  {
    var s := a + "\n" + rest;
    if a == [] {
      assert s[1..] == rest;
    } else {
      assert s[1..] == a[1..] + "\n" + rest;
      SplitAfter(a[1..], rest);
      assert [a[0]] + a[1..] == a;
    }
  }

  /** Splitting a join of newline-free lines gives the lines back. */
  lemma {:induction false} SplitJoin(lines: seq<string>)
    requires lines != []
    requires forall k :: 0 <= k < |lines| ==> NoNewline(lines[k])
    ensures Split(Join(lines)) == lines
    decreases |lines|
  {
    if |lines| == 1 {
      SplitPlain(lines[0]);
    } else {
      SplitAfter(lines[0], Join(lines[1..]));
      SplitJoin(lines[1..]);
    }
  }

  /**
   * There are ceil(|data| / width) lines, line k for the chunk at offset
   * k * width.
   */
  lemma LinesShape(data: seq<byte>, width: nat)
    requires width > 0
    ensures var count := |Lines(data, width)|;
      && (data == [] ==> count == 0)
      && (data != [] ==> (count - 1) * width < |data| <= count * width)
      && forall k :: 0 <= k < count ==> k * width < |data| && Lines(data, width)[k] == Line(data, k * width, width)
  {
    var lines, offsets := Lines(data, width), Offsets(|data|, width, 0);
    OffsetsShape(|data|, width, 0);
    assert |lines| == |offsets|;
    forall k | 0 <= k < |lines| ensures k * width < |data| && lines[k] == Line(data, k * width, width) {
      assert offsets[k] == k * width;
    }
  }

  /**
   * The dump splits back into its lines and, for non-empty data, does not end in
   * a newline; the dump of empty data is empty.
   */
  lemma DumpLines(data: seq<byte>, width: int)
    requires width > 0
    ensures data == [] ==> Dump(data, width) == Ok("")
    ensures data != [] ==>
      var s := Dump(data, width).value;
      Split(s) == Lines(data, width) && s[|s| - 1] != '\n'
  {
    var lines := Lines(data, width);
    var offsets := Offsets(|data|, width, 0);
    if data == [] {
      assert lines == [];
    } else {
      assert |offsets| > 0;
      forall k | 0 <= k < |lines| ensures NoNewline(lines[k]) && lines[k] != [] {
        LineLayout(data, offsets[k], width);
      }
      SplitJoin(lines);
      JoinLast(lines);
      var last := lines[|lines| - 1];
      var s := Join(lines);
      assert s[|s| - 1] == last[|last| - 1];
    }
  }

  /** A join ends with its last line. */
  lemma {:induction false} JoinLast(lines: seq<string>)
    requires lines != []
    ensures |Join(lines)| >= |lines[|lines| - 1]|
    ensures Join(lines)[|Join(lines)| - |lines[|lines| - 1]|..] == lines[|lines| - 1]
    decreases |lines|
  {
    if |lines| > 1 {
      JoinLast(lines[1..]);
    }
  }
}
