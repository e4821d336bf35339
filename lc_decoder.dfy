/**
 * CallLCDecoder (dmrtools/dmrproto/lc_util.py): collects the link-control messages
 * of one call, from voice headers and terminators (full LC) and from four-burst
 * embedded-LC assemblies, and keeps the latest one per FLCO. The LC message classes
 * themselves (LCFactory, LCCall, LCLocation, LCTalkerAlias) are not part of this
 * model: an LC is reduced to its FLCO and the kind of message it parses to, and
 * their parser, their FLCO lists and the BPTC decoders are parameters.
 */
module LcDecoder {
  import opened Wrappers
  import opened Fields
  import opened Enums
  import opened DmrdBits
  import EtsiL2
  import opened MmdvmL1
  import opened EmbLc

  /** LCTalkerAlias.Format */
  datatype TaFormat = SevenBit | Iso8 | Utf8Text | Utf16Be

  /** The message an LC parses to; only what the decoder looks at is kept. */
  datatype LcKind =
    | CallLc
    | LocationLc
    | TalkerAliasLc(format: TaFormat, len: nat, taData: seq<byte>)
    | OtherLc

  datatype Lc = Lc(flco: int, kind: LcKind)

  /** The code the decoder calls out to. */
  datatype LcLib = LcLib(
    parse: seq<byte> -> Result<Lc>,                      // LCFactory.fd
    decodeFullLc: seq<EtsiL2.bit> -> seq<EtsiL2.bit>,    // bptc.decode_full_lc
    decodeEmb: seq<EtsiL2.bit> -> Option<seq<byte>>,     // bptc.decode_emblc
    decodeText: (TaFormat, seq<byte>) -> string)          // bytes.decode(..., errors='replace')

  /** The decoder's state: the LCs by FLCO, and its assembler's state. */
  datatype DecoderState = DecoderState(lcs: map<int, Lc>, asm: AsmState)

  /**
   * process_voicedata on a frame of stream `pStream` whose bits byte is `b` and whose
   * layer-2 view is `view`. The full LC of a header or terminator is parsed and stored,
   * and a parse failure propagates; otherwise the burst goes to the assembler, whose
   * refusals are swallowed, and a completed, decodable assembly resets the assembler
   * and is parsed and stored, a parse failure being swallowed too.
   */
  function ProcessSpec(streamId: int, st: DecoderState, pStream: int, view: Option<EtsiL2.View>, b: byte, lib: LcLib)
    : (r: (Result<Option<Lc>>, DecoderState))
    ensures pStream != streamId ==> r == (Err(CallLcDecoderError), st)
    ensures r.0.Err? && pStream == streamId ==> FullLcOf(view, lib.decodeFullLc).Some? && r.1 == st
    ensures r.0.Ok? && r.0.value.Some? ==> r.1.lcs == st.lcs[r.0.value.value.flco := r.0.value.value]
    ensures r.0.Ok? && r.0.value.None? ==> r.1.lcs == st.lcs
    ensures FullLcOf(view, lib.decodeFullLc).Some? ==> r.1.asm == st.asm
  {
    if pStream != streamId then (Err(CallLcDecoderError), st)
    else match FullLcOf(view, lib.decodeFullLc)
      case Some(full) =>
        (match lib.parse(full)
         case Err(e) => (Err(e), st)
         case Ok(lc) => (Ok(Some(lc)), st.(lcs := st.lcs[lc.flco := lc])))
      case None =>
        var (s, v) := Step(st.asm, GetVoiceType(b), Vseq(b), EmbLcOf(view));
        if v != Collected(true) then (Ok(None), st.(asm := s))
        else match DecodeOf(s, lib.decodeEmb)
          case None => (Ok(None), st.(asm := s))
          case Some(data) =>
            (match lib.parse(data)
             case Err(_) => (Ok(None), DecoderState(st.lcs, Empty))
             case Ok(lc) => (Ok(Some(lc)), DecoderState(st.lcs[lc.flco := lc], Empty)))
  }

  /** Stored LCs are only ever replaced by a newer one of the same FLCO, never dropped. */
  lemma LcsOnlyGrow(streamId: int, st: DecoderState, pStream: int, view: Option<EtsiL2.View>, b: byte, lib: LcLib)
    ensures var r := ProcessSpec(streamId, st, pStream, view, b, lib);
      && st.lcs.Keys <= r.1.lcs.Keys
      && forall f :: f in st.lcs && st.lcs[f] != r.1.lcs[f] ==> r.0.Ok? && r.0.value.Some? && r.0.value.value.flco == f
  {
  }

  /** An LC decoded from the embedded assembly leaves the assembler empty, ready for the next superframe. */
  lemma EmbeddedLcResets(streamId: int, st: DecoderState, pStream: int, view: Option<EtsiL2.View>, b: byte, lib: LcLib)
    requires FullLcOf(view, lib.decodeFullLc).None?
    requires var r := ProcessSpec(streamId, st, pStream, view, b, lib).0; r.Ok? && r.value.Some?
    ensures ProcessSpec(streamId, st, pStream, view, b, lib).1.asm == Empty
  {
  }

  /** The decoder keeps its assembler's invariant. */
  lemma ProcessKeepsAssembler(streamId: int, st: DecoderState, pStream: int, view: Option<EtsiL2.View>, b: byte, lib: LcLib)
    requires Good(st.asm) && Tracks(st.asm)
    ensures var r := ProcessSpec(streamId, st, pStream, view, b, lib); Good(r.1.asm) && Tracks(r.1.asm)
  {
    var e := EmbLcOf(view);
    StepKeepsGood(st.asm, GetVoiceType(b), Vseq(b), e);
    StepKeepsTracks(st.asm, b, e);
  }

  /** The full LC of a header or terminator of the stream is parsed, returned and stored under its FLCO. */
  lemma FullLcStored(streamId: int, st: DecoderState, view: Option<EtsiL2.View>, b: byte, lib: LcLib, lc: Lc)
    requires FullLcOf(view, lib.decodeFullLc).Some?
    requires lib.parse(FullLcOf(view, lib.decodeFullLc).value) == Ok(lc)
    ensures ProcessSpec(streamId, st, streamId, view, b, lib) == (Ok(Some(lc)), st.(lcs := st.lcs[lc.flco := lc]))
  {
  }

  /** A full LC that does not parse raises the parser's error, and the decoder is left as it was. */
  lemma FullLcParseFails(streamId: int, st: DecoderState, view: Option<EtsiL2.View>, b: byte, lib: LcLib, e: Error)
    requires FullLcOf(view, lib.decodeFullLc).Some?
    requires lib.parse(FullLcOf(view, lib.decodeFullLc).value) == Err(e)
    ensures ProcessSpec(streamId, st, streamId, view, b, lib) == (Err(e), st)
  {
  }

  /**
   * A burst that completes the assembly, whose four fragments decode and parse, is
   * returned and stored under its FLCO, and the assembler starts over.
   */
  lemma EmbeddedLcStored(streamId: int, st: DecoderState, view: Option<EtsiL2.View>, b: byte, lib: LcLib,
                         s: AsmState, data: seq<byte>, lc: Lc)
    requires FullLcOf(view, lib.decodeFullLc).None?
    requires Step(st.asm, GetVoiceType(b), Vseq(b), EmbLcOf(view)) == (s, Collected(true))
    requires DecodeOf(s, lib.decodeEmb) == Some(data) && lib.parse(data) == Ok(lc)
    ensures ProcessSpec(streamId, st, streamId, view, b, lib) == (Ok(Some(lc)), DecoderState(st.lcs[lc.flco := lc], Empty))
  {
  }

  /**
   * A whole superframe: from an assembler holding no fragment, voice bursts B, C, D
   * and E of the stream, without a full LC, store nothing until E; there the joined
   * fragments are decoded and parsed, the LC is returned and stored under its FLCO,
   * and the assembler is empty again.
   */
  lemma SuperframeLcStored(streamId: int, st: DecoderState, lib: LcLib,
                           v1: Option<EtsiL2.View>, v2: Option<EtsiL2.View>, v3: Option<EtsiL2.View>, v4: Option<EtsiL2.View>,
                           b1: byte, b2: byte, b3: byte, b4: byte,
                           e1: seq<byte>, e2: seq<byte>, e3: seq<byte>, e4: seq<byte>, data: seq<byte>, lc: Lc)
    requires st.asm.lcs == []
    requires GetVoiceType(b1) == BurstB && GetVoiceType(b2) == BurstC && GetVoiceType(b3) == BurstD && GetVoiceType(b4) == BurstE
    requires FullLcOf(v1, lib.decodeFullLc).None? && EmbLcOf(v1) == Some(e1)
    requires FullLcOf(v2, lib.decodeFullLc).None? && EmbLcOf(v2) == Some(e2)
    requires FullLcOf(v3, lib.decodeFullLc).None? && EmbLcOf(v3) == Some(e3)
    requires FullLcOf(v4, lib.decodeFullLc).None? && EmbLcOf(v4) == Some(e4)
    requires lib.decodeEmb(EtsiL2.BytesToBits(Join([e1, e2, e3, e4]))) == Some(data) && lib.parse(data) == Ok(lc)
    ensures var (r1, t1) := ProcessSpec(streamId, st, streamId, v1, b1, lib);
      var (r2, t2) := ProcessSpec(streamId, t1, streamId, v2, b2, lib);
      var (r3, t3) := ProcessSpec(streamId, t2, streamId, v3, b3, lib);
      var (r4, t4) := ProcessSpec(streamId, t3, streamId, v4, b4, lib);
      && r1 == r2 == r3 == Ok(None) && t3.lcs == st.lcs
      && r4 == Ok(Some(lc)) && t4 == DecoderState(st.lcs[lc.flco := lc], Empty)
  {
    BurstVseq(b1);
    BurstVseq(b2);
    BurstVseq(b3);
    BurstVseq(b4);
    SuperframeCompletes(st.asm, 1, e1, e2, e3, e4);
    var (r1, t1) := ProcessSpec(streamId, st, streamId, v1, b1, lib);
    assert t1 == st.(asm := AsmState([e1], 1));
    var (r2, t2) := ProcessSpec(streamId, t1, streamId, v2, b2, lib);
    assert t2 == st.(asm := AsmState([e1, e2], 2));
    var (r3, t3) := ProcessSpec(streamId, t2, streamId, v3, b3, lib);
    assert t3 == st.(asm := AsmState([e1, e2, e3], 3));
    EmbeddedLcStored(streamId, t3, v4, b4, lib, AsmState([e1, e2, e3, e4], 4), data, lc);
  }

  // ---------------------------------------------------------------------------
  // Queries

  /** The `call` property: the first FLCO of LCCall.FLCOS that holds a call LC. */
  function FindCall(lcs: map<int, Lc>, flcos: seq<int>): (r: Option<Lc>)
    ensures r.Some? ==> r.value.kind == CallLc
    ensures r.Some? ==> exists i :: (0 <= i < |flcos| && flcos[i] in lcs && lcs[flcos[i]] == r.value
      && forall j :: 0 <= j < i ==> !(flcos[j] in lcs && lcs[flcos[j]].kind == CallLc))
    ensures r.None? <==> forall i :: 0 <= i < |flcos| && flcos[i] in lcs ==> lcs[flcos[i]].kind != CallLc
  {
    if flcos == [] then None
    else if flcos[0] in lcs && lcs[flcos[0]].kind == CallLc then Some(lcs[flcos[0]])
    else
      var r := FindCall(lcs, flcos[1..]);
      assert forall i :: 1 <= i < |flcos| ==> flcos[i] == flcos[1..][i - 1];
      r
  }

  /** The `location` property: the LC under the first FLCO of LCLocation.FLCOS, if it is a location. */
  function FindLocation(lcs: map<int, Lc>, flcos: seq<int>): (r: Option<Lc>)
    requires flcos != []
    ensures r.Some? <==> flcos[0] in lcs && lcs[flcos[0]].kind == LocationLc
    ensures r.Some? ==> r.value == lcs[flcos[0]]
  {
    if flcos[0] in lcs && lcs[flcos[0]].kind == LocationLc then Some(lcs[flcos[0]]) else None
  }

  /** The talker-alias bytes of the TA LCs held, in FLCO-list order. */
  function CollectTa(lcs: map<int, Lc>, flcos: seq<int>): (r: seq<byte>)
  {
    if flcos == [] then []
    else
      var prev := CollectTa(lcs, flcos[..|flcos| - 1]);
      var f := flcos[|flcos| - 1];
      if f in lcs && lcs[f].kind.TalkerAliasLc? then prev + lcs[f].kind.taData else prev
  }

  /** Only the TA LCs held contribute: with none of them held there is no alias text. */
  lemma {:induction false} CollectTaNothingHeld(lcs: map<int, Lc>, flcos: seq<int>)
    requires forall i :: 0 <= i < |flcos| ==> !(flcos[i] in lcs && lcs[flcos[i]].kind.TalkerAliasLc?)
    ensures CollectTa(lcs, flcos) == []
  {
    if flcos != [] {
      CollectTaNothingHeld(lcs, flcos[..|flcos| - 1]);
    }
  }

  /** When every TA LC is held, the alias bytes are their data, in FLCO-list order. */
  lemma {:induction false} CollectTaAllHeld(lcs: map<int, Lc>, flcos: seq<int>)
    requires |flcos| == 4
    requires forall i :: 0 <= i < |flcos| ==> flcos[i] in lcs && lcs[flcos[i]].kind.TalkerAliasLc?
    ensures CollectTa(lcs, flcos) ==
      lcs[flcos[0]].kind.taData + lcs[flcos[1]].kind.taData + lcs[flcos[2]].kind.taData + lcs[flcos[3]].kind.taData
  {
    var a, b, c := lcs[flcos[0]].kind.taData, lcs[flcos[1]].kind.taData, lcs[flcos[2]].kind.taData;
    assert flcos[..3][..2][..1][..0] == [];
    assert CollectTa(lcs, flcos[..3][..2][..1]) == a;
    assert CollectTa(lcs, flcos[..3][..2]) == a + b;
    assert CollectTa(lcs, flcos[..3]) == a + b + c;
  }

  /**
   * get_ta: nothing unless the first TA FLCO holds a TA LC of a format other than
   * 7-bit; the alias text cut to the declared length, or, while text is still
   * missing, the partial text when asked for.
   */
  function TaOf(lcs: map<int, Lc>, flcos: seq<int>, partial: bool, decodeText: (TaFormat, seq<byte>) -> string)
    : (r: Option<string>)
    requires flcos != []
    ensures !(flcos[0] in lcs && lcs[flcos[0]].kind.TalkerAliasLc?) ==> r.None?
    ensures r.Some? ==> |r.value| <= lcs[flcos[0]].kind.len
    ensures r.Some? && !partial ==> |r.value| == lcs[flcos[0]].kind.len
    ensures flcos[0] in lcs && lcs[flcos[0]].kind.TalkerAliasLc? ==>
      var ta0 := lcs[flcos[0]].kind;
      var text := decodeText(ta0.format, CollectTa(lcs, flcos));
      && (ta0.format == SevenBit ==> r.None?)
      && (ta0.format != SevenBit && |text| >= ta0.len ==> r == Some(text[..ta0.len]))
      && (ta0.format != SevenBit && |text| < ta0.len ==> r == (if partial then Some(text) else None))
  {
    if flcos[0] !in lcs || !lcs[flcos[0]].kind.TalkerAliasLc? then None
    else
      var ta0 := lcs[flcos[0]].kind;
      if ta0.format == SevenBit then None
      else
        var text := decodeText(ta0.format, CollectTa(lcs, flcos));
        if |text| < ta0.len then (if partial then Some(text) else None)
        else Some(text[..ta0.len])
  }

  /** Asking for partial text changes nothing once the whole alias is there. */
  lemma TaPartialAgrees(lcs: map<int, Lc>, flcos: seq<int>, decodeText: (TaFormat, seq<byte>) -> string)
    requires flcos != []
    ensures TaOf(lcs, flcos, false, decodeText).Some? ==> TaOf(lcs, flcos, true, decodeText) == TaOf(lcs, flcos, false, decodeText)
    ensures TaOf(lcs, flcos, true, decodeText).None? ==> TaOf(lcs, flcos, false, decodeText).None?
  {
  }

  /**
   * With all four talker-alias LCs held and a format other than 7-bit, the alias is
   * the text of their data joined in FLCO order, cut to the declared length once that
   * text is long enough.
   */
  lemma TaOfAllHeld(lcs: map<int, Lc>, flcos: seq<int>, partial: bool, decodeText: (TaFormat, seq<byte>) -> string)
    requires |flcos| == 4
    requires forall i :: 0 <= i < |flcos| ==> flcos[i] in lcs && lcs[flcos[i]].kind.TalkerAliasLc?
    requires lcs[flcos[0]].kind.format != SevenBit
    requires var ta0 := lcs[flcos[0]].kind;
      |decodeText(ta0.format, ta0.taData + lcs[flcos[1]].kind.taData + lcs[flcos[2]].kind.taData + lcs[flcos[3]].kind.taData)| >= ta0.len
    ensures var ta0 := lcs[flcos[0]].kind;
      var text := decodeText(ta0.format, ta0.taData + lcs[flcos[1]].kind.taData + lcs[flcos[2]].kind.taData + lcs[flcos[3]].kind.taData);
      TaOf(lcs, flcos, partial, decodeText) == Some(text[..ta0.len])
  {
    CollectTaAllHeld(lcs, flcos);
  }

  class CallLcDecoder {
    const streamId: int
    var lcs: map<int, Lc>
    const assembler: EmbLcAssembler

    function State(): DecoderState
      reads this, assembler
    {
      DecoderState(lcs, assembler.State())
    }

    predicate Valid()
      reads this, assembler
    {
      assembler.Valid()
    }

    constructor (streamId: int)
      ensures this.streamId == streamId && lcs == map[] && fresh(assembler)
      ensures assembler.State() == Empty && Valid()
    {
      this.streamId := streamId;
      lcs := map[];
      assembler := new EmbLcAssembler();
    }

    /** _add_lc: parse, then store under the FLCO, replacing any earlier LC of that FLCO. */
    method AddLc(data: seq<byte>, lib: LcLib) returns (r: Result<Lc>)
      modifies this
      ensures r == lib.parse(data)
      ensures r.Ok? ==> lcs == old(lcs)[r.value.flco := r.value]
      ensures r.Err? ==> lcs == old(lcs)
    {
      r := lib.parse(data);
      if r.Ok? {
        lcs := lcs[r.value.flco := r.value];
      }
    }

    /** process_voicedata */
    method ProcessVoicedata(p: Packet, lib: LcLib) returns (r: Result<Option<Lc>>)
      requires p.IsData()
      modifies this, assembler, p
      ensures var pStream := Fields.GetInt(p.data[..], StreamIdField);
        (r, State()) == ProcessSpec(streamId, old(State()), pStream, CachedL2(old(p.l2), p.data[..]), p.data[15], lib)
      ensures p.l2 == if Fields.GetInt(p.data[..], StreamIdField) == streamId then CachedL2(old(p.l2), p.data[..]) else old(p.l2)
      ensures old(Valid()) ==> Valid()
    {
      ghost var st0 := State();
      ghost var view := CachedL2(p.l2, p.data[..]);
      if Fields.GetInt(p.data[..], StreamIdField) != streamId {
        return Err(CallLcDecoderError);
      }
      var full := p.GetFullLc(lib.decodeFullLc);
      if full.Some? {
        var lc := AddLc(full.value, lib);
        match lc
        case Err(e) => return Err(e);
        case Ok(v) => return Ok(Some(v));
      }
      var done := assembler.ProcessVoicedataOrFail(p);
      if done == Ok(true) {
        var data := assembler.Decode(lib.decodeEmb);
        if data.Some? {
          assembler.Reset();
          var lc := AddLc(data.value, lib);
          if lc.Ok? {
            return Ok(Some(lc.value));
          }
        }
      }
      return Ok(None);
    }

    /** The `call` property, as the loop over LCCall.FLCOS. */
    method Call(flcos: seq<int>) returns (r: Option<Lc>)
      ensures r == FindCall(lcs, flcos)
    {
      for i := 0 to |flcos|
        invariant FindCall(lcs, flcos) == FindCall(lcs, flcos[i..])
      {
        assert flcos[i..][1..] == flcos[i + 1..];
        if flcos[i] in lcs && lcs[flcos[i]].kind == CallLc {
          return Some(lcs[flcos[i]]);
        }
      }
      return None;
    }

    /** get_ta, with the TA bytes gathered by the loop over LCTalkerAlias.FLCOS. */
    method GetTa(partial: bool, flcos: seq<int>, decodeText: (TaFormat, seq<byte>) -> string) returns (r: Option<string>)
      requires flcos != []
      ensures r == TaOf(lcs, flcos, partial, decodeText)
    {
      if flcos[0] !in lcs || !lcs[flcos[0]].kind.TalkerAliasLc? {
        return None;
      }
      var taData: seq<byte> := [];
      for i := 0 to |flcos|
        invariant taData == CollectTa(lcs, flcos[..i])
      {
        assert flcos[..i + 1][..i] == flcos[..i];
        if flcos[i] in lcs && lcs[flcos[i]].kind.TalkerAliasLc? {
          taData := taData + lcs[flcos[i]].kind.taData;
        }
      }
      assert flcos[..|flcos|] == flcos;
      var ta0 := lcs[flcos[0]].kind;
      if ta0.format == SevenBit {
        return None;
      }
      var text := decodeText(ta0.format, taData);
      if |text| < ta0.len {
        return if partial then Some(text) else None;
      }
      return Some(text[..ta0.len]);
    }
  }
}
