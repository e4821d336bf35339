/**
 * The embedded-LC assembler (EmbLCAssembler, in dmrtools/dmrproto/util.py and again
 * in dmrtools/dmrproto/lc_util.py). Voice bursts B, C, D and E of a superframe each
 * carry a 4-byte fragment of the embedded link control; the assembler collects them
 * in order, checking that each burst continues the voice sequence of the previous
 * one, and starts over on any irregularity. The two copies share state and rules and
 * differ only in how a rejection is reported: util.py returns False, lc_util.py
 * raises EmbLCAssemblerException.
 */
module EmbLc {
  import opened Wrappers
  import opened Fields
  import opened Enums
  import opened DmrdBits
  import EtsiL2
  import opened MmdvmL1

  /** VTYPE_N_MAP: the position of a burst in the assembly. */
  function BurstIndex(vt: VoiceType): (r: Option<nat>)
    ensures r.Some? ==> r.value < 4
    ensures r.Some? <==> vt in {BurstB, BurstC, BurstD, BurstE}
    ensures r == Some(3) <==> vt == BurstE
  {
    match vt
    case BurstB => Some(0)
    case BurstC => Some(1)
    case BurstD => Some(2)
    case BurstE => Some(3)
    case _ => None
  }

  /** The assembler's state: the fragments collected so far and the last vseq seen. */
  datatype AsmState = AsmState(lcs: seq<seq<byte>>, vseq: int)

  /** What reset leaves. */
  const Empty := AsmState([], 0)

  /** The state invariant: at most the four fragments of one superframe, a 4-bit vseq. */
  predicate Good(s: AsmState) {
    |s.lcs| <= 4 && 0 <= s.vseq < 16
  }

  /** How a burst was taken: not a B-E burst, refused (and the state reset), or collected. */
  datatype Verdict = Ignored | Rejected | Collected(complete: bool)

  /**
   * The two order checks a B-E burst must pass before its fragment is read: bursts
   * after B continue the stored vseq (modulo 256), and the burst's position equals the
   * number of fragments already held.
   */
  predicate InOrder(s: AsmState, vt: VoiceType, pvseq: int)
    requires BurstIndex(vt).Some?
  {
    var n := BurstIndex(vt).value;
    (n == 0 || pvseq == (s.vseq + 1) % 256) && |s.lcs| == n
  }

  /**
   * One call of process_voicedata on a burst of voice type `vt` and vseq `pvseq`; `emb`
   * is what the packet's get_emb_lc returns, consulted only once the order checks pass.
   */
  function Step(s: AsmState, vt: VoiceType, pvseq: int, emb: Option<seq<byte>>): (r: (AsmState, Verdict))
    ensures r.1 == Ignored <==> BurstIndex(vt).None?
    ensures r.1 == Ignored ==> r.0 == s
    ensures r.1 == Rejected ==> r.0 == Empty
    ensures r.1.Collected? <==> BurstIndex(vt).Some? && InOrder(s, vt, pvseq) && emb.Some?
    ensures r.1.Collected? ==> r.0 == AsmState(s.lcs + [emb.value], pvseq)
    ensures r.1.Collected? ==> (r.1.complete <==> vt == BurstE) && |r.0.lcs| == BurstIndex(vt).value + 1
  {
    match BurstIndex(vt)
    case None => (s, Ignored)
    case Some(n) =>
      if n > 0 && pvseq != (s.vseq + 1) % 256 then (Empty, Rejected)
      else if |s.lcs| != n then (Empty, Rejected)
      else if emb.None? then (Empty, Rejected)
      else (AsmState(s.lcs + [emb.value], pvseq), Collected(n == 3))
  }

  /** Every step keeps the invariant, for the 4-bit vseq a DMRD frame can carry. */
  lemma StepKeepsGood(s: AsmState, vt: VoiceType, pvseq: int, emb: Option<seq<byte>>)
    requires Good(s) && 0 <= pvseq < 16
    ensures Good(Step(s, vt, pvseq, emb).0)
  {
  }

  /** A completed assembly holds exactly four fragments, so it can be decoded. */
  lemma CompleteHoldsFour(s: AsmState, vt: VoiceType, pvseq: int, emb: Option<seq<byte>>)
    requires Step(s, vt, pvseq, emb).1 == Collected(true)
    ensures |Step(s, vt, pvseq, emb).0.lcs| == 4
  {
  }

  /**
   * From a state holding no fragment, bursts B, C, D, E with consecutive vseqs and
   * their fragments complete an assembly of exactly those four fragments.
   */
  lemma SuperframeCompletes(s: AsmState, v: int, e1: seq<byte>, e2: seq<byte>, e3: seq<byte>, e4: seq<byte>)
    requires s.lcs == [] && 0 <= v && v + 3 < 256
    ensures var (s1, r1) := Step(s, BurstB, v, Some(e1));
      var (s2, r2) := Step(s1, BurstC, v + 1, Some(e2));
      var (s3, r3) := Step(s2, BurstD, v + 2, Some(e3));
      var (s4, r4) := Step(s3, BurstE, v + 3, Some(e4));
      r1 == r2 == r3 == Collected(false) && r4 == Collected(true) && s4 == AsmState([e1, e2, e3, e4], v + 3)
  {
    var (s1, r1) := Step(s, BurstB, v, Some(e1));
    assert s1 == AsmState([e1], v);
    var (s2, r2) := Step(s1, BurstC, v + 1, Some(e2));
    assert s2 == AsmState([e1, e2], v + 1);
    var (s3, r3) := Step(s2, BurstD, v + 2, Some(e3));
    assert s3 == AsmState([e1, e2, e3], v + 2);
  }

  /**
   * The vseq of a DMRD frame is the low half of its voice type, so bursts B-E carry
   * vseq 1-4: one more than their position in the assembly.
   */
  lemma BurstVseq(b: byte)
    requires BurstIndex(GetVoiceType(b)).Some?
    ensures Vseq(b) == BurstIndex(GetVoiceType(b)).value + 1
  {
    var vt := GetVoiceType(b);
    assert Value(vt) == FrameType(b) * 16 + Vseq(b);
  }

  /** The stored vseq counts the fragments held. */
  predicate Tracks(s: AsmState) {
    s.vseq == |s.lcs|
  }

  /** Steps on DMRD frames keep the stored vseq equal to the number of fragments. */
  lemma StepKeepsTracks(s: AsmState, b: byte, emb: Option<seq<byte>>)
    requires Tracks(s)
    ensures Tracks(Step(s, GetVoiceType(b), Vseq(b), emb).0)
  {
    if BurstIndex(GetVoiceType(b)).Some? {
      BurstVseq(b);
    }
  }

  /**
   * On DMRD frames the vseq continuity check never decides anything: once the stored
   * vseq counts the fragments, a B-E burst is in order exactly when its position
   * equals the number of fragments held.
   */
  lemma VseqCheckRedundant(s: AsmState, b: byte)
    requires Tracks(s) && BurstIndex(GetVoiceType(b)).Some?
    ensures InOrder(s, GetVoiceType(b), Vseq(b)) <==> |s.lcs| == BurstIndex(GetVoiceType(b)).value
  {
    BurstVseq(b);
  }

  /** Burst B is refused while fragments are held: a finished assembly must be reset first. */
  lemma HeldFragmentsRefuseB(s: AsmState, pvseq: int, emb: Option<seq<byte>>)
    requires s.lcs != []
    ensures Step(s, BurstB, pvseq, emb) == (Empty, Rejected)
  {
  }

  /** A burst out of order never completes an assembly, whatever it carries. */
  lemma OutOfOrderRejected(s: AsmState, vt: VoiceType, pvseq: int, emb: Option<seq<byte>>)
    requires BurstIndex(vt).Some? && !InOrder(s, vt, pvseq)
    ensures Step(s, vt, pvseq, emb) == (Empty, Rejected)
  {
  }

  /** b"".join(lcs) */
  function Join(lcs: seq<seq<byte>>): (r: seq<byte>)
    ensures (forall i :: 0 <= i < |lcs| ==> |lcs[i]| == 4) ==> |r| == 4 * |lcs|
  {
    if lcs == [] then [] else lcs[0] + Join(lcs[1..])
  }

  /** decode on a state, with decode_emblc of the dmr_utils3 package as a parameter. */
  function DecodeOf(s: AsmState, decodeEmb: seq<EtsiL2.bit> -> Option<seq<byte>>): (r: Option<seq<byte>>)
    ensures |s.lcs| != 4 ==> r.None?
  {
    if |s.lcs| != 4 then None else decodeEmb(EtsiL2.BytesToBits(Join(s.lcs)))
  }

  class EmbLcAssembler {
    var lcs: seq<seq<byte>>
    var vseq: int

    function State(): AsmState
      reads this
    {
      AsmState(lcs, vseq)
    }

    predicate Valid()
      reads this
    {
      Good(State()) && Tracks(State())
    }

    constructor ()
      ensures State() == Empty && Valid()
    {
      lcs := [];
      vseq := 0;
    }

    /** reset */
    method Reset()
      modifies this
      ensures State() == Empty && Valid()
    {
      lcs := [];
      vseq := 0;
    }

    /**
     * The body shared by both process_voicedata: checks the burst, reads the fragment
     * from the packet (which caches the packet's layer-2 view) only once the order
     * checks pass, and updates the state as Step says.
     */
    method Process(p: Packet) returns (v: Verdict)
      requires p.IsData()
      modifies this, p
      ensures var vt, pv := GetVoiceType(p.data[15]), Vseq(p.data[15]);
        (State(), v) == Step(old(State()), vt, pv, EmbLcOf(CachedL2(old(p.l2), p.data[..])))
      ensures var vt, pv := GetVoiceType(p.data[15]), Vseq(p.data[15]);
        p.l2 == if BurstIndex(vt).Some? && InOrder(old(State()), vt, pv) then CachedL2(old(p.l2), p.data[..]) else old(p.l2)
      ensures old(Valid()) ==> Valid()
    {
      var vt, pv := GetVoiceType(p.data[15]), Vseq(p.data[15]);
      ghost var emb0 := EmbLcOf(CachedL2(p.l2, p.data[..]));
      if Valid() {
        StepKeepsGood(State(), vt, pv, emb0);
        StepKeepsTracks(State(), p.data[15], emb0);
      }
      var n := BurstIndex(vt);
      if n.None? {
        return Ignored;
      }
      if n.value > 0 && pv != (vseq + 1) % 256 {
        Reset();
        return Rejected;
      }
      if |lcs| != n.value {
        Reset();
        return Rejected;
      }
      var emb := p.GetEmbLc();
      if emb.None? {
        Reset();
        return Rejected;
      }
      lcs := lcs + [emb.value];
      vseq := pv;
      return Collected(n.value == 3);
    }

    /**
     * process_voicedata of util.py: True exactly when burst E completed the assembly;
     * a refused burst resets the assembler.
     */
    method ProcessVoicedata(p: Packet) returns (r: bool)
      requires p.IsData()
      modifies this, p
      ensures var vt, pv := GetVoiceType(p.data[15]), Vseq(p.data[15]);
        var (s, v) := Step(old(State()), vt, pv, EmbLcOf(CachedL2(old(p.l2), p.data[..])));
        State() == s && (r <==> v == Collected(true))
      ensures r ==> |lcs| == 4
      ensures var vt, pv := GetVoiceType(p.data[15]), Vseq(p.data[15]);
        p.l2 == if BurstIndex(vt).Some? && InOrder(old(State()), vt, pv) then CachedL2(old(p.l2), p.data[..]) else old(p.l2)
      ensures old(Valid()) ==> Valid()
    {
      var v := Process(p);
      r := v == Collected(true);
    }

    /**
     * process_voicedata of lc_util.py: as above, but a refused burst resets the
     * assembler and is reported as EmbLCAssemblerException.
     */
    method ProcessVoicedataOrFail(p: Packet) returns (r: Result<bool>)
      requires p.IsData()
      modifies this, p
      ensures var vt, pv := GetVoiceType(p.data[15]), Vseq(p.data[15]);
        var (s, v) := Step(old(State()), vt, pv, EmbLcOf(CachedL2(old(p.l2), p.data[..])));
        && State() == s
        && (r.Err? <==> v == Rejected)
        && (r.Err? ==> r.error == EmbLcAssemblerError)
        && (r == Ok(true) <==> v == Collected(true))
      ensures r == Ok(true) ==> |lcs| == 4
      ensures var vt, pv := GetVoiceType(p.data[15]), Vseq(p.data[15]);
        p.l2 == if BurstIndex(vt).Some? && InOrder(old(State()), vt, pv) then CachedL2(old(p.l2), p.data[..]) else old(p.l2)
      ensures old(Valid()) ==> Valid()
    {
      var v := Process(p);
      if v == Rejected {
        r := Err(EmbLcAssemblerError);
      } else {
        r := Ok(v == Collected(true));
      }
    }

    /** decode: nothing unless exactly four fragments are held. */
    method Decode(decodeEmb: seq<EtsiL2.bit> -> Option<seq<byte>>) returns (r: Option<seq<byte>>)
      ensures r == DecodeOf(State(), decodeEmb)
      ensures |lcs| != 4 ==> r.None?
    {
      if |lcs| != 4 {
        return None;
      }
      r := decodeEmb(EtsiL2.BytesToBits(Join(lcs)));
    }
  }
}
