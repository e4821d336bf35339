/**
 * The parrot application (dmrtools/parrot_app.py): it records the frames of a call
 * addressed to its own id and, once the call has ended, hands the recording to a
 * replay that sends it back under the next stream id. The replay's pacing and its
 * injections are not part of this module; what is kept is the bookkeeping that
 * stops the parrot from recording its own replay.
 */
module Parrot {
  import opened Wrappers
  import opened Fields
  import opened Enums
  import opened DmrdBits
  import opened MmdvmL1
  import Calls

  /** The settings a ParrotApp is built with (repeat_delay only paces the replay). */
  datatype Settings = Settings(parrotId: int, enableUnit: bool, enableGroup: bool)

  /**
   * The app's bookkeeping: `_mycalls`, `_records` (each stored frame as its bytes),
   * and the recordings handed to replay tasks, in the order the tasks were created.
   */
  datatype ParrotState = ParrotState(
    myCalls: set<int>,
    records: map<int, seq<seq<byte>>>,
    scheduled: seq<seq<seq<byte>>>)

  /** A DMRD frame. */
  predicate IsFrame(d: seq<byte>) {
    |d| == PktSize(Builtin(Data))
  }

  function SrcOf(d: seq<byte>): nat
    requires IsFrame(d)
  {
    GetInt(d, SrcIdField)
  }

  function DstOf(d: seq<byte>): nat
    requires IsFrame(d)
  {
    GetInt(d, DstIdField)
  }

  function StreamOf(d: seq<byte>): nat
    requires IsFrame(d)
  {
    GetInt(d, StreamIdField)
  }

  function CallTypeOf(d: seq<byte>): CallType
    requires IsFrame(d)
  {
    GetCallType(d[15])
  }

  /**
   * The filters of record: the frame is addressed to the parrot and not sent by it,
   * its call type is enabled, and its stream is not a replay in progress.
   */
  predicate Accepts(cfg: Settings, myCalls: set<int>, d: seq<byte>)
    requires IsFrame(d)
  {
    && SrcOf(d) != cfg.parrotId
    && DstOf(d) == cfg.parrotId
    && (CallTypeOf(d) == Unit ==> cfg.enableUnit)
    && (CallTypeOf(d) == Group ==> cfg.enableGroup)
    && StreamOf(d) !in myCalls
  }

  /** Source and destination ids have the same width, so the parrot id fits the source field. */
  lemma IdFieldsAlike(d: seq<byte>)
    requires IsFrame(d)
    ensures IntInRange(SrcIdField, DstOf(d)) && IntInRange(DstIdField, SrcOf(d))
  {
  }

  /** The unit-call addressing of the answer: from the parrot, back to the caller. */
  function Swapped(cfg: Settings, d: seq<byte>): (r: seq<byte>)
    requires IsFrame(d) && DstOf(d) == cfg.parrotId
    ensures IsFrame(r) && SrcOf(r) == cfg.parrotId && DstOf(r) == SrcOf(d)
    ensures SameOutside(d, r, Field("ids", 5, 6, IntField))
  {
    IdFieldsAlike(d);
    var a := SetInt(d, SrcIdField, cfg.parrotId).value;
    GetOutsideWindow(d, a, SrcIdField, DstIdField);
    var b := SetInt(a, DstIdField, SrcOf(d)).value;
    GetOutsideWindow(a, b, DstIdField, SrcIdField);
    b
  }

  /**
   * The copy record stores: a unit call is answered from the parrot to the caller,
   * a group call keeps its addressing, and the stream id is one higher, which the
   * int field refuses for the last stream id.
   */
  function Answer(cfg: Settings, d: seq<byte>): (r: Result<seq<byte>>)
    requires IsFrame(d) && DstOf(d) == cfg.parrotId
    ensures r.Ok? <==> StreamOf(d) + 1 < 0x1_0000_0000
    ensures r.Err? ==> r.error == FieldOutOfRange("stream_id")
    ensures r.Ok? ==> IsFrame(r.value)
  {
    var a := if CallTypeOf(d) == Unit then Swapped(cfg, d) else d;
    SetInt(a, StreamIdField, StreamOf(d) + 1)
  }

  /** The frame the answer's stream id is written into: the frame, or its swapped copy. */
  function Addressed(cfg: Settings, d: seq<byte>): (a: seq<byte>)
    requires IsFrame(d) && DstOf(d) == cfg.parrotId
    ensures IsFrame(a) && SameOutside(d, a, Field("ids", 5, 6, IntField))
    ensures Answer(cfg, d) == SetInt(a, StreamIdField, StreamOf(d) + 1)
  {
    if CallTypeOf(d) == Unit then Swapped(cfg, d) else d
  }

  /** The answer carries the next stream id, and the frame's call type. */
  lemma AnswerStream(cfg: Settings, d: seq<byte>)
    requires IsFrame(d) && DstOf(d) == cfg.parrotId && Answer(cfg, d).Ok?
    ensures StreamOf(Answer(cfg, d).value) == StreamOf(d) + 1
    ensures CallTypeOf(Answer(cfg, d).value) == CallTypeOf(d)
  {
    var a := Addressed(cfg, d);
    var r := Answer(cfg, d).value;
    assert r[15] == a[15] == d[15];
  }

  /** A unit call is answered from the parrot to the caller; a group call keeps its addressing. */
  lemma AnswerAddressing(cfg: Settings, d: seq<byte>)
    requires IsFrame(d) && DstOf(d) == cfg.parrotId && Answer(cfg, d).Ok?
    ensures CallTypeOf(d) == Unit ==> SrcOf(Answer(cfg, d).value) == cfg.parrotId
    ensures CallTypeOf(d) == Unit ==> DstOf(Answer(cfg, d).value) == SrcOf(d)
    ensures CallTypeOf(d) == Group ==> SrcOf(Answer(cfg, d).value) == SrcOf(d)
    ensures CallTypeOf(d) == Group ==> DstOf(Answer(cfg, d).value) == DstOf(d)
  {
    var a := Addressed(cfg, d);
    var r := Answer(cfg, d).value;
    GetOutsideWindow(a, r, StreamIdField, SrcIdField);
    GetOutsideWindow(a, r, StreamIdField, DstIdField);
  }

  /** Every byte outside the two id fields and the stream id is the frame's own. */
  lemma AnswerKeepsRest(cfg: Settings, d: seq<byte>, i: nat)
    requires IsFrame(d) && DstOf(d) == cfg.parrotId && Answer(cfg, d).Ok?
    requires i < |d| && !(5 <= i < 11) && !(16 <= i < 20)
    ensures Answer(cfg, d).value[i] == d[i]
  {
    var a := Addressed(cfg, d);
    assert a[i] == d[i];
  }

  /** What record leaves behind, and whether it raised. */
  datatype RecordResult = RecordResult(state: ParrotState, outcome: Outcome)

  /** record, on the app's bookkeeping; `ended` is call.is_ended. */
  function RecordStep(cfg: Settings, s: ParrotState, ended: bool, d: seq<byte>): (r: RecordResult)
    requires IsFrame(d)
  {
    if !Accepts(cfg, s.myCalls, d) then RecordResult(s, Pass)
    else
      var id := StreamOf(d);
      var held := if id in s.records then s.records[id] else [];
      match Answer(cfg, d)
      case Err(e) => RecordResult(s.(records := s.records[id := held]), Fail(e))
      case Ok(a) =>
        if ended then
          RecordResult(s.(records := s.records - {id}, scheduled := s.scheduled + [held + [a]]), Pass)
        else
          RecordResult(s.(records := s.records[id := held + [a]]), Pass)
  }

  /** A frame the filters turn away leaves everything as it was. */
  lemma IgnoredFrame(cfg: Settings, s: ParrotState, ended: bool, d: seq<byte>)
    requires IsFrame(d) && !Accepts(cfg, s.myCalls, d)
    ensures RecordStep(cfg, s, ended, d) == RecordResult(s, Pass)
  {
  }

  /**
   * An accepted frame of a running call adds exactly one copy, its answer, to the end
   * of its stream's recording; no other recording and no replay changes.
   */
  lemma RecordedOnce(cfg: Settings, s: ParrotState, ended: bool, d: seq<byte>)
    requires IsFrame(d) && Accepts(cfg, s.myCalls, d) && !ended
    requires StreamOf(d) + 1 < 0x1_0000_0000
    ensures var r := RecordStep(cfg, s, ended, d); var id := StreamOf(d);
      && r.outcome == Pass
      && id in r.state.records
      && r.state.records[id] == (if id in s.records then s.records[id] else []) + [Answer(cfg, d).value]
      && (forall k :: k != id ==> (k in r.state.records <==> k in s.records))
      && (forall k :: k != id && k in s.records ==> r.state.records[k] == s.records[k])
      && r.state.myCalls == s.myCalls && r.state.scheduled == s.scheduled
  {
  }

  /**
   * The frame that ends a call completes its stream's recording, which leaves the
   * records and becomes the next replay.
   */
  lemma EndedCallScheduled(cfg: Settings, s: ParrotState, d: seq<byte>)
    requires IsFrame(d) && Accepts(cfg, s.myCalls, d)
    requires StreamOf(d) + 1 < 0x1_0000_0000
    ensures var r := RecordStep(cfg, s, true, d); var id := StreamOf(d);
      && r.outcome == Pass
      && id !in r.state.records
      && r.state.records == s.records - {id}
      && r.state.scheduled == s.scheduled + [(if id in s.records then s.records[id] else []) + [Answer(cfg, d).value]]
  {
  }

  /**
   * Recording the last stream id raises the int field's range error, after the
   * stream's (possibly empty) recording has been opened.
   */
  lemma LastStreamIdRaises(cfg: Settings, s: ParrotState, ended: bool, d: seq<byte>)
    requires IsFrame(d) && Accepts(cfg, s.myCalls, d)
    requires StreamOf(d) == 0xFFFF_FFFF
    ensures var r := RecordStep(cfg, s, ended, d);
      && r.outcome == Fail(FieldOutOfRange("stream_id"))
      && StreamOf(d) in r.state.records
      && r.state.myCalls == s.myCalls && r.state.scheduled == s.scheduled
  {
  }

  /** The parrot never records its own answer to a unit call: that answer comes from the parrot id. */
  lemma UnitAnswerNotRecorded(cfg: Settings, s: ParrotState, t: ParrotState, ended: bool, d: seq<byte>)
    requires IsFrame(d) && DstOf(d) == cfg.parrotId && CallTypeOf(d) == Unit
    requires Answer(cfg, d).Ok?
    ensures IsFrame(Answer(cfg, d).value)
    ensures RecordStep(cfg, t, ended, Answer(cfg, d).value) == RecordResult(t, Pass)
  {
    AnswerAddressing(cfg, d);
  }

  /** repeat, before its injections: what it refuses, what it skips, and the stream it marks. */
  function RepeatStart(hasDispatcher: bool, s: ParrotState, packets: seq<seq<byte>>): (r: Result<(ParrotState, Option<int>)>)
    requires forall i :: 0 <= i < |packets| ==> IsFrame(packets[i])
    ensures !hasDispatcher <==> r == Err(AppError)
    ensures hasDispatcher && packets == [] ==> r == Ok((s, None))
    ensures hasDispatcher && packets != [] ==>
      r == Ok((s.(myCalls := s.myCalls + {StreamOf(packets[0])}), Some(StreamOf(packets[0]))))
  {
    if !hasDispatcher then Err(AppError)
    else if packets == [] then Ok((s, None))
    else
      var id := StreamOf(packets[0]);
      Ok((s.(myCalls := s.myCalls + {id}), Some(id)))
  }

  /**
   * While a replay runs, no frame of its stream is recorded, whatever its
   * addressing: the replayed answers of a group call come back through the
   * dispatcher with the parrot as destination.
   */
  lemma ReplayNotRecorded(cfg: Settings, s: ParrotState, packets: seq<seq<byte>>, ended: bool, d: seq<byte>)
    requires forall i :: 0 <= i < |packets| ==> IsFrame(packets[i])
    requires packets != [] && IsFrame(d) && StreamOf(d) == StreamOf(packets[0])
    ensures var r := RepeatStart(true, s, packets);
      r.Ok? && RecordStep(cfg, r.value.0, ended, d) == RecordResult(r.value.0, Pass)
  {
  }

  class ParrotApp {
    const parrotId: int
    const repeatDelay: int
    const enableUnit: bool
    const enableGroup: bool
    /** Whether App.dispatcher has been set, which AppKeeper.register does. */
    var hasDispatcher: bool
    var myCalls: set<int>
    var records: map<int, seq<seq<byte>>>
    var scheduled: seq<seq<seq<byte>>>

    function Cfg(): Settings {
      Settings(parrotId, enableUnit, enableGroup)
    }

    function State(): ParrotState
      reads this
    {
      ParrotState(myCalls, records, scheduled)
    }

    constructor (parrotId: int, repeatDelay: int, enableUnit: bool, enableGroup: bool)
      ensures Cfg() == Settings(parrotId, enableUnit, enableGroup) && this.repeatDelay == repeatDelay
      ensures State() == ParrotState({}, map[], []) && !hasDispatcher
    {
      this.parrotId := parrotId;
      this.repeatDelay := repeatDelay;
      this.enableUnit := enableUnit;
      this.enableGroup := enableGroup;
      hasDispatcher := false;
      myCalls := {};
      records := map[];
      scheduled := [];
    }

    /** record: the answer goes on a copy of the frame; the frame itself is not touched. */
    method Record(call: Calls.Call, p: Packet) returns (r: Outcome)
      requires p.IsData()
      modifies this
      ensures var rr := RecordStep(Cfg(), old(State()), Calls.IsEnded(call.State()), p.GetData());
        State() == rr.state && r == rr.outcome
      ensures hasDispatcher == old(hasDispatcher)
    {
      var d := p.GetData();
      var src, dst, id, ct := SrcOf(d), DstOf(d), StreamOf(d), CallTypeOf(d);
      if src == parrotId || dst != parrotId {
        return Pass;
      }
      if ct == Unit && !enableUnit {
        return Pass;
      }
      if ct == Group && !enableGroup {
        return Pass;
      }
      if id in myCalls {
        return Pass;
      }
      ghost var s := State();
      ghost var held := if id in records then records[id] else [];
      if id !in records {
        records := records[id := []];
      }
      assert records == s.records[id := held];
      var answer := MakeAnswer(p);
      if answer.Err? {
        return Fail(answer.error);
      }
      records := records[id := records[id] + [answer.value]];
      assert records == s.records[id := held + [answer.value]];
      if Calls.IsEnded(call.State()) {
        scheduled := scheduled + [records[id]];
        records := records - {id};
        assert records == s.records - {id};
      }
      return Pass;
    }

    /** The answer record builds on `p.copy()`: the setters of the copy, in order. */
    method MakeAnswer(p: Packet) returns (r: Result<seq<byte>>)
      requires p.IsData() && DstOf(p.GetData()) == parrotId
      ensures r == Answer(Cfg(), p.GetData())
    {
      var d := p.GetData();
      ghost var a := Addressed(Cfg(), d);
      var ans := p.Copy();
      assert ans.data.Length == |d| == 55;
      if CallTypeOf(d) == Unit {
        SwapIds(ans, d);
      }
      assert ans.GetData() == a;
      var o := ans.SetInt(StreamIdField, StreamOf(d) + 1);
      if o.Fail? {
        return Err(o.error);
      }
      return Ok(ans.GetData());
    }

    /** The unit-call setters of record: src_id from the parrot, dst_id the caller. */
    method SwapIds(ans: Packet, d: seq<byte>)
      requires ans.IsData() && ans.GetData() == d && DstOf(d) == parrotId
      modifies ans.data
      ensures ans.GetData() == Swapped(Cfg(), d)
    {
      IdFieldsAlike(d);
      var _ := ans.SetInt(SrcIdField, parrotId);
      var _ := ans.SetInt(DstIdField, SrcOf(d));
    }

    /** repeat up to its first injection. */
    method BeginRepeat(packets: seq<seq<byte>>) returns (r: Result<Option<int>>)
      requires forall i :: 0 <= i < |packets| ==> IsFrame(packets[i])
      modifies this
      ensures var rs := RepeatStart(old(hasDispatcher), old(State()), packets);
        && (rs.Err? ==> r == Err(rs.error) && State() == old(State()))
        && (rs.Ok? ==> r == Ok(rs.value.1) && State() == rs.value.0)
      ensures hasDispatcher == old(hasDispatcher)
    {
      if !hasDispatcher {
        return Err(AppError);
      }
      if |packets| == 0 {
        return Ok(None);
      }
      var id := StreamOf(packets[0]);
      myCalls := myCalls + {id};
      r := Ok(Some(id));
    }

    /** repeat after its last injection: the stream is no longer the parrot's own. */
    method EndRepeat(streamId: int)
      modifies this
      ensures State() == old(State()).(myCalls := old(myCalls) - {streamId})
      ensures hasDispatcher == old(hasDispatcher)
    {
      myCalls := myCalls - {streamId};
    }
  }
}
