/**
 * Voice calls (dmrtools/call.py): a call per DMRD stream id with its activity and
 * end times, and the keeper that ends dead calls and cleans ended ones out of the
 * current set and, much later, out of the log. Time is the integer `now`.
 */
module Calls {
  import opened Wrappers
  import opened Enums
  import Peers

  const DeadTimeout := 5
  const CleanTimeout := 60
  const CleanLogTimeout := 3600 * 6

  /** The fields of a call that change after it is created. */
  datatype CallState = CallState(
    lastPacketTime: int,
    endTime: Option<int>,
    packets: nat,
    routeTo: Option<set<Peers.Peer>>)

  /** The state of a call created at `now`: running, no packet counted, no route. */
  function NewCallState(now: int): (s: CallState)
    ensures !IsEnded(s) && !IsDead(s, now) && s.packets == 0 && s.routeTo.None?
  {
    CallState(now, None, 0, None)
  }

  /** check_timeout: the last packet came less than `timeout` seconds before `now`. */
  predicate Heard(s: CallState, timeout: int, now: int) {
    now - s.lastPacketTime < timeout
  }

  /** is_ended */
  predicate IsEnded(s: CallState) {
    s.endTime.Some?
  }

  /** is_dead: still running, but silent for at least five seconds. */
  predicate IsDead(s: CallState, now: int) {
    !IsEnded(s) && !Heard(s, DeadTimeout, now)
  }

  /** to_be_cleaned: ended and silent for at least a minute. */
  predicate ToBeCleaned(s: CallState, now: int) {
    IsEnded(s) && !Heard(s, CleanTimeout, now)
  }

  /** to_be_cleaned_log: ended and silent for at least six hours. */
  predicate ToBeCleanedLog(s: CallState, now: int) {
    IsEnded(s) && !Heard(s, CleanLogTimeout, now)
  }

  /** A call ripe for the log's cleaning is ripe for the current set's too. */
  lemma LogCleanedOnlyAfterCleaned(s: CallState, now: int)
    ensures ToBeCleanedLog(s, now) ==> ToBeCleaned(s, now)
    ensures ToBeCleaned(s, now) ==> IsEnded(s) && !IsDead(s, now)
  {
  }

  /** time: from the start to the end, or to the last packet while the call runs. */
  function Duration(startTime: int, s: CallState): int {
    (if s.endTime.Some? then s.endTime.value else s.lastPacketTime) - startTime
  }

  /** packet_received: the call is heard at `now` and counts one more packet. */
  function Received(s: CallState, now: int): (r: CallState)
    ensures !IsDead(r, now) && !ToBeCleaned(r, now) && !ToBeCleanedLog(r, now)
    ensures IsEnded(r) == IsEnded(s) && r.routeTo == s.routeTo
    ensures r.packets == s.packets + 1 && Heard(r, 1, now)
  {
    s.(lastPacketTime := now, packets := s.packets + 1)
  }

  /** end: the end time is the last packet's time when timed out, `now` otherwise. */
  function Ended(s: CallState, byTimeout: bool, now: int): (r: CallState)
    ensures IsEnded(r) && !IsDead(r, now)
    ensures byTimeout ==> forall start :: Duration(start, r) == s.lastPacketTime - start
    ensures !byTimeout ==> forall start :: Duration(start, r) == now - start
    ensures r.(endTime := s.endTime) == s
  {
    s.(endTime := Some(if byTimeout then s.lastPacketTime else now))
  }

  /** Ending a running call by timeout does not change its reported duration. */
  lemma TimeoutKeepsDuration(start: int, s: CallState, now: int)
    requires !IsEnded(s)
    ensures Duration(start, Ended(s, true, now)) == Duration(start, s)
  {
  }

  /** What CallKeeper.maintain does to one call of the current set. */
  function Maintained(s: CallState, now: int): (r: CallState)
    ensures !IsDead(r, now)
    ensures IsEnded(r) <==> IsEnded(s) || IsDead(s, now)
    ensures forall start :: Duration(start, r) == Duration(start, s)
    ensures r.lastPacketTime == s.lastPacketTime && r.packets == s.packets && r.routeTo == s.routeTo
    ensures IsEnded(s) ==> r == s
  {
    if IsDead(s, now) then Ended(s, true, now) else s
  }

  class Call {
    const callId: int
    const srcId: int
    const dstId: int
    const peerId: int
    const callType: CallType
    const startTime: int
    var lastPacketTime: int
    var endTime: Option<int>
    var packets: nat
    /** The peers a unit call is routed to; None floods to every ACTIVE peer. */
    var routeTo: Option<set<Peers.Peer>>

    function State(): CallState
      reads this
    {
      CallState(lastPacketTime, endTime, packets, routeTo)
    }

    /** A new call is running, has counted no packet and has no route. */
    constructor (callId: int, srcId: int, dstId: int, peerId: int, callType: CallType, now: int)
      ensures this.callId == callId && this.srcId == srcId && this.dstId == dstId
      ensures this.peerId == peerId && this.callType == callType && startTime == now
      ensures State() == NewCallState(now)
    {
      this.callId := callId;
      this.srcId := srcId;
      this.dstId := dstId;
      this.peerId := peerId;
      this.callType := callType;
      startTime := now;
      lastPacketTime := now;
      endTime := None;
      packets := 0;
      routeTo := None;
    }

    /** packet_received */
    method PacketReceived(now: int)
      modifies this
      ensures State() == Received(old(State()), now)
    {
      lastPacketTime := now;
      packets := packets + 1;
    }

    /** end */
    method End(byTimeout: bool, now: int)
      modifies this
      ensures State() == Ended(old(State()), byTimeout, now)
    {
      endTime := Some(if byTimeout then lastPacketTime else now);
    }
  }

  class CallKeeper {
    var calls: set<Call>
    /** Every call ever added, kept six hours past its end. */
    var callsLog: set<Call>

    /** Every current call is logged, and a logged call that left the current set has ended. */
    predicate Valid()
      reads this, callsLog
    {
      && calls <= callsLog
      && forall c :: c in callsLog && c !in calls ==> IsEnded(c.State())
    }

    constructor ()
      ensures calls == {} && callsLog == {} && Valid()
    {
      calls := {};
      callsLog := {};
    }

    /**
     * maintain: every dead call of the current set is ended by timeout; then the
     * calls ended for a minute leave the current set and those ended for six
     * hours leave the log. Running calls are never removed.
     */
    method Maintain(now: int)
      requires Valid()
      modifies this, calls
      ensures Valid()
      ensures forall c :: c in old(calls) ==> c.State() == Maintained(old(c.State()), now)
      ensures calls == set c | c in old(calls) && !ToBeCleaned(c.State(), now)
      ensures callsLog == set c | c in old(callsLog) && !ToBeCleanedLog(c.State(), now)
      ensures forall c :: c in calls ==> !IsDead(c.State(), now)
    {
      var dead := set c | c in calls && IsDead(c.State(), now);
      var todo := dead;
      while todo != {}
        invariant todo <= dead <= calls
        invariant calls == old(calls) && callsLog == old(callsLog)
        invariant forall c :: c in calls && c !in todo ==> c.State() == Maintained(old(c.State()), now)
        invariant forall c :: c in todo ==> c.State() == old(c.State())
        decreases |todo|
      {
        var c :| c in todo;
        c.End(true, now);
        todo := todo - {c};
      }
      calls := calls - set c | c in calls && ToBeCleaned(c.State(), now);
      callsLog := callsLog - set c | c in callsLog && ToBeCleanedLog(c.State(), now);
    }

    /** by_call_id: a current call with that id, or None when there is none. */
    method ByCallId(callId: int) returns (r: Option<Call>)
      ensures r.Some? ==> r.value in calls && r.value.callId == callId
      ensures r.None? <==> forall c :: c in calls ==> c.callId != callId
    {
      if c :| c in calls && c.callId == callId {
        r := Some(c);
      } else {
        r := None;
      }
    }

    /** add: the call joins both the current set and the log. */
    method Add(c: Call)
      requires Valid()
      modifies this
      ensures Valid()
      ensures calls == old(calls) + {c} && callsLog == old(callsLog) + {c}
    {
      calls := calls + {c};
      callsLog := callsLog + {c};
    }
  }
}
