/**
 * DMRApiHelper (api/dmrapi.py): read-only snapshots of the dispatcher's peers
 * and calls for the dashboard. Peers come in ascending connect time; calls come
 * from the call log in descending start time, at most fifty of them. Without a
 * dispatcher both lists are empty. The getters change nothing.
 */
module Api {
  import opened Wrappers
  import opened Enums
  import opened Text
  import Peers
  import Calls
  import Dispatch

  const CallsMax := 50

  /** One entry of get_peers. */
  datatype PeerInfo = PeerInfo(
    name: string,
    peerId: int,
    addr: string,
    status: Peers.Status,
    connectTime: int,
    activeTime: int,
    units: set<int>,
    config: map<string, string>)

  /** One entry of get_calls; `time` is the call's duration in seconds. */
  datatype CallInfo = CallInfo(
    callId: int,
    dir: string,
    srcId: int,
    dstId: int,
    peerId: int,
    callType: CallType,
    startTime: int,
    lastPacketTime: int,
    isEnded: bool,
    endTime: Option<int>,
    broadcast: bool,
    routeTo: set<string>,
    time: int)

  /** The entry get_peers makes for a peer: its name is its id once bound, its address before. */
  function PeerInfoOf(p: Peers.Peer): (r: PeerInfo)
    reads p
    ensures p.peerId != 0 ==> ValueOf(r.name, 10) == p.peerId as int
    ensures p.peerId == 0 ==> r.name == Peers.AddrStr(p.addr)
    ensures r.units == p.units.Keys && r.status == p.status
  {
    PeerInfo(p.Name(), p.peerId as int, Peers.AddrStr(p.addr), p.status, p.connectTime, p.activeTime,
             p.units.Keys, p.config)
  }

  /** str(n) for any integer. */
  function IntStr(n: int): string {
    if n < 0 then "-" + Decimal(-n) else Decimal(n)
  }

  /** Call.dst_hr: the destination id, prefixed with "TG-" for a group call. */
  function DstHr(c: Calls.Call): string {
    if c.callType == Group then "TG-" + IntStr(c.dstId) else IntStr(c.dstId)
  }

  /** The peers a call is routed to, none for a broadcast call. */
  function RoutePeers(c: Calls.Call): set<Peers.Peer>
    reads c
  {
    if c.routeTo.Some? then c.routeTo.value else {}
  }

  /**
   * The entry get_calls makes for a call: broadcast exactly when it has no route,
   * and then the list of route names is empty; otherwise the route names are exactly
   * the names of the peers routed to.
   */
  function CallInfoOf(c: Calls.Call): (r: CallInfo)
    reads c, RoutePeers(c)
    ensures r.broadcast <==> c.routeTo.None?
    ensures r.broadcast ==> r.routeTo == {}
    ensures c.routeTo.Some? ==> forall q :: q in c.routeTo.value ==> q.Name() in r.routeTo
    ensures forall n :: n in r.routeTo ==> exists q :: q in RoutePeers(c) && q.Name() == n
    ensures r.isEnded <==> Calls.IsEnded(c.State())
    ensures r.time == Calls.Duration(c.startTime, c.State())
  {
    CallInfo(c.callId, IntStr(c.srcId) + "->" + DstHr(c), c.srcId, c.dstId, c.peerId, c.callType,
             c.startTime, c.lastPacketTime, Calls.IsEnded(c.State()), c.endTime, c.routeTo.None?,
             set q | q in RoutePeers(c) :: q.Name(), Calls.Duration(c.startTime, c.State()))
  }

  /** Some element of a non-empty set has the least key. */
  lemma {:induction false} MinExists<T>(s: set<T>, key: T -> int)
    requires s != {}
    ensures exists m :: m in s && forall q :: q in s ==> key(m) <= key(q)
    decreases |s|
  {
    var x :| x in s;
    if s == {x} {
      assert forall q :: q in s ==> q == x;
    } else {
      MinExists(s - {x}, key);
      var m :| m in s - {x} && forall q :: q in s - {x} ==> key(m) <= key(q);
      if key(x) < key(m) {
        assert forall q :: q in s ==> key(x) <= key(q);
      } else {
        assert forall q :: q in s ==> key(m) <= key(q);
      }
    }
  }

  /** sorted(s, key=key): every element once, in ascending key order. */
  method SortBy<T(==)>(s: set<T>, key: T -> int) returns (r: seq<T>)
    ensures Dispatch.Enumerates(r, s)
    ensures forall i, j :: 0 <= i < j < |r| ==> key(r[i]) <= key(r[j])
  {
    r := [];
    var todo := s;
    while todo != {}
      invariant todo <= s
      invariant forall i :: 0 <= i < |r| ==> r[i] in s && r[i] !in todo
      invariant forall q :: q in s && q !in todo ==> q in r
      invariant forall i, j :: 0 <= i < j < |r| ==> r[i] != r[j]
      invariant forall i, j :: 0 <= i < j < |r| ==> key(r[i]) <= key(r[j])
      invariant forall i, q :: 0 <= i < |r| && q in todo ==> key(r[i]) <= key(q)
      decreases |todo|
    {
      MinExists(todo, key);
      var m :| m in todo && forall q :: q in todo ==> key(m) <= key(q);
      r := r + [m];
      todo := todo - {m};
    }
  }

  /**
   * get_peers: one entry per registered peer, in ascending connect time; none
   * without a dispatcher.
   */
  method GetPeers(dispatcher: Option<Dispatch.Dispatcher>) returns (r: seq<PeerInfo>, ghost order: seq<Peers.Peer>)
    ensures dispatcher.None? ==> r == []
    ensures dispatcher.Some? ==>
      && Dispatch.Enumerates(order, dispatcher.value.peerKeeper.peers)
      && (forall i, j :: 0 <= i < j < |order| ==> order[i].connectTime <= order[j].connectTime)
      && |r| == |order|
      && forall i :: 0 <= i < |r| ==> r[i] == PeerInfoOf(order[i])
  {
    if dispatcher.None? {
      return [], [];
    }
    var peers := SortBy<Peers.Peer>(dispatcher.value.peerKeeper.peers, (p: Peers.Peer) => p.connectTime);
    order := peers;
    r := seq(|peers|, i requires 0 <= i < |peers| reads peers => PeerInfoOf(peers[i]));
  }

  /**
   * get_calls: the logged calls, newest start first, cut to the first fifty; no
   * call left out started later than one shown. None without a dispatcher.
   */
  method GetCalls(dispatcher: Option<Dispatch.Dispatcher>) returns (r: seq<CallInfo>, ghost order: seq<Calls.Call>)
    ensures dispatcher.None? ==> r == []
    ensures dispatcher.Some? ==>
      var log := dispatcher.value.callKeeper.callsLog;
      && Dispatch.Enumerates(order, log)
      && |order| == |log|
      && (forall i, j :: 0 <= i < j < |order| ==> order[i].startTime >= order[j].startTime)
      && |r| == (if |log| > CallsMax then CallsMax else |log|)
      && (forall i :: 0 <= i < |r| ==> r[i] == CallInfoOf(order[i]))
      && (forall c, i :: c in log && c !in order[..|r|] && 0 <= i < |r| ==> c.startTime <= order[i].startTime)
  {
    if dispatcher.None? {
      return [], [];
    }
    var log := dispatcher.value.callKeeper.callsLog;
    var calls := SortBy<Calls.Call>(log, (c: Calls.Call) => -c.startTime);
    order := calls;
    LengthOfEnumeration(calls, log);
    if |calls| > CallsMax {
      calls := calls[..CallsMax];
    }
    r := seq(|calls|, i requires 0 <= i < |calls|
                        reads calls, set j, q | 0 <= j < |calls| && q in RoutePeers(calls[j]) :: q
                        => CallInfoOf(calls[i]));
    forall c, i | c in log && c !in order[..|r|] && 0 <= i < |r|
      ensures c.startTime <= order[i].startTime
    {
      var j :| 0 <= j < |order| && order[j] == c;
      assert j >= |r|;
    }
  }

  /** A list of distinct elements that covers a set has its size. */
  lemma {:induction false} LengthOfEnumeration<T>(order: seq<T>, s: set<T>)
    requires Dispatch.Enumerates(order, s)
    ensures |order| == |s|
    decreases |order|
  {
    if order != [] {
      var last := order[|order| - 1];
      var init := order[..|order| - 1];
      assert Dispatch.Enumerates(init, s - {last}) by {
        forall q | q in s - {last} ensures q in init {
          var k :| 0 <= k < |order| && order[k] == q;
          assert k < |order| - 1;
        }
        forall q | q in init ensures q in s - {last} {
          var k :| 0 <= k < |init| && init[k] == q;
          assert order[k] == q && order[|order| - 1] == last;
        }
      }
      LengthOfEnumeration(init, s - {last});
    } else {
      assert s == {};
    }
  }
}
