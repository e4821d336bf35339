/**
 * The dispatcher (dmrtools/dispatcher.py): every datagram is handed to the
 * controller of the peer at its address; DMRD frames that pass open or continue
 * the call of their stream, go through the registered apps and are fanned out
 * to the call's route (or to every ACTIVE peer) with peer_id rewritten for each
 * recipient; DMRA packets are fanned out to every ACTIVE peer. No copy goes back
 * to the address the packet came from.
 */
module Dispatch {
  import opened Wrappers
  import opened Fields
  import opened Enums
  import opened DmrdBits
  import opened MmdvmL1
  import opened Auth
  import opened Outbox
  import Peers
  import Calls
  import Parrot
  import PeerControl

  function PeerOf(d: seq<byte>): nat
    requires Parrot.IsFrame(d)
  {
    GetInt(d, DataPeerIdField)
  }

  /** route_to of a new call: for a UNIT call, the peers that have heard its destination, if any. */
  function NewRoute(ct: CallType, located: set<Peers.Peer>): Option<set<Peers.Peer>> {
    if ct == Unit && |located| > 0 then Some(located) else None
  }

  /** The state of the call opened by the first frame `d` of a stream at `now`. */
  function Opened(d: seq<byte>, now: int, located: set<Peers.Peer>): (s: Calls.CallState)
    requires Parrot.IsFrame(d)
    ensures !Calls.IsEnded(s) && s.packets == 0
    ensures s.routeTo.Some? <==> Parrot.CallTypeOf(d) == Unit && located != {}
    ensures s.routeTo.Some? ==> s.routeTo.value == located
  {
    Calls.NewCallState(now).(routeTo := NewRoute(Parrot.CallTypeOf(d), located))
  }

  /** What one frame does to its call: packet_received, then end() on a terminator. */
  function Advanced(s: Calls.CallState, term: bool, now: int): (r: Calls.CallState)
    ensures r.packets == s.packets + 1 && r.routeTo == s.routeTo && r.lastPacketTime == now
    ensures !Calls.IsDead(r, now)
    ensures term ==> Calls.IsEnded(r) && r.endTime == Some(now)
    ensures !term ==> r.endTime == s.endTime
  {
    var r := Calls.Received(s, now);
    if term then Calls.Ended(r, false, now) else r
  }

  /** The peers distribute_by_peers goes through: the route, or every ACTIVE peer without one. */
  function Pool(route: Option<set<Peers.Peer>>, active: set<Peers.Peer>): set<Peers.Peer> {
    if route.Some? then route.value else active
  }

  /** The peers a packet is fanned out to: those of `pool` not at the origin address. */
  function Targets(pool: set<Peers.Peer>, origAddr: Peers.Addr): set<Peers.Peer> {
    set q | q in pool && q.addr != origAddr
  }

  /** `order` lists every element of `targets` exactly once. */
  predicate Enumerates<T(==)>(order: seq<T>, targets: set<T>) {
    && (forall i, j :: 0 <= i < j < |order| ==> order[i] != order[j])
    && (forall q :: q in order ==> q in targets)
    && (forall q :: q in targets ==> q in order)
  }

  /** The frame `d` with the four-byte peer_id field `f` set to `id`. */
  function WithPeerId(d: seq<byte>, f: Field, id: uint32): (r: seq<byte>)
    requires Fits(f, |d|) && f.bytelen == 4 && f.kind == IntField
    ensures |r| == |d| && SameOutside(d, r, f) && GetInt(r, f) == id
  {
    FourBytesIsUint32();
    SetInt(d, f, id).value
  }

  /** Where a copy goes: the recipient's peer id and address, as read when the packet is distributed. */
  datatype Recipient = Recipient(peerId: uint32, addr: Peers.Addr)

  /** The recipients of the peers in `order`, in order. */
  function Recipients(order: seq<Peers.Peer>): seq<Recipient>
    reads order
  {
    seq(|order|, i requires 0 <= i < |order| reads order => Recipient(order[i].peerId, order[i].addr))
  }

  /**
   * The datagrams of a fan-out: one per recipient, in order, to its address; each
   * is the frame `d` with the recipient's id in the peer_id field `f`.
   */
  function Copies(d: seq<byte>, f: Field, rs: seq<Recipient>): seq<Datagram>
    requires Fits(f, |d|) && f.bytelen == 4 && f.kind == IntField
  {
    seq(|rs|, i requires 0 <= i < |rs| => Datagram(WithPeerId(d, f, rs[i].peerId), rs[i].addr))
  }

  /**
   * A fan-out holds one datagram per recipient, in order, to the recipient's
   * address; it is the frame with the recipient's id in peer_id and nothing else
   * changed. No datagram of a fan-out over the targets goes to the origin, and
   * with unique peer addresses no address gets two copies.
   */
  lemma CopiesShape(d: seq<byte>, f: Field, order: seq<Peers.Peer>, targets: set<Peers.Peer>, origAddr: Peers.Addr)
    requires Fits(f, |d|) && f.bytelen == 4 && f.kind == IntField
    requires Enumerates(order, targets)
    requires forall q :: q in targets ==> q.addr != origAddr
    requires forall q, q' :: q in targets && q' in targets && q.addr == q'.addr ==> q == q'
    ensures var out := Copies(d, f, Recipients(order));
      && |out| == |order|
      && (forall i :: 0 <= i < |order| ==>
            && out[i].addr == order[i].addr && out[i].addr != origAddr
            && SameOutside(d, out[i].data, f) && GetInt(out[i].data, f) == order[i].peerId)
      && (forall i, j :: 0 <= i < j < |order| ==> out[i].addr != out[j].addr)
  {
    var out := Copies(d, f, Recipients(order));
    forall i | 0 <= i < |order|
      ensures out[i].addr != origAddr
    {
      assert order[i] in targets;
    }
    forall i, j | 0 <= i < j < |order|
      ensures out[i].addr != out[j].addr
    {
      assert order[i] in targets && order[j] in targets;
    }
  }

  /** Python's iteration over a set: every element once, in some order. */
  method Enumerate(s: set<Peers.Peer>) returns (order: seq<Peers.Peer>)
    ensures Enumerates(order, s)
  {
    order := [];
    var todo := s;
    while todo != {}
      invariant todo <= s
      invariant forall i :: 0 <= i < |order| ==> order[i] in s && order[i] !in todo
      invariant forall q :: q in s && q !in todo ==> q in order
      invariant forall i, j :: 0 <= i < j < |order| ==> order[i] != order[j]
      decreases |todo|
    {
      var q :| q in todo;
      order := order + [q];
      todo := todo - {q};
    }
  }

  /** The peers of `order` whose address is not `origAddr`, in order. */
  function Away(order: seq<Peers.Peer>, origAddr: Peers.Addr): seq<Peers.Peer> {
    if order == [] then []
    else
      var last := order[|order| - 1];
      Away(order[..|order| - 1], origAddr) + if last.addr != origAddr then [last] else []
  }

  /** Skipping the origin keeps the rest of an enumeration, once each. */
  lemma {:induction false} AwayMembers(order: seq<Peers.Peer>, origAddr: Peers.Addr)
    ensures forall q :: q in Away(order, origAddr) ==> q in order && q.addr != origAddr
    ensures forall q :: q in order && q.addr != origAddr ==> q in Away(order, origAddr)
    ensures (forall i, j :: 0 <= i < j < |order| ==> order[i] != order[j]) ==>
      forall i, j :: 0 <= i < j < |Away(order, origAddr)| ==> Away(order, origAddr)[i] != Away(order, origAddr)[j]
  {
    if order != [] {
      var init := order[..|order| - 1];
      AwayMembers(init, origAddr);
      assert forall q :: q in order <==> q in init || q == order[|order| - 1];
    }
  }

  lemma AwayEnumerates(order: seq<Peers.Peer>, s: set<Peers.Peer>, origAddr: Peers.Addr)
    requires Enumerates(order, s)
    ensures Enumerates(Away(order, origAddr), Targets(s, origAddr))
  {
    AwayMembers(order, origAddr);
    var away, targets := Away(order, origAddr), Targets(s, origAddr);
    forall q | q in away
      ensures q in targets
    {
      assert q in order;
    }
  }

  /** No recipient of a fan-out over the targets sits at the origin address. */
  lemma RecipientsAvoidOrigin(order: seq<Peers.Peer>, pool: set<Peers.Peer>, origAddr: Peers.Addr)
    requires Enumerates(order, Targets(pool, origAddr))
    ensures forall i :: 0 <= i < |Recipients(order)| ==> Recipients(order)[i].addr != origAddr
  {
    forall i | 0 <= i < |order|
      ensures Recipients(order)[i].addr != origAddr
    {
      assert order[i] in Targets(pool, origAddr);
    }
  }

  /**
   * What each app's record does to its own state; the apps share no state, so
   * each one's step depends only on its settings and its state before the frame.
   */
  function Steps(cfgs: seq<Parrot.Settings>, states: seq<Parrot.ParrotState>, ended: bool, d: seq<byte>)
    : seq<Parrot.RecordResult>
    requires Parrot.IsFrame(d) && |cfgs| == |states|
  {
    seq(|cfgs|, i requires 0 <= i < |cfgs| => Parrot.RecordStep(cfgs[i], states[i], ended, d))
  }

  /**
   * The loop of process_call_packet from the k-th app on, given each app's step:
   * the states after, how many apps saw the frame, and Pass or the error that
   * stopped the loop.
   */
  function RunFrom(steps: seq<Parrot.RecordResult>, states: seq<Parrot.ParrotState>, k: nat)
    : (seq<Parrot.ParrotState>, nat, Outcome)
    requires |steps| == |states| && k <= |steps|
    decreases |steps| - k
  {
    if k == |steps| then (states, k, Pass)
    else if steps[k].outcome.Fail? then (states[k := steps[k].state], k + 1, steps[k].outcome)
    else RunFrom(steps, states[k := steps[k].state], k + 1)
  }

  /** What the loop leaves: the apps from k to the n-th take their step, the others are untouched. */
  lemma {:induction false} RunFromShape(steps: seq<Parrot.RecordResult>, states: seq<Parrot.ParrotState>, k: nat)
    requires |steps| == |states| && k <= |steps|
    ensures var (after, n, r) := RunFrom(steps, states, k);
      && |after| == |states| && k <= n <= |steps| && (k < |steps| ==> k < n)
      && (forall i :: 0 <= i < k || n <= i < |states| ==> after[i] == states[i])
      && (forall i :: k <= i < n ==> after[i] == steps[i].state)
      && (forall i :: k <= i < n - 1 ==> steps[i].outcome == Pass)
      && (r.Pass? <==> n == |steps| && forall i :: k <= i < n ==> steps[i].outcome == Pass)
      && (r.Fail? ==> k < n && r == steps[n - 1].outcome)
    decreases |steps| - k
  {
    if k < |steps| && steps[k].outcome.Pass? {
      RunFromShape(steps, states[k := steps[k].state], k + 1);
    }
  }

  /**
   * process_call_packet on the apps' settings and states: the states after, how
   * many apps saw the frame, and Pass or the error that stopped the loop.
   */
  function RecordAll(cfgs: seq<Parrot.Settings>, states: seq<Parrot.ParrotState>, ended: bool, d: seq<byte>)
    : (seq<Parrot.ParrotState>, nat, Outcome)
    requires Parrot.IsFrame(d) && |cfgs| == |states|
  {
    RunFrom(Steps(cfgs, states, ended, d), states, 0)
  }

  /**
   * What process_call_packet leaves: the first `n` apps saw the frame and the
   * rest did not; all of them but the n-th passed; the result is Pass exactly
   * when every app passed, and otherwise the n-th app's error.
   */
  lemma RecordAllShape(cfgs: seq<Parrot.Settings>, states: seq<Parrot.ParrotState>, ended: bool, d: seq<byte>)
    requires Parrot.IsFrame(d) && |cfgs| == |states|
    ensures var (after, n, r) := RecordAll(cfgs, states, ended, d);
      && |after| == |states| && n <= |cfgs|
      && (forall i :: n <= i < |states| ==> after[i] == states[i])
      && (forall i :: 0 <= i < n ==> after[i] == Parrot.RecordStep(cfgs[i], states[i], ended, d).state)
      && (forall i :: 0 <= i < n - 1 ==> Parrot.RecordStep(cfgs[i], states[i], ended, d).outcome == Pass)
      && (r.Pass? <==> n == |cfgs| && forall i :: 0 <= i < n ==> Parrot.RecordStep(cfgs[i], states[i], ended, d).outcome == Pass)
      && (r.Fail? ==> 0 < n && r == Parrot.RecordStep(cfgs[n - 1], states[n - 1], ended, d).outcome)
  {
    RunFromShape(Steps(cfgs, states, ended, d), states, 0);
  }

  /** How recv_dg handled a datagram. */
  datatype Handling =
    | Unparsed                      // the factory raised: dropped
    | Stopped                       // process_packet returned False
    | Ignored                       // let through, but neither DMRD nor DMRA
    | DataRouted(outcome: Outcome)  // dispatch_data_packet ran; Fail when an app raised
    | AliasRouted                   // dispatch_ta_packet ran

  /**
   * How recv_dg went on with a parsed packet of class `c` and bytes `d` that the
   * controller answered with `step`, the sender holding `sent0` before and `sent`
   * after: a packet the controller stops goes no further; otherwise DMRD is
   * dispatched as a call frame, DMRA as a talker alias and anything else is
   * ignored. Only the controller's replies are sent unless the packet was routed
   * and no app raised; then the fan-out `rs` follows them, with no copy to `addr`.
   */
  predicate Handled(r: Handling, c: PacketClass, d: seq<byte>, step: PeerControl.StepResult, addr: Peers.Addr,
                    sent0: seq<Datagram>, sent: seq<Datagram>, rs: seq<Recipient>)
  {
    && !r.Unparsed?
    && (r.Stopped? <==> !step.cont)
    && (r.DataRouted? <==> step.cont && c == Builtin(Data))
    && (r.AliasRouted? <==> step.cont && c == Builtin(TalkerAlias))
    && (r.Stopped? || r.Ignored? || (r.DataRouted? && r.outcome.Fail?) ==> sent == sent0 + To(step.sent, addr))
    && (r.AliasRouted? || r == DataRouted(Pass) ==>
          && PeerIdField(c).Some? && Fits(PeerIdField(c).value, |d|)
          && sent == sent0 + To(step.sent, addr) + Copies(d, PeerIdField(c).value, rs)
          && forall i :: 0 <= i < |rs| ==> rs[i].addr != addr)
  }

  class Dispatcher {
    const sender: Sender
    var peerAuth: PeerAuth
    const peerKeeper: Peers.PeerKeeper
    const callKeeper: Calls.CallKeeper
    /** The apps of the AppKeeper that intercept call packets, in registration order. */
    var apps: seq<Parrot.ParrotApp>

    /**
     * The keepers are valid, there is at most one current call per stream id, and
     * no app is registered twice.
     */
    predicate Valid()
      reads this, peerKeeper, peerKeeper.peers, callKeeper, callKeeper.callsLog
    {
      && peerKeeper.Valid() && callKeeper.Valid()
      && (forall c, c' :: c in callKeeper.calls && c' in callKeeper.calls && c.callId == c'.callId ==> c == c')
      && (forall i, j :: 0 <= i < j < |apps| ==> apps[i] != apps[j])
    }

    /** A new dispatcher denies every peer and has no peers, calls or apps. */
    constructor (sender: Sender)
      ensures Valid() && this.sender == sender && peerAuth == DenyAll && apps == []
      ensures peerKeeper.peers == {} && callKeeper.calls == {} && callKeeper.callsLog == {}
    {
      this.sender := sender;
      peerAuth := DenyAll;
      peerKeeper := new Peers.PeerKeeper();
      callKeeper := new Calls.CallKeeper();
      apps := [];
    }

    /** AppKeeper.register: the app joins the list and learns its dispatcher. */
    method RegisterApp(app: Parrot.ParrotApp) returns (ok: bool)
      requires Valid() && app !in apps
      modifies this, app
      ensures Valid() && ok && apps == old(apps) + [app]
      ensures app.hasDispatcher && app.State() == old(app.State())
    {
      app.hasDispatcher := true;
      apps := apps + [app];
      ok := true;
    }

    /** maintain: the peer keeper's pass, then the call keeper's. */
    method Maintain(now: int)
      requires Valid()
      modifies peerKeeper, peerKeeper.peers, callKeeper, callKeeper.calls
      ensures Valid()
      ensures forall q :: q in old(peerKeeper.peers) ==> q.State() == Peers.Maintained(old(q.State()), now)
      ensures peerKeeper.peers == set q | q in old(peerKeeper.peers) && q.status != Peers.Dead
      ensures forall c :: c in old(callKeeper.calls) ==> c.State() == Calls.Maintained(old(c.State()), now)
      ensures callKeeper.calls == set c | c in old(callKeeper.calls) && !Calls.ToBeCleaned(c.State(), now)
      ensures callKeeper.callsLog == set c | c in old(callKeeper.callsLog) && !Calls.ToBeCleanedLog(c.State(), now)
    {
      peerKeeper.Maintain(now);
      callKeeper.Maintain(now);
    }

    /**
     * Lines 51-62 of dispatch_data_packet: the current call of the frame's stream,
     * or a new one made from the frame and added to the keeper.
     */
    method FindOrCreateCall(d: seq<byte>, now: int) returns (call: Calls.Call)
      requires Valid() && Parrot.IsFrame(d)
      modifies callKeeper
      ensures Valid()
      ensures call in callKeeper.calls && call.callId == Parrot.StreamOf(d)
      ensures callKeeper.calls == old(callKeeper.calls) + {call}
      ensures callKeeper.callsLog == old(callKeeper.callsLog) + {call}
      ensures call in old(callKeeper.calls) <==> exists c :: c in old(callKeeper.calls) && c.callId == Parrot.StreamOf(d)
      ensures call !in old(callKeeper.calls) ==>
        && fresh(call) && call.srcId == Parrot.SrcOf(d) && call.dstId == Parrot.DstOf(d)
        && call.peerId == PeerOf(d) && call.callType == Parrot.CallTypeOf(d) && call.startTime == now
        && call.State() == Opened(d, now, peerKeeper.GetByUnit(Parrot.DstOf(d)))
    {
      var found := callKeeper.ByCallId(Parrot.StreamOf(d));
      if found.Some? {
        call := found.value;
        return;
      }
      call := new Calls.Call(Parrot.StreamOf(d), Parrot.SrcOf(d), Parrot.DstOf(d), PeerOf(d),
                             Parrot.CallTypeOf(d), now);
      callKeeper.Add(call);
      if call.callType == Unit {
        var peers := peerKeeper.GetByUnit(Parrot.DstOf(d));
        if |peers| > 0 {
          call.routeTo := Some(peers);
        }
      }
    }

    /** The states of the registered apps, in order. */
    function AppStates(): seq<Parrot.ParrotState>
      reads this, apps
    {
      seq(|apps|, i requires 0 <= i < |apps| reads this, apps => apps[i].State())
    }

    /** The settings of the registered apps, in order. */
    function AppCfgs(): seq<Parrot.Settings>
      reads this
    {
      seq(|apps|, i requires 0 <= i < |apps| reads this => apps[i].Cfg())
    }

    /**
     * AppKeeper.process_call_packet: the apps record the frame in order; an app
     * that raises stops the loop, and the exception goes on to the caller.
     */
    method ProcessCallPacket(call: Calls.Call, p: Packet) returns (r: Outcome, ghost n: nat)
      requires p.IsData() && forall i, j :: 0 <= i < j < |apps| ==> apps[i] != apps[j]
      modifies apps
      ensures (AppStates(), n, r) == RecordAll(AppCfgs(), old(AppStates()), Calls.IsEnded(call.State()), p.GetData())
    {
      ghost var ended := Calls.IsEnded(call.State());
      ghost var d := p.GetData();
      ghost var before := AppStates();
      ghost var steps := Steps(AppCfgs(), before, ended, d);
      r := Pass;
      var k := 0;
      while k < |apps|
        invariant k <= |apps| && ended == Calls.IsEnded(call.State()) && d == p.GetData()
        invariant |AppStates()| == |apps| && RunFrom(steps, AppStates(), k) == RunFrom(steps, before, 0)
        invariant forall i :: k <= i < |apps| ==> AppStates()[i] == before[i]
      {
        ghost var now := AppStates();
        r := RecordOne(k, call, p);
        assert AppStates() == now[k := steps[k].state] && r == steps[k].outcome;
        k := k + 1;
        if r.Fail? {
          n := k;
          return;
        }
      }
      n := k;
      r := Pass;
    }

    /** One app of process_call_packet records the frame; the others are not touched. */
    method RecordOne(k: nat, call: Calls.Call, p: Packet) returns (r: Outcome)
      requires k < |apps| && p.IsData() && forall i, j :: 0 <= i < j < |apps| ==> apps[i] != apps[j]
      modifies apps[k]
      ensures var step := Parrot.RecordStep(AppCfgs()[k], old(AppStates())[k], Calls.IsEnded(call.State()), p.GetData());
        AppStates() == old(AppStates())[k := step.state] && r == step.outcome
    {
      ghost var before := AppStates();
      r := apps[k].Record(call, p);
      assert forall i :: 0 <= i < |apps| && i != k ==> apps[i].State() == before[i];
    }

    /**
     * distribute_by_peers: a copy of the packet goes to every peer of the route,
     * or to every ACTIVE peer without one, except the peer at the origin address;
     * each copy carries the recipient's id in peer_id. The packet is not changed.
     */
    method DistributeByPeers(p: Packet, origAddr: Peers.Addr, route: Option<set<Peers.Peer>>)
      returns (ghost order: seq<Peers.Peer>, ghost rs: seq<Recipient>)
      requires p.Valid() && p.cls in {Builtin(Data), Builtin(TalkerAlias)}
      modifies sender
      ensures Fits(PeerIdField(p.cls).value, |p.GetData()|)
      ensures Enumerates(order, Targets(Pool(route, old(peerKeeper.GetActive())), origAddr))
      ensures rs == Recipients(order)
      ensures sender.sent == old(sender.sent) + Copies(old(p.GetData()), PeerIdField(p.cls).value, rs)
    {
      var d := p.GetData();
      var f := PeerIdField(p.cls).value;
      FieldsInsidePacket(p.cls, f);
      var pool := if route.Some? then route.value else peerKeeper.GetActive();
      var all := Enumerate(pool);
      AwayEnumerates(all, pool, origAddr);
      var targets := Away(all, origAddr);
      var recipients := Recipients(targets);
      order, rs := targets, recipients;
      var sendp := p.Copy();
      SendEach(sendp, d, f, recipients);
      assert Recipients(targets) == recipients;
    }

    /**
     * The loop of distribute_by_peers, over the peers of the pool in Python's
     * iteration order of the set; the peer at the origin address is already
     * skipped in `rs`.
     */
    method SendEach(sendp: Packet, d: seq<byte>, f: Field, rs: seq<Recipient>)
      requires Fits(f, |d|) && f.bytelen == 4 && f.kind == IntField
      requires sendp.data.Length == |d| && SameOutside(d, sendp.GetData(), f)
      modifies sendp.data, sender
      ensures sender.sent == old(sender.sent) + Copies(d, f, rs)
    {
      ghost var all := Copies(d, f, rs);
      for k := 0 to |rs|
        invariant sender.sent == old(sender.sent) + all[..k]
        invariant sendp.data.Length == |d| && SameOutside(d, sendp.GetData(), f)
      {
        SendCopy(sendp, d, f, rs[k]);
        assert all[..k + 1] == all[..k] + [all[k]];
      }
      assert all[..|rs|] == all;
    }

    /** One step of distribute_by_peers: `sendp` gets the peer's id and goes to its address. */
    method SendCopy(sendp: Packet, d: seq<byte>, f: Field, q: Recipient)
      requires Fits(f, |d|) && f.bytelen == 4 && f.kind == IntField
      requires sendp.data.Length == |d| && SameOutside(d, sendp.GetData(), f)
      modifies sendp.data, sender
      ensures sendp.GetData() == WithPeerId(d, f, q.peerId)
      ensures sender.sent == old(sender.sent) + [Datagram(WithPeerId(d, f, q.peerId), q.addr)]
    {
      ghost var prev := sendp.GetData();
      FourBytesIsUint32();
      var _ := sendp.SetInt(f, q.peerId);
      SetIntOverwrites(d, prev, f, q.peerId);
      sender.SendDg(sendp.GetData(), q.addr);
    }

    /** dispatch_ta_packet: a talker alias goes to every ACTIVE peer but its origin. */
    method DispatchTaPacket(p: Packet, origAddr: Peers.Addr) returns (ghost order: seq<Peers.Peer>, ghost rs: seq<Recipient>)
      requires p.Valid() && p.cls == Builtin(TalkerAlias)
      modifies sender
      ensures Enumerates(order, Targets(old(peerKeeper.GetActive()), origAddr))
      ensures rs == Recipients(order)
      ensures sender.sent == old(sender.sent) + Copies(old(p.GetData()), PeerIdField(p.cls).value, rs)
    {
      order, rs := DistributeByPeers(p, origAddr, None);
    }

    /**
     * What dispatch_data_packet does to the calls: the current call of the frame's
     * stream, or a new one opened from the frame, counts the frame and ends on a
     * terminator; no other call changes.
     */
    twostate predicate CallDispatched(new call: Calls.Call, d: seq<byte>, now: int)
      requires Parrot.IsFrame(d)
      reads this, callKeeper, callKeeper.calls, peerKeeper, peerKeeper.peers
    {
      && call in callKeeper.calls && call.callId == Parrot.StreamOf(d)
      && callKeeper.calls == old(callKeeper.calls) + {call}
      && callKeeper.callsLog == old(callKeeper.callsLog) + {call}
      && (call in old(callKeeper.calls) <==> exists c :: c in old(callKeeper.calls) && c.callId == Parrot.StreamOf(d))
      && (call in old(callKeeper.calls) ==> call.State() == Advanced(old(call.State()), IsVoiceTerm(d[15]), now))
      && (call !in old(callKeeper.calls) ==>
            && call.srcId == Parrot.SrcOf(d) && call.dstId == Parrot.DstOf(d) && call.peerId == PeerOf(d)
            && call.callType == Parrot.CallTypeOf(d) && call.startTime == now
            && call.State() == Advanced(Opened(d, now, peerKeeper.GetByUnit(Parrot.DstOf(d))), IsVoiceTerm(d[15]), now))
      && (forall c :: c in old(callKeeper.calls) && c != call ==> c.State() == old(c.State()))
    }

    /** Lines 51-67 of dispatch_data_packet: the frame's call is found or opened, counts the frame and ends on a terminator. */
    method AdvanceCall(d: seq<byte>, now: int) returns (call: Calls.Call)
      requires Valid() && Parrot.IsFrame(d)
      modifies callKeeper, callKeeper.calls
      ensures Valid() && CallDispatched(call, d, now)
      ensures call !in old(callKeeper.calls) ==> fresh(call)
    {
      call := FindOrCreateCall(d, now);
      ghost var s0 := call.State();
      call.PacketReceived(now);
      if IsVoiceTerm(d[15]) {
        call.End(false, now);
      }
      assert call.State() == Advanced(s0, IsVoiceTerm(d[15]), now);
    }

    /**
     * Lines 69-72 of dispatch_data_packet: the apps record the frame, and unless
     * one of them raised, the frame is fanned out along the call's route.
     */
    method Deliver(call: Calls.Call, p: Packet, origAddr: Peers.Addr)
      returns (r: Outcome, ghost n: nat, ghost order: seq<Peers.Peer>, ghost rs: seq<Recipient>)
      requires p.IsData() && forall i, j :: 0 <= i < j < |apps| ==> apps[i] != apps[j]
      modifies apps, sender
      ensures (AppStates(), n, r) == RecordAll(AppCfgs(), old(AppStates()), Calls.IsEnded(call.State()), p.GetData())
      ensures unchanged(this, callKeeper, callKeeper.calls, callKeeper.callsLog, peerKeeper, peerKeeper.peers)
      ensures r.Fail? ==> sender.sent == old(sender.sent)
      ensures r.Pass? ==> (Enumerates(order, Targets(Pool(call.routeTo, old(peerKeeper.GetActive())), origAddr)) &&
        rs == Recipients(order) && sender.sent == old(sender.sent) + Copies(old(p.GetData()), DataPeerIdField, rs))
    {
      ghost var d, sent, active := p.GetData(), sender.sent, peerKeeper.GetActive();
      r, n := ProcessCallPacket(call, p);
      if r.Fail? {
        order, rs := [], [];
        return;
      }
      assert p.GetData() == d && sender.sent == sent && PeerIdField(p.cls).value == DataPeerIdField;
      assert peerKeeper.GetActive() == active;
      ghost var states := AppStates();
      order, rs := DistributeByPeers(p, origAddr, call.routeTo);
      assert AppStates() == states;
    }

    /**
     * dispatch_data_packet with the call advanced by the frame: the call of the
     * stream is found or opened, counts the frame and ends on a terminator; the
     * apps record the frame, and unless one of them raised the frame is fanned out
     * to the call's route, or to every ACTIVE peer, but not to its origin.
     */
    method DispatchDataPacket(p: Packet, origAddr: Peers.Addr, now: int)
      returns (r: Outcome, call: Calls.Call, ghost n: nat, ghost order: seq<Peers.Peer>, ghost rs: seq<Recipient>)
      requires Valid() && p.IsData()
      modifies callKeeper, callKeeper.calls, apps, sender
      ensures Valid() && p.GetData() == old(p.GetData())
      ensures CallDispatched(call, p.GetData(), now)
      ensures call !in old(callKeeper.calls) ==> fresh(call)
      ensures (AppStates(), n, r) == RecordAll(AppCfgs(), old(AppStates()), Calls.IsEnded(call.State()), p.GetData())
      ensures r.Fail? ==> sender.sent == old(sender.sent)
      ensures r.Pass? ==> (Enumerates(order, Targets(Pool(call.routeTo, old(peerKeeper.GetActive())), origAddr)) &&
        rs == Recipients(order) && sender.sent == old(sender.sent) + Copies(old(p.GetData()), DataPeerIdField, rs))
    {
      ghost var d, sent, active, states := p.GetData(), sender.sent, peerKeeper.GetActive(), AppStates();
      call := AdvanceCall(p.GetData(), now);
      assert p.GetData() == d && sender.sent == sent;
      assert peerKeeper.GetActive() == active && AppStates() == states;
      r, n, order, rs := Deliver(call, p, origAddr);
    }

    /**
     * dispatch_data_packet as the source writes it: line 64 calls
     * `call.packet_received(p)`, but packet_received takes no argument, so Python
     * raises TypeError there, after the call has been found or opened and before
     * the call is counted or ended, the apps see the frame or anything is sent.
     */
    method DispatchDataPacketAsWritten(p: Packet, origAddr: Peers.Addr, now: int)
      returns (r: Outcome, call: Calls.Call)
      requires Valid() && p.IsData()
      modifies callKeeper
      ensures Valid() && r == Fail(TypeError)
      ensures call in callKeeper.calls && call.callId == Parrot.StreamOf(p.GetData())
      ensures call in old(callKeeper.calls) ==> call.State() == old(call.State())
      ensures call !in old(callKeeper.calls) ==>
        fresh(call) && call.State() == Opened(p.GetData(), now, peerKeeper.GetByUnit(Parrot.DstOf(p.GetData())))
      ensures sender.sent == old(sender.sent)
    {
      call := FindOrCreateCall(p.GetData(), now);
      r := Fail(TypeError);
    }

    /** dispatch_data_packet as recv_dg calls it: Pass or the app's error, and the copies sent. */
    method RouteData(p: Packet, addr: Peers.Addr, now: int) returns (r: Outcome, ghost rs: seq<Recipient>)
      requires Valid() && p.IsData()
      modifies callKeeper, callKeeper.calls, apps, sender
      ensures Valid() && p.GetData() == old(p.GetData())
      ensures r.Fail? ==> sender.sent == old(sender.sent)
      ensures r.Pass? ==> sender.sent == old(sender.sent) + Copies(p.GetData(), DataPeerIdField, rs)
      ensures r.Pass? ==> forall i :: 0 <= i < |rs| ==> rs[i].addr != addr
    {
      var call;
      ghost var n, order;
      r, call, n, order, rs := DispatchDataPacket(p, addr, now);
      if r.Pass? {
        RecipientsAvoidOrigin(order, Pool(call.routeTo, old(peerKeeper.GetActive())), addr);
      }
    }

    /** dispatch_ta_packet as recv_dg calls it: the copies sent. */
    method RouteAlias(p: Packet, addr: Peers.Addr) returns (ghost rs: seq<Recipient>)
      requires p.Valid() && p.cls == Builtin(TalkerAlias)
      modifies sender
      ensures Fits(PeerIdField(p.cls).value, |p.GetData()|)
      ensures sender.sent == old(sender.sent) + Copies(p.GetData(), PeerIdField(p.cls).value, rs)
      ensures forall i :: 0 <= i < |rs| ==> rs[i].addr != addr
    {
      ghost var order;
      order, rs := DispatchTaPacket(p, addr);
      RecipientsAvoidOrigin(order, old(peerKeeper.GetActive()), addr);
    }

    /**
     * The tail of recv_dg, once the controller let the packet through: DMRD goes to
     * dispatch_data_packet and DMRA to dispatch_ta_packet, from the datagram's address;
     * any other packet stops here.
     */
    method Route(p: Packet, addr: Peers.Addr, now: int) returns (r: Handling, ghost rs: seq<Recipient>)
      requires Valid() && p.Valid() && p.cls.Builtin?
      modifies callKeeper, callKeeper.calls, apps, sender
      ensures Valid() && p.GetData() == old(p.GetData())
      ensures r.DataRouted? <==> p.cls == Builtin(Data)
      ensures r.AliasRouted? <==> p.cls == Builtin(TalkerAlias)
      ensures r.Ignored? <==> p.cls != Builtin(Data) && p.cls != Builtin(TalkerAlias)
      ensures r.Ignored? || (r.DataRouted? && r.outcome.Fail?) ==> sender.sent == old(sender.sent)
      ensures r.AliasRouted? || r == DataRouted(Pass) ==>
        && Fits(PeerIdField(p.cls).value, |p.GetData()|)
        && sender.sent == old(sender.sent) + Copies(p.GetData(), PeerIdField(p.cls).value, rs)
        && forall i :: 0 <= i < |rs| ==> rs[i].addr != addr
    {
      rs := [];
      if p.cls == Builtin(Data) {
        var outcome;
        outcome, rs := RouteData(p, addr, now);
        r := DataRouted(outcome);
      } else if p.cls == Builtin(TalkerAlias) {
        rs := RouteAlias(p, addr);
        r := AliasRouted;
      } else {
        r := Ignored;
      }
    }

    /**
     * The rest of recv_dg for a parsed packet: the peer's controller handles it
     * exactly as `Step` says, and a packet it lets through is routed.
     */
    method Handle(p: Packet, peer: Peers.Peer, env: PeerControl.Env, ghost c: PacketClass, ghost d: seq<byte>,
                  ghost addr: Peers.Addr, ghost before: Peers.PeerState, ghost sent0: seq<Datagram>)
      returns (r: Handling, ghost step: PeerControl.StepResult, ghost rs: seq<Recipient>)
      requires Valid() && p.Valid() && p.cls == c && c.Builtin? && p.GetData() == d && |env.salt| == 4
      requires peer in peerKeeper.peers && peer.addr == addr && addr.Addr? && peer.State() == before
      requires env.idsInUse == peerKeeper.IdsInUse() && env.auth == peerAuth && sender.sent == sent0
      modifies peer, callKeeper, callKeeper.calls, apps, sender
      ensures Valid()
      ensures step == PeerControl.Step(before, c, d, env)
      ensures peer.State() == step.state && Handled(r, c, d, step, addr, sent0, sender.sent, rs)
    {
      step := PeerControl.Step(before, c, d, env);
      rs := [];
      var controller := new PeerControl.PeerController(peer, peerKeeper, peerAuth, sender);
      var cont := controller.ProcessPacket(p, env.sha, env.salt, env.now);
      if !cont {
        r := Stopped;
        return;
      }
      ghost var state := peer.State();
      r, rs := Route(p, peer.addr, env.now);
      assert peer.State() == state;
    }

    /**
     * recv_dg after the peer entry for the datagram's address exists: data the
     * packet factory refuses is dropped; otherwise the peer's controller handles the
     * packet exactly as `Step` says, and the packet goes on as `Handled` says.
     */
    method Receive(data: seq<byte>, peer: Peers.Peer, env: PeerControl.Env, ghost addr: Peers.Addr,
                   ghost before: Peers.PeerState, ghost sent0: seq<Datagram>)
      returns (r: Handling, ghost step: PeerControl.StepResult, ghost rs: seq<Recipient>)
      requires Valid() && peer in peerKeeper.peers && peer.addr == addr && addr.Addr? && peer.State() == before
      requires |env.salt| == 4 && env.idsInUse == peerKeeper.IdsInUse() && env.auth == peerAuth
      requires sender.sent == sent0
      modifies peer, callKeeper, callKeeper.calls, apps, sender
      ensures Valid()
      ensures r.Unparsed? <==> Classify(data).Err?
      ensures r.Unparsed? ==> sender.sent == sent0 && peer.State() == before
      ensures !r.Unparsed? ==>
        var c := Classify(data).value;
        && c.Builtin? && |data| == PktSize(c)
        && step == PeerControl.Step(before, c, data, env)
        && peer.State() == step.state
        && Handled(r, c, data, step, addr, sent0, sender.sent, rs)
    {
      rs := [];
      var parsed := FromDatagram(data);
      if parsed.Err? {
        r, step := Unparsed, PeerControl.StepResult(before, false, []);
        return;
      }
      r, step, rs := Handle(parsed.value, peer, env, Classify(data).value, data, addr, before, sent0);
    }

    /**
     * recv_dg: the datagram's address gets a peer entry, new or existing, before
     * anything else, even for data that is then dropped; the rest is `Receive`, from
     * the peer's state on arrival and with the ids held once the entry exists (a
     * new entry holds id 0).
     */
    method RecvDg(data: seq<byte>, addr: Peers.Addr, sha: seq<byte> -> seq<byte>, salt: seq<byte>, now: int)
      returns (r: Handling, peer: Peers.Peer, ghost before: Peers.PeerState, ghost env: PeerControl.Env,
               ghost step: PeerControl.StepResult, ghost rs: seq<Recipient>)
      requires Valid() && addr.Addr? && |salt| == 4
      modifies peerKeeper, peerKeeper.peers, callKeeper, callKeeper.calls, apps, sender
      ensures Valid() && peer in peerKeeper.peers && peer.addr == addr
      ensures peer in old(peerKeeper.peers) ==> before == old(peer.State())
      ensures peer !in old(peerKeeper.peers) ==> fresh(peer) && before == Peers.NewPeerState(now)
      ensures env == PeerControl.Env(old(peerKeeper.IdsInUse()) + (if peer in old(peerKeeper.peers) then {} else {0}),
                                     peerAuth, sha, salt, now)
      ensures r.Unparsed? <==> Classify(data).Err?
      ensures r.Unparsed? ==> sender.sent == old(sender.sent) && peer.State() == before
      ensures !r.Unparsed? ==>
        var c := Classify(data).value;
        && c.Builtin? && |data| == PktSize(c)
        && step == PeerControl.Step(before, c, data, env)
        && peer.State() == step.state
        && Handled(r, c, data, step, addr, old(sender.sent), sender.sent, rs)
    {
      peer := peerKeeper.GetByAddr(addr, now);
      before := peer.State();
      var e := PeerControl.Env(peerKeeper.IdsInUse(), peerAuth, sha, salt, now);
      env := e;
      r, step, rs := Receive(data, peer, e, addr, before, old(sender.sent));
    }

    /** inject_packet: an app's frame is dispatched like a received one, from no address. */
    method InjectPacket(p: Packet, now: int)
      returns (r: Outcome, call: Calls.Call, ghost order: seq<Peers.Peer>, ghost rs: seq<Recipient>)
      requires Valid() && p.IsData()
      modifies callKeeper, callKeeper.calls, apps, sender
      ensures Valid() && call in callKeeper.calls && call.callId == Parrot.StreamOf(p.GetData())
      ensures r.Fail? ==> sender.sent == old(sender.sent)
      ensures r.Pass? ==> (Enumerates(order, Targets(Pool(call.routeTo, old(peerKeeper.GetActive())), Peers.NoAddr)) &&
        rs == Recipients(order) && sender.sent == old(sender.sent) + Copies(old(p.GetData()), DataPeerIdField, rs))
      ensures r.Pass? && call.routeTo.None? ==> forall q :: q in old(peerKeeper.GetActive()) <==> q in order
    {
      ghost var n;
      r, call, n, order, rs := DispatchDataPacket(p, Peers.NoAddr, now);
    }
  }
}
