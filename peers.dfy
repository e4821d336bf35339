/**
 * Peers (dmrtools/peer.py): the session status of a connected repeater, its
 * activity time, the radio units heard through it, and the registry of peers
 * keyed by UDP address. Time is the integer parameter `now`.
 */
module Peers {
  import opened Wrappers
  import opened Fields
  import opened Text
  import MmdvmL1

  type uint32 = MmdvmL1.uint32

  /** Peer.Status, an IntEnum counting from 1. */
  datatype Status = Login | Auth | Config | Active | Dead

  function Ord(s: Status): nat {
    match s
    case Login => 1
    case Auth => 2
    case Config => 3
    case Active => 4
    case Dead => 5
  }

  /**
   * is_applicable: LOGIN and DEAD accept only themselves; AUTH, CONFIG and ACTIVE
   * accept every test status from LOGIN up to themselves.
   */
  predicate IsApplicable(cur: Status, test: Status)
    ensures cur in {Login, Dead} ==> (IsApplicable(cur, test) <==> test == cur)
    ensures cur !in {Login, Dead} ==> (IsApplicable(cur, test) <==> test != Dead && Ord(test) <= Ord(cur))
  {
    match cur
    case Auth => test in {Login, Auth}
    case Config => test in {Login, Auth, Config}
    case Active => test in {Login, Auth, Config, Active}
    case _ => cur == test
  }

  /** Every status but DEAD may log in again; DEAD accepts nothing but DEAD. */
  lemma LoginApplicableUnlessDead(cur: Status)
    ensures IsApplicable(cur, Login) <==> cur != Dead
    ensures cur == Dead ==> forall t :: IsApplicable(cur, t) ==> t == Dead
  {
  }

  /** Applicability is a preorder: reflexive and transitive. */
  lemma ApplicablePreorder(a: Status, b: Status, c: Status)
    ensures IsApplicable(a, a)
    ensures IsApplicable(a, b) && IsApplicable(b, c) ==> IsApplicable(a, c)
  {
  }

  const PingTimeout := 130
  const UnitTimeout := 3600

  /** A radio unit heard through a peer, with the time it was last heard (Unit). */
  datatype Unit = Unit(unitId: int, activeTime: int)

  /** Unit.check_timeout */
  predicate UnitLive(u: Unit, now: int) {
    now - u.activeTime < UnitTimeout
  }

  /** The units that have not timed out. */
  function LiveUnits(units: map<int, Unit>, now: int): (r: map<int, Unit>)
    ensures forall id :: id in r <==> id in units && UnitLive(units[id], now)
    ensures forall id :: id in r ==> r[id] == units[id]
  {
    map id | id in units && UnitLive(units[id], now) :: units[id]
  }

  /** A UDP address, or the (None, None) origin of injected packets. */
  datatype Addr = Addr(host: string, port: nat) | NoAddr

  /** addr_str: "host:port". */
  function AddrStr(a: Addr): string {
    match a
    case Addr(h, p) => h + ":" + Decimal(p)
    case NoAddr => "None:None"
  }

  /** The mutable state of a peer, apart from its address and connect time. */
  datatype PeerState = PeerState(
    authSalt: Option<seq<byte>>,
    status: Status,
    peerId: uint32,
    activeTime: int,
    config: map<string, string>,
    units: map<int, Unit>)

  /** The state of a peer created at `now`. */
  function NewPeerState(now: int): (s: PeerState)
    ensures s.status == Login && s.peerId == 0 && s.authSalt.None?
    ensures s.units == map[] && s.config == map[] && s.activeTime == now
  {
    PeerState(None, Login, 0, now, map[], map[])
  }

  /** die: DEAD, with the peer id given up. */
  function Died(s: PeerState): (r: PeerState)
    ensures r.status == Dead && r.peerId == 0
    ensures r.(status := s.status, peerId := s.peerId) == s
  {
    s.(status := Dead, peerId := 0)
  }

  /** update_unit: adds the unit if absent and refreshes it; no other unit changes. */
  function UnitUpdated(s: PeerState, unitId: int, now: int): (r: PeerState)
    ensures unitId in r.units && r.units[unitId] == Unit(unitId, now)
    ensures forall id :: id != unitId ==> (id in r.units <==> id in s.units)
    ensures forall id :: id != unitId && id in s.units ==> r.units[id] == s.units[id]
    ensures r.(units := s.units) == s
  {
    s.(units := s.units[unitId := Unit(unitId, now)])
  }

  /** What one pass of PeerKeeper.maintain does to one peer. */
  function Maintained(s: PeerState, now: int): (r: PeerState)
    ensures r.units == LiveUnits(s.units, now)
    ensures now - s.activeTime < PingTimeout ==> r == s.(units := r.units)
    ensures now - s.activeTime >= PingTimeout ==> r == Died(s).(units := r.units)
  {
    var s' := s.(units := LiveUnits(s.units, now));
    if now - s.activeTime < PingTimeout then s' else Died(s')
  }

  class Peer {
    const addr: Addr
    const connectTime: int
    var authSalt: Option<seq<byte>>
    var status: Status
    var peerId: uint32
    var activeTime: int
    var config: map<string, string>
    var units: map<int, Unit>

    function State(): PeerState
      reads this
    {
      PeerState(authSalt, status, peerId, activeTime, config, units)
    }

    /** A new peer is at LOGIN with id 0, no salt, no config and no units. */
    constructor (addr: Addr, now: int)
      ensures this.addr == addr && connectTime == now
      ensures State() == NewPeerState(now)
    {
      this.addr := addr;
      connectTime := now;
      authSalt := None;
      status := Login;
      peerId := 0;
      activeTime := now;
      config := map[];
      units := map[];
    }

    /** check_timeout: heard from within the last 130 seconds. */
    predicate Live(now: int)
      reads this
    {
      now - activeTime < PingTimeout
    }

    /** name: the peer id once bound, the address before that. */
    function Name(): (r: string)
      reads this
      ensures peerId != 0 ==> ValueOf(r, 10) == peerId
      ensures peerId == 0 ==> r == AddrStr(addr)
    {
      if peerId != 0 then Decimal(peerId) else AddrStr(addr)
    }

    method SetState(s: PeerState)
      modifies this
      ensures State() == s
    {
      authSalt, status, peerId, activeTime, config, units :=
        s.authSalt, s.status, s.peerId, s.activeTime, s.config, s.units;
    }

    /** update_active */
    method UpdateActive(now: int)
      modifies this
      ensures State() == old(State()).(activeTime := now)
    {
      activeTime := now;
    }

    /** update_unit */
    method UpdateUnit(unitId: int, now: int)
      modifies this
      ensures State() == UnitUpdated(old(State()), unitId, now)
    {
      units := units[unitId := Unit(unitId, now)];
    }

    /** die */
    method Die()
      modifies this
      ensures State() == Died(old(State()))
    {
      status := Dead;
      peerId := 0;
    }
  }

  class PeerKeeper {
    var peers: set<Peer>

    /** Addresses are unique in the set, and every peer has a real address. */
    predicate Valid()
      reads this, peers
    {
      && (forall p, q :: p in peers && q in peers && p.addr == q.addr ==> p == q)
      && (forall p :: p in peers ==> p.addr.Addr?)
    }

    constructor ()
      ensures peers == {} && Valid()
    {
      peers := {};
    }

    /**
     * maintain: every peer loses its timed-out units and dies if it timed out
     * itself; then exactly the peers that are not DEAD remain.
     */
    method Maintain(now: int)
      requires Valid()
      modifies this, peers
      ensures Valid()
      ensures forall p :: p in old(peers) ==> p.State() == Maintained(old(p.State()), now)
      ensures peers == set p | p in old(peers) && p.status != Dead
      ensures forall p :: p in peers ==> p.status != Dead && p.Live(now)
    {
      var todo := peers;
      while todo != {}
        invariant peers == old(peers) && todo <= peers
        invariant forall p :: p in peers && p !in todo ==> p.State() == Maintained(old(p.State()), now)
        invariant forall p :: p in todo ==> p.State() == old(p.State())
        decreases |todo|
      {
        var p :| p in todo;
        p.units := LiveUnits(p.units, now);
        if !p.Live(now) {
          p.Die();
        }
        todo := todo - {p};
      }
      peers := set p | p in peers && p.status != Dead;
    }

    /**
     * get_by_addr: the peer registered at `addr`, or a new LOGIN peer added for it;
     * addresses stay unique.
     */
    method GetByAddr(addr: Addr, now: int) returns (p: Peer)
      requires Valid() && addr.Addr?
      modifies this
      ensures Valid()
      ensures p in peers && p.addr == addr
      ensures (exists q :: q in old(peers) && q.addr == addr) ==> p in old(peers) && peers == old(peers)
      ensures (forall q :: q in old(peers) ==> q.addr != addr) ==>
        fresh(p) && peers == old(peers) + {p} && p.State() == NewPeerState(now)
      ensures IdsInUse() == old(IdsInUse()) + (if p in old(peers) then {} else {0})
    {
      if q :| q in peers && q.addr == addr {
        p := q;
      } else {
        p := new Peer(addr, now);
        peers := peers + {p};
      }
    }

    /** The peer ids the registered peers hold. */
    function IdsInUse(): set<int>
      reads this, peers
    {
      set q | q in peers :: q.peerId as int
    }

    /** get_by_id */
    function GetById(id: int): (r: set<Peer>)
      reads this, peers
      ensures r <= peers && forall p :: p in peers ==> (p in r <==> p.peerId == id)
    {
      set p | p in peers && p.peerId == id
    }

    /** get_by_unit */
    function GetByUnit(unitId: int): (r: set<Peer>)
      reads this, peers
      ensures r <= peers && forall p :: p in peers ==> (p in r <==> unitId in p.units)
    {
      set p | p in peers && unitId in p.units
    }

    /** get_active */
    function GetActive(): (r: set<Peer>)
      reads this, peers
      ensures r <= peers && forall p :: p in peers ==> (p in r <==> p.status == Active)
    {
      set p | p in peers && p.status == Active
    }
  }
}
