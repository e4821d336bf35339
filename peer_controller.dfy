/**
 * The per-peer session state machine (dmrtools/peer_controller.py): a repeater
 * logs in (RPTL), answers the salt with a password hash (RPTK), sends its
 * configuration (RPTC) and is then ACTIVE, exchanging pings and DMRD frames. A
 * packet out of order kills the session and answers with MSTCL.
 *
 * `Step` is the whole transition on values; `PeerController.ProcessPacket` does
 * it in place on a `Peer` and an outbox and is proved to agree with it.
 */
module PeerControl {
  import opened Wrappers
  import opened Fields
  import opened MmdvmL1
  import opened Auth
  import Peers
  import opened Outbox

  /**
   * What process_packet consults besides the peer: the ids the peer keeper
   * already holds, the admission policy, SHA-256, the random salt a login is
   * answered with, and the clock.
   */
  datatype Env = Env(idsInUse: set<int>, auth: PeerAuth, sha: seq<byte> -> seq<byte>,
                     salt: seq<byte>, now: int)

  /** The new peer state, process_packet's return value, and the payloads sent back to the peer. */
  datatype StepResult = StepResult(state: Peers.PeerState, cont: bool, sent: seq<seq<byte>>)

  /** Classes with a peer_id field. */
  predicate HasPeerId(c: PacketClass) {
    c.Builtin? && c.kind != Salt
  }

  /** The peer_id field of a packet of a codec class. */
  function PeerIdOf(c: PacketClass, d: seq<byte>): (r: uint32)
    requires HasPeerId(c) && |d| == PktSize(c)
    ensures r == GetInt(d, PeerIdField(c).value)
  {
    FieldsInsidePacket(c, PeerIdField(c).value);
    FourBytesIsUint32();
    GetInt(d, PeerIdField(c).value)
  }

  // ---------------------------------------------------------------------------
  // What the master sends

  /** MSTCL, RPTACK or MSTPONG carrying `id` (send_close, send_ack_ok, send_pong). */
  function IdPacket(k: Kind, id: uint32): (r: seq<byte>)
    requires k in {MasterClose, Ack, Pong}
    ensures |r| == PktSize(Builtin(k)) && PeerIdOf(Builtin(k), r) == id
    ensures SameOutside(CreateData(Builtin(k)), r, PeerIdField(Builtin(k)).value)
  {
    var c := Builtin(k);
    FieldsInsidePacket(c, PeerIdField(c).value);
    FourBytesIsUint32();
    SetInt(CreateData(c), PeerIdField(c).value, id).value
  }

  /** The salt packet of send_salt: RPTACK followed by the four salt bytes. */
  function SaltPacket(salt: seq<byte>): (r: seq<byte>)
    requires |salt| == 4
    ensures |r| == PktSize(Builtin(Salt)) && Get(r, SaltField) == salt
  {
    Splice(CreateData(Builtin(Salt)), SaltField, salt)
  }

  /** The packet send_close sends: the packet's peer id, or the peer's own if that is 0. */
  function ClosePacket(packetId: uint32, peerId: uint32): seq<byte> {
    IdPacket(MasterClose, if packetId != 0 then packetId else peerId)
  }

  /** Names no two of `fields` share. */
  predicate DistinctNames(fields: seq<Field>) {
    forall i, j :: 0 <= i < j < |fields| ==> fields[i].name != fields[j].name
  }

  /** The strings of the string fields `fields` of `d`, each under its field's name. */
  function ConfigFrom(fields: seq<Field>, d: seq<byte>): (m: map<string, string>)
    requires forall i :: 0 <= i < |fields| ==> fields[i].kind.StrField? && Fits(fields[i], |d|)
    requires DistinctNames(fields)
    ensures m.Keys == set i | 0 <= i < |fields| :: fields[i].name
    ensures forall i :: 0 <= i < |fields| ==> m[fields[i].name] == GetStr(d, fields[i])
  {
    map i | 0 <= i < |fields| :: fields[i].name := GetStr(d, fields[i])
  }

  /** The fourteen RPTC fields are string fields inside an RPTC packet. */
  lemma ConfigFieldsFit()
    ensures forall i :: 0 <= i < |ConfigFields| ==>
      ConfigFields[i].kind.StrField? && Fits(ConfigFields[i], PktSize(Builtin(Config)))
  {
  }

  /** The fourteen RPTC field names differ. */
  lemma ConfigNamesDistinct()
    ensures DistinctNames(ConfigFields)
  {
    forall i, j | 0 <= i < j < |ConfigFields|
      ensures ConfigFields[i].name != ConfigFields[j].name
    {
      var a, b := ConfigFields[i].name, ConfigFields[j].name;
      assert (|a|, a[0], a[|a| - 1]) != (|b|, b[0], b[|b| - 1]);
    }
  }

  /**
   * The configuration dict an RPTC is stored as: the fourteen strings (callsign,
   * rx_freq, ..., package_id), each under its field's name.
   */
  function ConfigOf(d: seq<byte>): map<string, string>
    requires |d| == PktSize(Builtin(Config))
  {
    ConfigNamesDistinct();
    ConfigFieldsFit();
    ConfigFrom(ConfigFields, d)
  }

  // ---------------------------------------------------------------------------
  // The transition

  /** Every refusal: the peer dies and is sent MSTCL. */
  function Reject(s: Peers.PeerState, packetId: uint32): StepResult {
    var dead := Peers.Died(s);
    StepResult(dead, false, [ClosePacket(packetId, dead.peerId)])
  }

  /** The DMRD branch: only an ACTIVE peer's frames go on. */
  function StepData(s: Peers.PeerState, d: seq<byte>, env: Env): StepResult
    requires |d| == PktSize(Builtin(Data))
  {
    if !Peers.IsApplicable(s.status, Peers.Active) then Reject(s, PeerIdOf(Builtin(Data), d))
    else StepResult(Peers.UnitUpdated(s.(activeTime := env.now), GetInt(d, SrcIdField), env.now), true, [])
  }

  /** The RPTPING branch. */
  function StepPing(s: Peers.PeerState, d: seq<byte>, env: Env): StepResult
    requires |d| == PktSize(Builtin(Ping))
  {
    if !Peers.IsApplicable(s.status, Peers.Active) then Reject(s, PeerIdOf(Builtin(Ping), d))
    else StepResult(s.(activeTime := env.now), false, [IdPacket(Pong, s.peerId)])
  }

  /** The RPTL branch. */
  function StepLogin(s: Peers.PeerState, d: seq<byte>, env: Env): StepResult
    requires |d| == PktSize(Builtin(Login)) && |env.salt| == 4
  {
    var id := PeerIdOf(Builtin(Login), d);
    if !Peers.IsApplicable(s.status, Peers.Login) then Reject(s, id)
    else if id in env.idsInUse then Reject(s, id)
    else if !AllowPeerId(env.auth, id) then Reject(s, id)
    else StepResult(s.(status := Peers.Auth, authSalt := Some(env.salt)), false, [SaltPacket(env.salt)])
  }

  /** The RPTK branch. */
  function StepAuth(s: Peers.PeerState, d: seq<byte>, env: Env): StepResult
    requires |d| == PktSize(Builtin(Auth))
  {
    var id := PeerIdOf(Builtin(Auth), d);
    if !Peers.IsApplicable(s.status, Peers.Auth) then Reject(s, id)
    else if s.authSalt.None? || !CheckPassword(env.auth, id, s.authSalt.value, Get(d, PassHashField), env.sha) then
      Reject(s, id)
    else StepResult(s.(peerId := id, status := Peers.Config), false, [IdPacket(Ack, id)])
  }

  /** The RPTC branch. */
  function StepConfig(s: Peers.PeerState, d: seq<byte>, env: Env): StepResult
    requires |d| == PktSize(Builtin(Config))
  {
    if !Peers.IsApplicable(s.status, Peers.Config) then Reject(s, PeerIdOf(Builtin(Config), d))
    else StepResult(s.(status := Peers.Active, config := ConfigOf(d)), false, [IdPacket(Ack, s.peerId)])
  }

  /** process_packet, for a packet of class `c` with bytes `d`, sent by a peer in state `s`. */
  function Step(s: Peers.PeerState, c: PacketClass, d: seq<byte>, env: Env): StepResult
    requires c.Builtin? && |d| == PktSize(c) && |env.salt| == 4
  {
    if c == Builtin(RepeaterClose) then StepResult(Peers.Died(s), false, [])
    else if c == Builtin(Data) then StepData(s, d, env)
    else if c == Builtin(Ping) then StepPing(s, d, env)
    else if c == Builtin(Login) then StepLogin(s, d, env)
    else if c == Builtin(Auth) then StepAuth(s, d, env)
    else if c == Builtin(Config) then StepConfig(s, d, env)
    else StepResult(s, true, [])
  }

  // ---------------------------------------------------------------------------
  // What the sent packets are

  /** Writing a field after the type tag keeps the tag. */
  lemma TagKept(e: seq<byte>, r: seq<byte>, f: Field, t: seq<byte>)
    requires StartsWith(e, t) && SameOutside(e, r, f) && |t| <= f.offset
    ensures StartsWith(r, t)
  {
    forall i | 0 <= i < |t|
      ensures r[i] == t[i]
    {
      assert e[..|t|][i] == e[i];
    }
    assert r[..|t|] == t;
  }

  /** MSTCL, RPTACK and MSTPONG built for an id parse, on the peer's side, as that class and id. */
  lemma IdPacketParses(k: Kind, id: uint32)
    requires k in {MasterClose, Ack, Pong}
    ensures Classify(IdPacket(k, id)) == Ok(Builtin(k))
  {
    var c, r := Builtin(k), IdPacket(k, id);
    var t := PktType(c);
    assert PeerIdField(c).value.offset == |t| && |t| >= 5;
    TagKept(CreateData(c), r, PeerIdField(c).value, t);
    assert Detect(c, r);
    ClassifyDetected(k, r);
  }

  lemma SaltPacketDetected(salt: seq<byte>)
    requires |salt| == 4
    ensures Detect(Builtin(Salt), SaltPacket(salt))
  {
    var c, r := Builtin(Salt), SaltPacket(salt);
    var t, e := PktType(c), CreateData(c);
    assert |t| == 6 && |r| == 10;
    forall i | 0 <= i < 6
      ensures r[i] == t[i]
    {
      assert r[i] == e[i];
    }
    assert r[..6] == t;
  }

  /**
   * The salt packet is RPTACK with the salt where an ack carries the peer id, so the
   * repeater's own factory reads it as an ack.
   */
  lemma SaltPacketParsesAsAck(salt: seq<byte>)
    requires |salt| == 4
    ensures Classify(SaltPacket(salt)) == Ok(Builtin(Ack))
  {
    SaltPacketDetected(salt);
    ClassifyDetected(Salt, SaltPacket(salt));
  }

  /** An ack's peer_id occupies the salt packet's salt bytes. */
  lemma AckPeerIdIsSalt(d: seq<byte>)
    requires |d| == 10
    ensures PeerIdField(Builtin(Ack)) == Some(Field("peer_id", 6, 4, IntField))
    ensures Get(d, PeerIdField(Builtin(Ack)).value) == Get(d, SaltField)
  {
  }

  /** Read as an ack, a 10-byte RPTACK datagram's peer_id is the number its salt bytes spell. */
  lemma AckPeerIdOfSaltBytes(d: seq<byte>)
    requires |d| == 10
    ensures PeerIdOf(Builtin(Ack), d) == FromBigEndian(Get(d, SaltField))
  {
    AckPeerIdIsSalt(d);
  }

  // ---------------------------------------------------------------------------
  // Properties of one transition

  /** RPTCL: the peer dies silently and the packet goes no further. */
  lemma RepeaterCloseOutcome(s: Peers.PeerState, d: seq<byte>, env: Env)
    requires |d| == PktSize(Builtin(RepeaterClose)) && |env.salt| == 4
    ensures Step(s, Builtin(RepeaterClose), d, env) == StepResult(Peers.Died(s), false, [])
  {
  }

  /** The classes process_packet acts on and may refuse. */
  predicate Guarded(c: PacketClass) {
    c in {Builtin(Data), Builtin(Ping), Builtin(Login), Builtin(Auth), Builtin(Config)}
  }

  /**
   * Every refusal leaves the peer DEAD with id 0, stops the packet, and sends one
   * MSTCL that carries the refused packet's own peer_id (the peer's id is already 0).
   */
  lemma RefusalOutcome(s: Peers.PeerState, c: PacketClass, d: seq<byte>, env: Env)
    requires Guarded(c) && |d| == PktSize(c) && |env.salt| == 4
    requires Step(s, c, d, env).state.status == Peers.Dead
    ensures Step(s, c, d, env) == StepResult(Peers.Died(s), false, [IdPacket(MasterClose, PeerIdOf(c, d))])
  {
    var id := PeerIdOf(c, d);
    assert ClosePacket(id, 0) == IdPacket(MasterClose, id);
    if c == Builtin(Data) {
      assert Step(s, c, d, env) == StepData(s, d, env) == Reject(s, id);
    } else if c == Builtin(Ping) {
      assert Step(s, c, d, env) == StepPing(s, d, env) == Reject(s, id);
    } else if c == Builtin(Login) {
      assert Step(s, c, d, env) == StepLogin(s, d, env) == Reject(s, id);
    } else if c == Builtin(Auth) {
      assert Step(s, c, d, env) == StepAuth(s, d, env) == Reject(s, id);
    } else {
      assert Step(s, c, d, env) == StepConfig(s, d, env) == Reject(s, id);
    }
  }

  /** A DEAD peer stays DEAD, and a peer without a live session holds no id. */
  lemma DeadIsFinal(s: Peers.PeerState, c: PacketClass, d: seq<byte>, env: Env)
    requires c.Builtin? && |d| == PktSize(c) && |env.salt| == 4
    ensures s.status == Peers.Dead ==> Step(s, c, d, env).state.status == Peers.Dead
    ensures (s.status == Peers.Dead ==> s.peerId == 0) ==>
      var r := Step(s, c, d, env).state; r.status == Peers.Dead ==> r.peerId == 0
  {
    if c == Builtin(Data) {
      assert Step(s, c, d, env) == StepData(s, d, env);
    } else if c == Builtin(Ping) {
      assert Step(s, c, d, env) == StepPing(s, d, env);
    } else if c == Builtin(Login) {
      assert Step(s, c, d, env) == StepLogin(s, d, env);
    } else if c == Builtin(Auth) {
      assert Step(s, c, d, env) == StepAuth(s, d, env);
    } else if c == Builtin(Config) {
      assert Step(s, c, d, env) == StepConfig(s, d, env);
    }
  }

  /** DMRD: only an ACTIVE peer's frames go on, refreshing its activity and the sending unit. */
  lemma DataOutcome(s: Peers.PeerState, d: seq<byte>, env: Env)
    requires |d| == PktSize(Builtin(Data)) && |env.salt| == 4
    ensures var r := StepData(s, d, env);
      && (r.cont <==> s.status == Peers.Active)
      && (s.status == Peers.Active ==> r.sent == [])
      && (s.status == Peers.Active ==>
            r.state == Peers.UnitUpdated(s.(activeTime := env.now), GetInt(d, SrcIdField), env.now))
      && (s.status != Peers.Active ==> r == Reject(s, PeerIdOf(Builtin(Data), d)))
  {
  }

  /** RPTPING: an ACTIVE peer gets exactly one MSTPONG with its own id; any other peer is closed. */
  lemma PingOutcome(s: Peers.PeerState, d: seq<byte>, env: Env)
    requires |d| == PktSize(Builtin(Ping)) && |env.salt| == 4
    ensures var r := StepPing(s, d, env);
      && !r.cont
      && (s.status == Peers.Active ==> r.sent == [IdPacket(Pong, s.peerId)] && r.state == s.(activeTime := env.now))
      && (s.status != Peers.Active ==> r == Reject(s, PeerIdOf(Builtin(Ping), d)))
  {
  }

  /**
   * RPTL is accepted exactly when the peer is not DEAD, no registered peer holds the
   * id and the policy admits it; the peer then waits for RPTK with the salt it was sent.
   */
  lemma LoginOutcome(s: Peers.PeerState, d: seq<byte>, env: Env)
    requires |d| == PktSize(Builtin(Login)) && |env.salt| == 4
    ensures var r := StepLogin(s, d, env);
      var id := PeerIdOf(Builtin(Login), d);
      && !r.cont
      && (r.state.status == Peers.Auth <==>
            s.status != Peers.Dead && id !in env.idsInUse && AllowPeerId(env.auth, id))
      && (r.state.status == Peers.Auth ==>
            r.state == s.(status := Peers.Auth, authSalt := Some(env.salt)) && r.sent == [SaltPacket(env.salt)])
      && (r.state.status != Peers.Auth ==> r == Reject(s, id))
  {
  }

  /**
   * A login that claims an id the registry already holds is refused; since a
   * registered peer contributes its own id, this includes a new peer claiming id 0.
   */
  lemma LoginWithHeldIdRefused(s: Peers.PeerState, d: seq<byte>, env: Env)
    requires |d| == PktSize(Builtin(Login)) && |env.salt| == 4
    requires s.peerId in env.idsInUse && PeerIdOf(Builtin(Login), d) == s.peerId
    ensures Step(s, Builtin(Login), d, env).state == Peers.Died(s)
  {
  }

  /**
   * RPTK succeeds exactly when the peer is past login, holds a salt and the hash
   * checks out; the peer then takes the packet's id and moves to CONFIG.
   */
  lemma AuthOutcome(s: Peers.PeerState, d: seq<byte>, env: Env)
    requires |d| == PktSize(Builtin(Auth)) && |env.salt| == 4
    ensures var r := StepAuth(s, d, env);
      var id := PeerIdOf(Builtin(Auth), d);
      && !r.cont
      && (r.state.status == Peers.Config <==>
            && s.status in {Peers.Auth, Peers.Config, Peers.Active} && s.authSalt.Some?
            && CheckPassword(env.auth, id, s.authSalt.value, Get(d, PassHashField), env.sha))
      && (r.state.status == Peers.Config ==>
            r.state == s.(peerId := id, status := Peers.Config) && r.sent == [IdPacket(Ack, id)])
      && (r.state.status != Peers.Config ==> r == Reject(s, id))
  {
  }

  /** RPTC from a CONFIG or ACTIVE peer stores its configuration and activates it. */
  lemma ConfigOutcome(s: Peers.PeerState, d: seq<byte>, env: Env)
    requires |d| == PktSize(Builtin(Config)) && |env.salt| == 4
    ensures var r := StepConfig(s, d, env);
      && !r.cont
      && (r.state.status == Peers.Active <==> s.status in {Peers.Config, Peers.Active})
      && (r.state.status == Peers.Active ==>
            r.state == s.(status := Peers.Active, config := ConfigOf(d)) && r.sent == [IdPacket(Ack, s.peerId)])
      && (r.state.status != Peers.Active ==> r == Reject(s, PeerIdOf(Builtin(Config), d)))
  {
  }

  /** Every other class (DMRA, RPTACK, MSTPONG, ...) passes through with the peer untouched. */
  lemma OtherPassesThrough(s: Peers.PeerState, c: PacketClass, d: seq<byte>, env: Env)
    requires c.Builtin? && |d| == PktSize(c) && |env.salt| == 4
    requires !Guarded(c) && c != Builtin(RepeaterClose)
    ensures Step(s, c, d, env) == StepResult(s, true, [])
  {
  }

  /** At most one datagram, which the repeater parses as MSTCL, RPTACK or MSTPONG. */
  predicate ParsesAsReply(sent: seq<seq<byte>>) {
    && |sent| <= 1
    && forall k :: 0 <= k < |sent| ==>
         Classify(sent[k]) in {Ok(Builtin(MasterClose)), Ok(Builtin(Ack)), Ok(Builtin(Pong))}
  }

  /** A refusal's MSTCL parses as MSTCL. */
  lemma RejectParses(s: Peers.PeerState, id: uint32)
    ensures |Reject(s, id).sent| == 1 && Classify(Reject(s, id).sent[0]) == Ok(Builtin(MasterClose))
  {
    IdPacketParses(MasterClose, id);
  }

  // The replies of each branch, one lemma per branch.
  lemma DataReplies(s: Peers.PeerState, d: seq<byte>, env: Env)
    requires |d| == PktSize(Builtin(Data))
    ensures ParsesAsReply(StepData(s, d, env).sent)
  {
    RejectParses(s, PeerIdOf(Builtin(Data), d));
  }

  lemma PingReplies(s: Peers.PeerState, d: seq<byte>, env: Env)
    requires |d| == PktSize(Builtin(Ping))
    ensures ParsesAsReply(StepPing(s, d, env).sent)
  {
    if Peers.IsApplicable(s.status, Peers.Active) {
      IdPacketParses(Pong, s.peerId);
    } else {
      RejectParses(s, PeerIdOf(Builtin(Ping), d));
    }
  }

  lemma LoginReplies(s: Peers.PeerState, d: seq<byte>, env: Env)
    requires |d| == PktSize(Builtin(Login)) && |env.salt| == 4
    ensures ParsesAsReply(StepLogin(s, d, env).sent)
  {
    if StepLogin(s, d, env).state.status == Peers.Auth {
      SaltPacketParsesAsAck(env.salt);
    } else {
      RejectParses(s, PeerIdOf(Builtin(Login), d));
    }
  }

  lemma AuthReplies(s: Peers.PeerState, d: seq<byte>, env: Env)
    requires |d| == PktSize(Builtin(Auth))
    ensures ParsesAsReply(StepAuth(s, d, env).sent)
  {
    var id := PeerIdOf(Builtin(Auth), d);
    if StepAuth(s, d, env).state.status == Peers.Config {
      IdPacketParses(Ack, id);
    } else {
      RejectParses(s, id);
    }
  }

  lemma ConfigReplies(s: Peers.PeerState, d: seq<byte>, env: Env)
    requires |d| == PktSize(Builtin(Config))
    ensures ParsesAsReply(StepConfig(s, d, env).sent)
  {
    if Peers.IsApplicable(s.status, Peers.Config) {
      IdPacketParses(Ack, s.peerId);
    } else {
      RejectParses(s, PeerIdOf(Builtin(Config), d));
    }
  }

  /** At most one datagram answers a packet, and the repeater parses it as MSTCL, RPTACK or MSTPONG. */
  lemma RepliesParse(s: Peers.PeerState, c: PacketClass, d: seq<byte>, env: Env)
    requires c.Builtin? && |d| == PktSize(c) && |env.salt| == 4
    ensures ParsesAsReply(Step(s, c, d, env).sent)
  {
    if c == Builtin(Data) {
      DataReplies(s, d, env);
    } else if c == Builtin(Ping) {
      PingReplies(s, d, env);
    } else if c == Builtin(Login) {
      LoginReplies(s, d, env);
    } else if c == Builtin(Auth) {
      AuthReplies(s, d, env);
    } else if c == Builtin(Config) {
      ConfigReplies(s, d, env);
    }
  }

  // ---------------------------------------------------------------------------
  // Sessions

  /** One packet of a session, with what the controller consults while handling it. */
  datatype Input = Input(c: PacketClass, d: seq<byte>, env: Env)

  predicate Feasible(i: Input) {
    i.c.Builtin? && |i.d| == PktSize(i.c) && |i.env.salt| == 4
  }

  /** The peer state after a sequence of packets. */
  function Run(s: Peers.PeerState, ins: seq<Input>): Peers.PeerState
    requires forall k :: 0 <= k < |ins| ==> Feasible(ins[k])
    decreases |ins|
  {
    if ins == [] then s
    else
      var i := ins[0];
      assert Feasible(i);
      Run(Step(s, i.c, i.d, i.env).state, ins[1..])
  }

  /** Running a prefix of k + 1 packets is the first step followed by the next k. */
  lemma RunPrefix(s: Peers.PeerState, ins: seq<Input>, k: nat)
    requires forall j :: 0 <= j < |ins| ==> Feasible(ins[j])
    requires k < |ins| - 1
    ensures Run(s, ins[..k + 1]) == Run(Step(s, ins[0].c, ins[0].d, ins[0].env).state, ins[1..][..k])
  {
    var pre := ins[..k + 1];
    assert pre[0] == ins[0] && pre[1..] == ins[1..][..k];
  }

  /** The RPTK in `i` passes in state `s`. */
  predicate PassesAuth(s: Peers.PeerState, i: Input)
    requires Feasible(i) && i.c == Builtin(Auth)
  {
    && Peers.IsApplicable(s.status, Peers.Auth) && s.authSalt.Some?
    && CheckPassword(i.env.auth, PeerIdOf(i.c, i.d), s.authSalt.value, Get(i.d, PassHashField), i.env.sha)
  }

  /** The only way into CONFIG or ACTIVE is an RPTK whose password check passes. */
  lemma OnlyAuthAdmits(s: Peers.PeerState, i: Input)
    requires Feasible(i) && s.status !in {Peers.Config, Peers.Active}
    requires Step(s, i.c, i.d, i.env).state.status in {Peers.Config, Peers.Active}
    ensures i.c == Builtin(Auth) && PassesAuth(s, i)
  {
    var c, d, env := i.c, i.d, i.env;
    if c == Builtin(Data) {
      DataOutcome(s, d, env);
    } else if c == Builtin(Ping) {
      PingOutcome(s, d, env);
    } else if c == Builtin(Login) {
      LoginOutcome(s, d, env);
    } else if c == Builtin(Config) {
      ConfigOutcome(s, d, env);
    } else if c == Builtin(Auth) {
      AuthOutcome(s, d, env);
    } else if c != Builtin(RepeaterClose) {
      OtherPassesThrough(s, c, d, env);
    }
  }

  /**
   * A peer that starts outside CONFIG and ACTIVE (a new one, say) reaches them only
   * after some RPTK passed the password check in the state it then had.
   */
  lemma {:induction false} AdmittedOnlyThroughAuth(s: Peers.PeerState, ins: seq<Input>)
    requires forall k :: 0 <= k < |ins| ==> Feasible(ins[k])
    requires s.status !in {Peers.Config, Peers.Active}
    requires Run(s, ins).status in {Peers.Config, Peers.Active}
    ensures exists k :: 0 <= k < |ins| && ins[k].c == Builtin(Auth) && PassesAuth(Run(s, ins[..k]), ins[k])
    decreases |ins|
  {
    var s1 := Step(s, ins[0].c, ins[0].d, ins[0].env).state;
    if s1.status in {Peers.Config, Peers.Active} {
      OnlyAuthAdmits(s, ins[0]);
      assert ins[..0] == [];
      assert Run(s, ins[..0]) == s;
    } else {
      var rest := ins[1..];
      AdmittedOnlyThroughAuth(s1, rest);
      var k :| 0 <= k < |rest| && rest[k].c == Builtin(Auth) && PassesAuth(Run(s1, rest[..k]), rest[k]);
      RunPrefix(s, ins, k);
      assert ins[k + 1] == rest[k];
    }
  }

  // ---------------------------------------------------------------------------
  // The controller object

  /**
   * PeerController: handles the packets of one peer, consulting the peer keeper
   * for ids already in use and answering through the sender.
   */
  class PeerController {
    const peer: Peers.Peer
    const keeper: Peers.PeerKeeper
    const auth: PeerAuth
    const sender: Sender

    constructor (peer: Peers.Peer, keeper: Peers.PeerKeeper, auth: PeerAuth, sender: Sender)
      ensures this.peer == peer && this.keeper == keeper && this.auth == auth && this.sender == sender
    {
      this.peer := peer;
      this.keeper := keeper;
      this.auth := auth;
      this.sender := sender;
    }

    /** get_by_id finds a peer exactly when some registered peer holds the id. */
    lemma HeldExactlyWhenInUse(id: int)
      ensures |keeper.GetById(id)| > 0 <==> id in keeper.IdsInUse()
    {
      var held := keeper.GetById(id);
      if |held| > 0 {
        var q :| q in held;
        assert q.peerId as int in keeper.IdsInUse();
      }
    }

    /** Builds the packet of kind `k`, sets its peer_id to `id` and sends it to the peer (send_data). */
    method SendIdPacket(k: Kind, id: uint32)
      requires k in {MasterClose, Ack, Pong}
      modifies sender
      ensures sender.sent == old(sender.sent) + [Datagram(IdPacket(k, id), peer.addr)]
    {
      var q := new Packet.Create(Builtin(k));
      var f := PeerIdField(q.cls).value;
      FieldsInsidePacket(q.cls, f);
      FourBytesIsUint32();
      var _ := q.SetInt(f, id);
      assert q.GetData() == IdPacket(k, id);
      sender.SendDg(q.GetData(), peer.addr);
    }

    /** send_close: MSTCL with the given id, or the peer's own if that is 0. */
    method SendClose(packetId: uint32)
      modifies sender
      ensures sender.sent == old(sender.sent) + [Datagram(ClosePacket(packetId, peer.peerId), peer.addr)]
    {
      SendIdPacket(MasterClose, if packetId != 0 then packetId else peer.peerId);
    }

    /** send_salt: RPTACK with a fresh salt, which the peer keeps to check RPTK against. */
    method SendSalt(salt: seq<byte>)
      requires |salt| == 4
      modifies peer, sender
      ensures peer.State() == old(peer.State()).(authSalt := Some(salt))
      ensures sender.sent == old(sender.sent) + [Datagram(SaltPacket(salt), peer.addr)]
    {
      var q := new Packet.Create(Builtin(Salt));
      FieldsInsidePacket(q.cls, SaltField);
      var _ := q.SetBytes(SaltField, salt);
      peer.authSalt := Some(q.GetBytes(SaltField));
      sender.SendDg(q.GetData(), peer.addr);
    }

    /** One payload makes one datagram. */
    static lemma SentOne(payloads: seq<seq<byte>>, addr: Peers.Addr)
      requires |payloads| == 1
      ensures To(payloads, addr) == [Datagram(payloads[0], addr)]
    {
    }

    /** The state the peer is in and what it has been sent agree with `r`. */
    twostate predicate Did(r: StepResult)
      reads peer, sender
    {
      peer.State() == r.state && sender.sent == old(sender.sent) + To(r.sent, peer.addr)
    }

    /** Every refusal: die, then send_close with the packet's peer id. */
    method Refuse(packetId: uint32)
      modifies peer, sender
      ensures Did(Reject(old(peer.State()), packetId))
    {
      ghost var r := Reject(peer.State(), packetId);
      peer.Die();
      assert peer.State() == r.state;
      SendClose(packetId);
      SentOne(r.sent, peer.addr);
    }

    /** The DMRD branch of process_packet. */
    method HandleData(d: seq<byte>, env: Env) returns (cont: bool)
      requires |d| == PktSize(Builtin(Data))
      modifies peer, sender
      ensures var r := StepData(old(peer.State()), d, env); Did(r) && cont == r.cont
    {
      var c := Builtin(Data);
      ghost var r := StepData(peer.State(), d, env);
      if !Peers.IsApplicable(peer.status, Peers.Active) {
        Refuse(PeerIdOf(c, d));
        return false;
      }
      FieldsInsidePacket(c, SrcIdField);
      peer.UpdateActive(env.now);
      peer.UpdateUnit(GetInt(d, SrcIdField), env.now);
      return true;
    }

    /** The RPTPING branch of process_packet. */
    method HandlePing(d: seq<byte>, env: Env) returns (cont: bool)
      requires |d| == PktSize(Builtin(Ping))
      modifies peer, sender
      ensures var r := StepPing(old(peer.State()), d, env); Did(r) && cont == r.cont
    {
      var c := Builtin(Ping);
      ghost var r := StepPing(peer.State(), d, env);
      if !Peers.IsApplicable(peer.status, Peers.Active) {
        Refuse(PeerIdOf(c, d));
        return false;
      }
      peer.UpdateActive(env.now);
      assert peer.State() == r.state;
      SendIdPacket(Pong, peer.peerId);
      SentOne(r.sent, peer.addr);
      return false;
    }

    /** The RPTL branch of process_packet. */
    method HandleLogin(d: seq<byte>, env: Env) returns (cont: bool)
      requires |d| == PktSize(Builtin(Login)) && |env.salt| == 4
      requires env.idsInUse == keeper.IdsInUse() && env.auth == auth
      modifies peer, sender
      ensures var r := StepLogin(old(peer.State()), d, env); Did(r) && cont == r.cont
    {
      var c := Builtin(Login);
      var id := PeerIdOf(c, d);
      ghost var r := StepLogin(peer.State(), d, env);
      HeldExactlyWhenInUse(id);
      if !Peers.IsApplicable(peer.status, Peers.Login) || |keeper.GetById(id)| > 0 || !AllowPeerId(auth, id) {
        Refuse(id);
        return false;
      }
      peer.status := Peers.Auth;
      SendSalt(env.salt);
      assert peer.State() == r.state;
      SentOne(r.sent, peer.addr);
      return false;
    }

    /** The RPTK branch of process_packet. */
    method HandleAuth(d: seq<byte>, env: Env) returns (cont: bool)
      requires |d| == PktSize(Builtin(Auth))
      requires env.auth == auth
      modifies peer, sender
      ensures var r := StepAuth(old(peer.State()), d, env); Did(r) && cont == r.cont
    {
      var id := PeerIdOf(Builtin(Auth), d);
      var passHash := Get(d, PassHashField);
      var ok := Peers.IsApplicable(peer.status, Peers.Auth) && peer.authSalt.Some?
        && CheckPassword(auth, id, peer.authSalt.value, passHash, env.sha);
      if !ok {
        Refuse(id);
      } else {
        Admit(id);
      }
      return false;
    }

    /** RPTK accepted: the peer takes the id, moves to CONFIG and is sent RPTACK with it. */
    method Admit(id: uint32)
      modifies peer, sender
      ensures Did(StepResult(old(peer.State()).(peerId := id, status := Peers.Config), false, [IdPacket(Ack, id)]))
    {
      ghost var r := StepResult(peer.State().(peerId := id, status := Peers.Config), false, [IdPacket(Ack, id)]);
      peer.peerId := id;
      peer.status := Peers.Config;
      assert peer.State() == r.state;
      SendIdPacket(Ack, peer.peerId);
      SentOne(r.sent, peer.addr);
    }

    /** The RPTC branch of process_packet. */
    method HandleConfig(d: seq<byte>, env: Env) returns (cont: bool)
      requires |d| == PktSize(Builtin(Config))
      modifies peer, sender
      ensures var r := StepConfig(old(peer.State()), d, env); Did(r) && cont == r.cont
    {
      var c := Builtin(Config);
      ghost var r := StepConfig(peer.State(), d, env);
      if !Peers.IsApplicable(peer.status, Peers.Config) {
        Refuse(PeerIdOf(c, d));
        return false;
      }
      peer.status := Peers.Active;
      peer.config := ConfigOf(d);
      assert peer.State() == r.state;
      SendIdPacket(Ack, peer.peerId);
      SentOne(r.sent, peer.addr);
      return false;
    }

    /**
     * process_packet: updates the peer and answers it exactly as `Step` says, and
     * returns whether the dispatcher goes on with the packet.
     */
    method ProcessPacket(p: Packet, sha: seq<byte> -> seq<byte>, salt: seq<byte>, now: int)
      returns (cont: bool)
      requires p.Valid() && p.cls.Builtin? && |salt| == 4
      modifies peer, sender
      ensures var r := Step(old(peer.State()), p.cls, p.GetData(), Env(old(keeper.IdsInUse()), auth, sha, salt, now));
        Did(r) && cont == r.cont
    {
      var c, d := p.cls, p.GetData();
      var env := Env(keeper.IdsInUse(), auth, sha, salt, now);
      if c == Builtin(RepeaterClose) {
        peer.Die();
        cont := false;
      } else if c == Builtin(Data) {
        cont := HandleData(d, env);
      } else if c == Builtin(Ping) {
        cont := HandlePing(d, env);
      } else if c == Builtin(Login) {
        cont := HandleLogin(d, env);
      } else if c == Builtin(Auth) {
        cont := HandleAuth(d, env);
      } else if c == Builtin(Config) {
        cont := HandleConfig(d, env);
      } else {
        OtherPassesThrough(peer.State(), c, d, env);
        cont := true;
      }
    }
  }
}
