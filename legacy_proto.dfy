/**
 * The older monolithic codec (dmrtools/dmrproto.py). Its field classes, packet
 * layouts and bit accessors behave like those of the split codec and are modelled
 * once (modules Fields, MmdvmL1 and DmrdBits); what differs is its own factory,
 * which has no beacon class, and its voice-terminator test (DmrdBits.LegacyIsVoiceTerm).
 */
module LegacyProto {
  import opened Wrappers
  import opened Fields
  import opened MmdvmL1
  import Factory

  /** The class list of the monolithic DMRPPacketFactory: the same order, without RPTSBKN. */
  const LegacyClasses: seq<PacketClass> := [
    Builtin(MasterNoAck), Builtin(MasterClose), Builtin(RepeaterClose),
    Builtin(Login), Builtin(Ack), Builtin(Auth), Builtin(Config),
    Builtin(Ping), Builtin(Pong), Builtin(Salt),
    Builtin(Data), Builtin(TalkerAlias)]

  function LegacyClassify(d: seq<byte>): Result<PacketClass> {
    Factory.Produce(LegacyClasses, Detect, UnknownPacketType, d)
  }

  function LegacyIndexOf(k: Kind): (i: nat)
    requires k != Beacon
    ensures i < |LegacyClasses| && LegacyClasses[i] == Builtin(k)
    ensures forall j :: 0 <= j < i ==> LegacyClasses[j].Builtin? && LegacyClasses[j] != Builtin(k)
    ensures k == Ack ==> forall j :: 0 <= j < i ==> LegacyClasses[j] != Builtin(Salt)
  {
    match k
    case MasterNoAck => 0
    case MasterClose => 1
    case RepeaterClose => 2
    case Login => 3
    case Ack => 4
    case Auth => 5
    case Config => 6
    case Ping => 7
    case Pong => 8
    case Salt => 9
    case Data => 10
    case TalkerAlias => 11
  }

  /** A beacon is an unknown packet type to the monolithic factory. */
  lemma LegacyRejectsBeacon(d: seq<byte>)
    requires Detect(Builtin(Beacon), d)
    ensures LegacyClassify(d) == Err(UnknownPacketType)
  {
    forall j | 0 <= j < |LegacyClasses|
      ensures !Detect(LegacyClasses[j], d)
    {
      var c := LegacyClasses[j];
      LegacyHasNoBeacon(j);
      if Detect(c, d) {
        DetectDisjoint(c, Builtin(Beacon), d);
      }
    }
  }

  lemma LegacyHasNoBeacon(j: nat)
    requires j < |LegacyClasses|
    ensures LegacyClasses[j].Builtin? && LegacyClasses[j].kind != Beacon
  {
  }

  /** Data detected as any other class parses as in the split codec. */
  lemma LegacyAgreesDetected(k: Kind, d: seq<byte>)
    requires k != Beacon && Detect(Builtin(k), d)
    ensures LegacyClassify(d) == Classify(d) == Ok(Builtin(Winner(k)))
  {
    ClassifyDetected(k, d);
    var w := Winner(k);
    var i := LegacyIndexOf(w);
    FirstDetectedWins(LegacyClasses, i, k, d);
  }

  /**
   * The two factories parse every datagram alike, except RPTSBKN beacons, which the
   * monolithic one reports as an unknown packet type.
   */
  lemma LegacyClassifyAgrees(d: seq<byte>)
    ensures Detect(Builtin(Beacon), d) ==> LegacyClassify(d) == Err(UnknownPacketType)
    ensures !Detect(Builtin(Beacon), d) ==> LegacyClassify(d) == Classify(d)
  {
    if Detect(Builtin(Beacon), d) {
      LegacyRejectsBeacon(d);
    } else if k :| Detect(Builtin(k), d) {
      LegacyAgreesDetected(k, d);
    } else {
      ClassifyUnknown(d);
      assert forall j :: 0 <= j < |LegacyClasses| ==> !Detect(LegacyClasses[j], d);
    }
  }

  /** DMRPPacketFactory() of the monolithic codec. */
  method NewLegacyFactory() returns (f: Factory.Factory<PacketClass>)
    ensures fresh(f) && f.classes == LegacyClasses
    ensures f.detect == Detect && f.notFound == UnknownPacketType
  {
    f := new Factory.Factory(Some(LegacyClasses), Detect, UnknownPacketType);
  }

  /**
   * register_custom_packet appends: a custom class is produced only for data that no
   * built-in class of the monolithic codec detects.
   */
  lemma CustomOnlyForLeftovers(c: PacketClass, d: seq<byte>)
    requires c.Custom? && Detect(c, d)
    ensures Factory.Produce(LegacyClasses + [c], Detect, UnknownPacketType, d) ==
      if LegacyClassify(d).Ok? then LegacyClassify(d) else Ok(c)
  {
    var cs := LegacyClasses + [c];
    if LegacyClassify(d).Ok? {
      Factory.RegisterNeverPreempts(LegacyClasses, c, Detect, d);
    } else {
      Factory.RegisteredClassMatchesLeftovers(LegacyClasses, c, Detect, d);
    }
  }
}
