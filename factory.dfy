/**
 * The first-match factory (dmrtools/dmrproto/factory.py, and the equivalent
 * DMRPPacketFactory of dmrtools/dmrproto.py). A factory holds an ordered list of
 * classes; each class decides by `detect` whether it accepts a datagram, and the
 * first one that does is produced.
 */
module Factory {
  import opened Wrappers
  import opened Fields

  /** Position of the first class in `cs` that accepts `d`; |cs| when none does. */
  function FirstMatch<C>(cs: seq<C>, detect: (C, seq<byte>) -> bool, d: seq<byte>): (i: nat)
    ensures i <= |cs|
    ensures forall j :: 0 <= j < i ==> !detect(cs[j], d)
    ensures i < |cs| ==> detect(cs[i], d)
  {
    if cs == [] then 0
    else if detect(cs[0], d) then 0
    else 1 + FirstMatch(cs[1..], detect, d)
  }

  /** The class a factory over `cs` produces for `d`, or `notFound`'s error. */
  function Produce<C>(cs: seq<C>, detect: (C, seq<byte>) -> bool, notFound: Error, d: seq<byte>): (r: Result<C>)
    ensures r.Ok? <==> exists j :: 0 <= j < |cs| && detect(cs[j], d)
    ensures r.Err? ==> r.error == notFound
    ensures r.Ok? ==> exists i :: 0 <= i < |cs| && r.value == cs[i] && detect(cs[i], d)
                                && forall j :: 0 <= j < i ==> !detect(cs[j], d)
  {
    var i := FirstMatch(cs, detect, d);
    if i < |cs| then Ok(cs[i]) else Err(notFound)
  }

  /**
   * Appending a class never changes what the factory produces for data an earlier
   * class already accepts.
   */
  lemma {:induction false} RegisterNeverPreempts<C>(cs: seq<C>, c: C, detect: (C, seq<byte>) -> bool, d: seq<byte>)
    requires exists j :: 0 <= j < |cs| && detect(cs[j], d)
    ensures FirstMatch(cs + [c], detect, d) == FirstMatch(cs, detect, d)
  {
    if !detect(cs[0], d) {
      assert (cs + [c])[1..] == cs[1..] + [c];
      var j :| 0 <= j < |cs| && detect(cs[j], d);
      assert 0 <= j - 1 < |cs[1..]| && detect(cs[1..][j - 1], d);
      RegisterNeverPreempts(cs[1..], c, detect, d);
    }
  }

  /** An appended class is produced exactly for the data no earlier class accepts. */
  lemma RegisteredClassMatchesLeftovers<C>(cs: seq<C>, c: C, detect: (C, seq<byte>) -> bool, d: seq<byte>)
    requires detect(c, d)
    requires forall j :: 0 <= j < |cs| ==> !detect(cs[j], d)
    ensures FirstMatch(cs + [c], detect, d) == |cs|
  {
    var cs' := cs + [c];
    var i := FirstMatch(cs', detect, d);
    assert cs'[|cs|] == c;
    assert forall j :: 0 <= j < |cs| ==> cs'[j] == cs[j];
  }

  /** A class that accepts the data, with no earlier class accepting it, is the one produced. */
  lemma ProduceFirst<C>(cs: seq<C>, detect: (C, seq<byte>) -> bool, notFound: Error, d: seq<byte>, k: nat)
    requires k < |cs| && detect(cs[k], d)
    requires forall j :: 0 <= j < k ==> !detect(cs[j], d)
    ensures Produce(cs, detect, notFound, d) == Ok(cs[k])
  {
    var i := FirstMatch(cs, detect, d);
    assert i == k;
  }

  /** AbstractFactory */
  class Factory<C> {
    var classes: seq<C>
    const detect: (C, seq<byte>) -> bool
    /** What not_found raises: FactoryException in the base class. */
    const notFound: Error

    /** __init__: `classes=None` gives an empty list. */
    constructor (classes: Option<seq<C>>, detect: (C, seq<byte>) -> bool, notFound: Error)
      ensures this.classes == if classes.Some? then classes.value else []
      ensures this.detect == detect && this.notFound == notFound
    {
      this.classes := if classes.Some? then classes.value else [];
      this.detect := detect;
      this.notFound := notFound;
    }

    /** register: appends at the end of the list. */
    method Register(c: C)
      modifies this
      ensures classes == old(classes) + [c]
    {
      classes := classes + [c];
    }

    /**
     * from_data: the first class, in list order, that accepts the data; when none
     * does, not_found's error.
     */
    method FromData(d: seq<byte>) returns (r: Result<C>)
      ensures r == Produce(classes, detect, notFound, d)
    {
      for i := 0 to |classes|
        invariant forall j :: 0 <= j < i ==> !detect(classes[j], d)
      {
        if detect(classes[i], d) {
          assert FirstMatch(classes, detect, d) == i;
          return Ok(classes[i]);
        }
      }
      return Err(notFound);
    }
  }

  /** The class-level `_instance` that `fd` fills on first use. */
  class Singleton<C> {
    var instance: Option<Factory<C>>
    /** What `cls()` builds on first use. */
    const initial: Option<seq<C>>
    const detect: (C, seq<byte>) -> bool
    const notFound: Error

    constructor (initial: Option<seq<C>>, detect: (C, seq<byte>) -> bool, notFound: Error)
      ensures instance.None? && this.initial == initial
      ensures this.detect == detect && this.notFound == notFound
    {
      instance := None;
      this.initial := initial;
      this.detect := detect;
      this.notFound := notFound;
    }

    /** fd: builds the factory at most once, then always delegates to that one. */
    method Fd(d: seq<byte>) returns (r: Result<C>)
      modifies this
      ensures instance.Some?
      ensures old(instance).Some? ==> instance == old(instance)
      ensures old(instance).None? ==>
        (&& fresh(instance.value)
         && instance.value.classes == (if initial.Some? then initial.value else [])
         && instance.value.detect == detect && instance.value.notFound == notFound)
      ensures r == Produce(instance.value.classes, instance.value.detect, instance.value.notFound, d)
    {
      if instance.None? {
        var f := new Factory(initial, detect, notFound);
        instance := Some(f);
      }
      r := instance.value.FromData(d);
    }
  }
}
