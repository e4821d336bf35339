/**
 * The datagram sender the dispatcher and the peer controllers write to
 * (IDatagramSender.send_dg), modelled as an outbox that records every datagram
 * in the order it was sent.
 */
module Outbox {
  import opened Fields
  import opened Peers

  datatype Datagram = Datagram(data: seq<byte>, addr: Addr)

  /** The datagrams for `payloads`, in order, all addressed to `addr`. */
  function To(payloads: seq<seq<byte>>, addr: Addr): (r: seq<Datagram>)
    ensures |r| == |payloads|
    ensures forall i :: 0 <= i < |r| ==> r[i] == Datagram(payloads[i], addr)
  {
    if payloads == [] then [] else [Datagram(payloads[0], addr)] + To(payloads[1..], addr)
  }

  class Sender {
    var sent: seq<Datagram>

    constructor ()
      ensures sent == []
    {
      sent := [];
    }

    /** send_dg */
    method SendDg(data: seq<byte>, addr: Addr)
      modifies this
      ensures sent == old(sent) + [Datagram(data, addr)]
    {
      sent := sent + [Datagram(data, addr)];
    }
  }
}
