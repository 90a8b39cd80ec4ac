/** The client channel, reduced to what the relay uses: `send` appends to an
    outbound log, `recv` hands out the next inbound response or reports
    that the channel has closed. */
module Transport {
  import opened Wire

  class ClientChannel {
    /** Every command sent so far, in order. */
    var sent: seq<Message>
    /** Everything the channel will deliver before it closes, in order. */
    const incoming: seq<ClientResponse>
    /** How many responses have been received. */
    var pos: nat

    predicate Valid()
      reads this
    {
      pos <= |incoming|
    }

    /** The responses not yet received. */
    function Pending(): seq<ClientResponse>
      reads this
      requires Valid()
    {
      incoming[pos..]
    }

    constructor (incoming: seq<ClientResponse>)
      ensures Valid() && sent == [] && this.incoming == incoming && pos == 0
    {
      sent := [];
      this.incoming := incoming;
      pos := 0;
    }

    method Send(m: Message)
      modifies this`sent
      ensures sent == old(sent) + [m]
    {
      sent := sent + [m];
    }

    /** `None` once every response has been delivered: the channel is closed. */
    method Recv() returns (r: Option<ClientResponse>)
      requires Valid()
      modifies this`pos
      ensures Valid()
      ensures old(pos) < |incoming| ==> r == Some(incoming[old(pos)]) && pos == old(pos) + 1
      ensures old(pos) == |incoming| ==> r == None && pos == old(pos)
    {
      if pos < |incoming| {
        r := Some(incoming[pos]);
        pos := pos + 1;
      } else {
        r := None;
      }
    }
  }
}
