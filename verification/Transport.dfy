/** The in-memory transport (src/mock.rs): bounded FIFO channels, crossed between the two ends of a connection. */
module Transport {
  import opened Admission
  import opened BigEndian
  import opened Sequences

  const CAPACITY: nat := 16

  /** One side of an in-memory pipe. What is written on one side is read on the other side of the same pipe. */
  datatype Side = Opener | Acceptor
  datatype Half = Half(pipe: nat, side: Side)

  /** What becomes of an operation on a channel: it is done, it has to wait, or the other side has gone. */
  datatype Outcome<T> = Done(value: T) | Waits | Closed

  /** A bounded channel with one sender and one receiver, either of which may be dropped. */
  class Channel<T> {
    var items: seq<T>
    var senderGone: bool
    var receiverGone: bool
    ghost var sent: seq<T>
    ghost var received: seq<T>

    ghost predicate Valid()
      reads this
    {
      && |items| <= CAPACITY
      && (if receiverGone then received <= sent else sent == received + items)
    }

    constructor ()
      ensures Valid() && items == sent == received == [] && !senderGone && !receiverGone
    {
      items, sent, received := [], [], [];
      senderGone, receiverGone := false, false;
    }

    method Send(x: T) returns (r: Outcome<()>)
      requires Valid()
      modifies this
      ensures Valid() && received == old(received) && receiverGone == old(receiverGone) && senderGone == old(senderGone)
      ensures r.Closed? <==> receiverGone
      ensures r.Done? <==> !receiverGone && |old(items)| < 16
      ensures sent == if r.Done? then old(sent) + [x] else old(sent)
    {
      if receiverGone {
        return Closed;
      }
      if |items| == CAPACITY {
        return Waits;
      }
      items := items + [x];
      sent := sent + [x];
      return Done(());
    }

    /**
     * What is received is the first thing sent and not received yet; what was sent before the sender went is not lost.
     */
    method Receive() returns (r: Outcome<T>)
      requires Valid() && !receiverGone
      modifies this
      ensures Valid() && sent == old(sent) && !receiverGone && senderGone == old(senderGone)
      ensures r.Done? <==> old(received) != sent
      ensures r.Done? ==> |old(received)| < |sent| && r.value == sent[|old(received)|]
      ensures r.Done? ==> received == old(received) + [r.value]
      ensures !r.Done? ==> received == old(received) && (r.Closed? <==> senderGone)
    {
      if items == [] {
        return if senderGone then Closed else Waits;
      }
      r := Done(items[0]);
      received := received + [items[0]];
      items := items[1..];
    }

    method DropSender()
      requires Valid()
      modifies this
      ensures Valid() && senderGone && receiverGone == old(receiverGone) && sent == old(sent)
          && received == old(received)
    {
      senderGone := true;
    }

    /** What was not received is dropped with the receiver. */
    method DropReceiver()
      requires Valid()
      modifies this
      ensures Valid() && receiverGone && senderGone == old(senderGone) && sent == old(sent) && received == old(received)
    {
      receiverGone, items := true, [];
    }
  }

  class MockConnection {
    const localId: string
    const remoteId: string
    const outgoingBi: Channel<Half>
    const outgoingUni: Channel<Half>
    const incomingBi: Channel<Half>
    const incomingUni: Channel<Half>

    constructor (localId: string, remoteId: string, outgoingBi: Channel<Half>, outgoingUni: Channel<Half>,
                 incomingBi: Channel<Half>, incomingUni: Channel<Half>)
      ensures this.localId == localId && this.remoteId == remoteId
      ensures this.outgoingBi == outgoingBi && this.outgoingUni == outgoingUni
      ensures this.incomingBi == incomingBi && this.incomingUni == incomingUni
    {
      this.localId, this.remoteId := localId, remoteId;
      this.outgoingBi, this.outgoingUni, this.incomingBi, this.incomingUni := outgoingBi, outgoingUni, incomingBi,
          incomingUni;
    }

    /** `open_bi` and `open_uni` make a new pipe, queue the far side of it and return the near one. */
    method Open(bi: bool, pipe: nat) returns (near: Outcome<Half>)
      requires outgoingBi.Valid() && outgoingUni.Valid() && outgoingBi != outgoingUni
      modifies if bi then outgoingBi else outgoingUni
      ensures outgoingBi.Valid() && outgoingUni.Valid()
      ensures var channel := if bi then outgoingBi else outgoingUni;
              && channel.received == old(channel.received) && channel.receiverGone == old(channel.receiverGone)
              && (near.Closed? <==> channel.receiverGone)
              && (near.Done? <==> !channel.receiverGone && |old(channel.items)| < CAPACITY)
              && channel.sent == if near.Done? then old(channel.sent) + [Half(pipe, Acceptor)] else old(channel.sent)
      ensures near.Done? ==> near.value == Half(pipe, Opener)
    {
      var channel := if bi then outgoingBi else outgoingUni;
      var r := channel.Send(Half(pipe, Acceptor));
      match r {
        case Done(_) => near := Done(Half(pipe, Opener));
        case Waits => near := Waits;
        case Closed => near := Closed;
      }
    }

    method Accept(bi: bool) returns (near: Outcome<Half>)
      requires incomingBi.Valid() && incomingUni.Valid() && incomingBi != incomingUni
      requires !incomingBi.receiverGone && !incomingUni.receiverGone
      modifies if bi then incomingBi else incomingUni
      ensures incomingBi.Valid() && incomingUni.Valid()
      ensures var channel := if bi then incomingBi else incomingUni;
              && channel.sent == old(channel.sent)
              && !channel.receiverGone && channel.senderGone == old(channel.senderGone)
              && (near.Done? <==> old(channel.received) != channel.sent)
              && (near.Done? ==>
                    && |old(channel.received)| < |channel.sent| && near.value == channel.sent[|old(channel.received)|]
                    && channel.received == old(channel.received) + [near.value])
              && (!near.Done? ==> channel.received == old(channel.received) && (near.Closed? <==> channel.senderGone))
    {
      var channel := if bi then incomingBi else incomingUni;
      near := channel.Receive();
    }
  }

  /**
   * One end of a connection is dropped. The other end, crossed with it, still accepts what was opened to it before and
   * then finds the connection closed; it can open nothing more.
   */
  method Drop(gone: MockConnection, left: MockConnection)
    requires Crossed(gone, left)
    requires left.outgoingBi.Valid() && left.outgoingUni.Valid() && left.incomingBi.Valid() && left.incomingUni.Valid()
    requires {left.outgoingBi, left.outgoingUni} !! {left.incomingBi, left.incomingUni}
    requires left.outgoingBi != left.outgoingUni && left.incomingBi != left.incomingUni
    modifies gone.outgoingBi, gone.outgoingUni, gone.incomingBi, gone.incomingUni
    ensures left.outgoingBi.Valid() && left.outgoingUni.Valid() && left.incomingBi.Valid() && left.incomingUni.Valid()
    ensures left.outgoingBi.receiverGone && left.outgoingUni.receiverGone
    ensures left.incomingBi.senderGone && left.incomingUni.senderGone
    ensures left.incomingBi.sent == old(left.incomingBi.sent)
        && left.incomingBi.received == old(left.incomingBi.received)
    ensures left.incomingUni.sent == old(left.incomingUni.sent)
        && left.incomingUni.received == old(left.incomingUni.received)
    ensures left.incomingBi.receiverGone == old(left.incomingBi.receiverGone)
    ensures left.incomingUni.receiverGone == old(left.incomingUni.receiverGone)
  {
    gone.outgoingBi.DropSender();
    gone.outgoingUni.DropSender();
    gone.incomingBi.DropReceiver();
    gone.incomingUni.DropReceiver();
  }

  /** The accept loop, once the other end has gone: it gets everything that was opened, in order, and then ends. */
  method AcceptAll(left: MockConnection) returns (accepted: seq<Half>)
    requires left.incomingBi.Valid() && left.incomingUni.Valid() && left.incomingBi != left.incomingUni
    requires !left.incomingBi.receiverGone && !left.incomingUni.receiverGone && left.incomingUni.senderGone
    modifies left.incomingUni
    ensures left.incomingUni.Valid() && left.incomingUni.sent == old(left.incomingUni.sent)
    ensures left.incomingUni.received == left.incomingUni.sent == old(left.incomingUni.received) + accepted
  {
    accepted := [];
    var near := left.Accept(false);
    while near.Done?
      invariant left.incomingBi.Valid() && left.incomingUni.Valid()
          && left.incomingUni.sent == old(left.incomingUni.sent)
      invariant !left.incomingUni.receiverGone && left.incomingUni.senderGone
      invariant left.incomingUni.received == old(left.incomingUni.received) + accepted +
          (if near.Done? then [near.value] else [])
      invariant !near.Done? ==> left.incomingUni.received == left.incomingUni.sent
      decreases |left.incomingUni.sent| - |left.incomingUni.received| + (if near.Done? then 1 else 0)
    {
      accepted := accepted + [near.value];
      near := left.Accept(false);
    }
  }

  class MockEndpoint {
    const nodeId: string
    const connections: Channel<MockConnection>

    constructor (nodeId: string)
      ensures this.nodeId == nodeId && fresh(connections) && connections.Valid()
          && connections.sent == connections.received == []
      ensures !connections.senderGone && !connections.receiverGone
    {
      this.nodeId := nodeId;
      connections := new Channel();
    }
  }

  /** Each end sends into what the other receives from, and each end's remote id is the other's own. */
  predicate Crossed(a: MockConnection, b: MockConnection) {
    && a.outgoingBi == b.incomingBi && a.incomingBi == b.outgoingBi
    && a.outgoingUni == b.incomingUni && a.incomingUni == b.outgoingUni
    && a.localId == b.remoteId && a.remoteId == b.localId
  }

  /** Four different channels, nothing in them. */
  predicate Unused(c: MockConnection)
    reads c.outgoingBi, c.outgoingUni, c.incomingBi, c.incomingUni
  {
    && c.outgoingBi.items == c.outgoingUni.items == c.incomingBi.items == c.incomingUni.items == []
    && c.outgoingBi != c.outgoingUni && c.outgoingBi != c.incomingBi && c.outgoingBi != c.incomingUni
    && c.outgoingUni != c.incomingBi && c.outgoingUni != c.incomingUni && c.incomingBi != c.incomingUni
  }

  /** The server's end goes to its endpoint; if nobody is there to take it, there is no connection. */
  method Connect(clientEp: MockEndpoint, serverEp: MockEndpoint) returns (client: Outcome<MockConnection>)
    requires serverEp.connections.Valid()
    modifies serverEp.connections
    ensures serverEp.connections.Valid()
    ensures client.Closed? <==> old(serverEp.connections.receiverGone)
    ensures client.Done? <==> !old(serverEp.connections.receiverGone) && |old(serverEp.connections.items)| < CAPACITY
    ensures !client.Done? ==> serverEp.connections.sent == old(serverEp.connections.sent)
    ensures client.Done? ==>
              && |serverEp.connections.sent| == |old(serverEp.connections.sent)| + 1
              && old(serverEp.connections.sent) <= serverEp.connections.sent
              && Crossed(client.value, serverEp.connections.sent[|old(serverEp.connections.sent)|])
              && client.value.localId == clientEp.nodeId && client.value.remoteId == serverEp.nodeId
              && fresh(client.value) && Unused(client.value)
              && fresh({client.value.outgoingBi, client.value.outgoingUni, client.value.incomingBi,
                  client.value.incomingUni})
  {
    var clientBi := new Channel<Half>();
    var clientUni := new Channel<Half>();
    var serverBi := new Channel<Half>();
    var serverUni := new Channel<Half>();
    var near := new MockConnection(clientEp.nodeId, serverEp.nodeId, clientBi, clientUni, serverBi, serverUni);
    var far := new MockConnection(serverEp.nodeId, clientEp.nodeId, serverBi, serverUni, clientBi, clientUni);
    var r := serverEp.connections.Send(far);
    match r {
      case Done(_) => client := Done(near);
      case Waits => client := Waits;
      case Closed => client := Closed;
    }
  }

  /**
   * Over a crossed connection the streams either end accepts are, in order and none left out, the far sides of those of
   * the same kind the other opened, and never more than the bound are opened and not accepted while an end listens.
   */
  lemma AcceptedInOpeningOrder(near: MockConnection, far: MockConnection)
    requires Crossed(near, far) || Crossed(far, near)
    requires near.outgoingUni.Valid() && near.outgoingBi.Valid()
    ensures far.incomingUni.received <= near.outgoingUni.sent && far.incomingBi.received <= near.outgoingBi.sent
    ensures !near.outgoingUni.receiverGone ==> |near.outgoingUni.sent| - |far.incomingUni.received| <= 16
    ensures !near.outgoingBi.receiverGone ==> |near.outgoingBi.sent| - |far.incomingBi.received| <= 16
  {
  }

  /** A client that ties the knot over a crossed connection announces the node id the hub has for it. */
  lemma NodeIdMatches(client: MockConnection, server: MockConnection, config: HubConfig, request: Request, now: u64)
    requires Crossed(client, server) && config.remoteNodeId == server.remoteId
    ensures var verdict := Verdict(config, TieEnvelope(request, client.localId, now).payload);
            verdict.Some? ==> !verdict.value.NodeMismatch? && !verdict.value.VersionMismatch?
  {
    ClientPassesOwnChecks(config, request, now);
  }
}
