/** The bounded fan-out of internal/stream/node_registry.go, with the connection
    queue it shares with responses (internal/ipc/server.go).

    Streams are named by number; a stream's connection state is the value the
    registry's table holds for it. `racing` resolves Go's select between a
    cancelled context and a queue with room. */
module NodeRegistry {
  import opened Node
  import opened NodeStreamClient

  datatype Outbound = Event(message: StreamMessage) | Reply

  /** `done` is the stream's closed channel (its sync.Once has run);
      `writerDone` is a writer that returned. `taken` is what the writer took off the
      queue; its reader sees a prefix of that. */
  datatype Connection =
    Connection(queue: seq<Outbound>, capacity: nat, taken: seq<Outbound>, cancelled: bool, writerDone: bool, done: bool)

  /** The enqueue closure of serveConnection: never blocks. */
  function EnqueueOutbound(c: Connection, m: Outbound, race: bool): (r: (Connection, bool)) {
    if |c.queue| < c.capacity && (!c.cancelled || race) then (c.(queue := c.queue + [m]), true) else (c, false)
  }

  function StreamEnqueue(c: Connection, m: Outbound, race: bool): (Connection, bool) {
    if c.done then (c, false) else EnqueueOutbound(c, m, race)
  }

  /** NodeStream.Close: once only, and it cancels the connection. */
  function StreamClose(c: Connection): Connection {
    if c.done then c else c.(done := true, cancelled := true)
  }

  /** NodeStream.Unregister: the same Once, without closing the connection. */
  function StreamUnregister(c: Connection): Connection {
    c.(done := true)
  }

  /** What publishing one message does to one stream's connection. */
  function Published(c: Connection, m: Outbound, race: bool): Connection {
    var (c', ok) := StreamEnqueue(c, m, race);
    if ok then c' else StreamClose(c')
  }

  predicate PublishGuard(b: NodeChangeBatch) {
    b.resource == "node" && b.event == "changes" && b.generation != 0 && b.changes != []
  }

  /** The message went to every registered stream that could take it, and the
      others are gone. */
  ghost predicate SentToAll(streams: set<nat>, connections: map<nat, Connection>, streams': set<nat>,
                            connections': map<nat, Connection>, message: StreamMessage, racing: set<nat>)
    requires streams <= connections.Keys
  {
    && connections'.Keys == connections.Keys
    && streams' == (set s | s in streams && StreamEnqueue(connections[s], Event(message), s in racing).1)
    && (forall s <- connections ::
          connections'[s] == if s in streams then Published(connections[s], Event(message), s in racing) else connections[s])
  }

  class NodeStreamRegistry {
    var streams: set<nat>
    var connections: map<nat, Connection>
    var messageSeq: nat

    ghost predicate Valid()
      reads this
    {
      streams <= connections.Keys
    }

    constructor ()
      ensures Valid() && streams == {} && connections == map[]
    {
      streams, connections, messageSeq := {}, map[], 0;
    }

    /** The new stream gets the snapshot as its first event or is not
        registered at all. */
    method Register(id: nat, c: Connection, snapshot: StreamMessage, race: bool) returns (ok: bool)
      requires Valid() && id !in connections && !c.done
      modifies this
      ensures Valid()
      ensures ok == StreamEnqueue(c, Event(snapshot), race).1
      ensures streams == (if ok then old(streams) + {id} else old(streams))
      ensures connections == old(connections)[id := Published(c, Event(snapshot), race)]
      ensures ok <==> |c.queue| < c.capacity && (!c.cancelled || race)
      ensures messageSeq == old(messageSeq) + 1
      ensures ok ==> connections[id] == c.(queue := c.queue + [Event(snapshot)])
      ensures !ok ==> connections[id] == c.(done := true, cancelled := true)
    {
      messageSeq := messageSeq + 1;
      streams := streams + {id};
      var (c', accepted) := StreamEnqueue(c, Event(snapshot), race);
      connections := connections[id := c'];
      ok := accepted;
      if !accepted {
        streams := streams - {id};
        connections := connections[id := StreamClose(c')];
        assert old(streams) + {id} - {id} == old(streams);
      }
    }

    /** Every registered stream either gets the batch at the end of its queue or
        is removed and closed; nobody else is touched. */
    method Publish(b: NodeChangeBatch, racing: set<nat>)
      requires Valid()
      modifies this
      ensures Valid()
      ensures !PublishGuard(b) ==> streams == old(streams) && connections == old(connections)
      ensures PublishGuard(b) ==>
                SentToAll(old(streams), old(connections), streams, connections, ChangesMessage(b.generation, b.changes), racing)
      ensures b.resource != "node" || b.event != "changes" || b.generation == 0 || b.changes == [] ==>
                streams == old(streams) && connections == old(connections)
      ensures b.resource == "node" && b.event == "changes" && b.generation != 0 && b.changes != [] ==>
                forall s <- old(streams) ::
                  var c := old(connections)[s];
                  && (s in streams <==> !c.done && |c.queue| < c.capacity && (!c.cancelled || s in racing))
                  && (s in streams ==>
                        connections[s] == c.(queue := c.queue + [Event(ChangesMessage(b.generation, b.changes))]))
                  && (s !in streams && !c.done ==> connections[s] == c.(done := true, cancelled := true))
      ensures messageSeq == old(messageSeq) + (if PublishGuard(b) then 1 else 0)
    {
      if !PublishGuard(b) {
        return;
      }
      messageSeq := messageSeq + 1;
      var m := Event(ChangesMessage(b.generation, b.changes));
      var slow: set<nat> := {};
      var remaining := streams;
      while remaining != {}
        invariant remaining <= old(streams) && streams <= old(streams) && connections.Keys == old(connections).Keys
        invariant remaining <= streams && slow <= old(streams) && slow !! streams
        invariant forall s <- old(streams) :: s in streams <==> s in remaining || StreamEnqueue(old(connections)[s], m, s in racing).1
        invariant slow == old(streams) - streams && messageSeq == old(messageSeq) + 1
        invariant forall s <- connections ::
                    connections[s] == if s in old(streams) && s !in remaining then StreamEnqueue(old(connections)[s], m, s in racing).0
                                      else old(connections)[s]
      {
        var s :| s in remaining;
        var (c', accepted) := StreamEnqueue(connections[s], m, s in racing);
        connections := connections[s := c'];
        if !accepted {
          streams := streams - {s};
          slow := slow + {s};
        }
        remaining := remaining - {s};
      }
      CloseStreams(slow);
    }

    method CloseStreams(ids: set<nat>)
      requires Valid() && ids <= connections.Keys && ids !! streams
      modifies this`connections
      ensures connections.Keys == old(connections).Keys
      ensures forall s <- connections ::
                connections[s] == if s in ids then StreamClose(old(connections)[s]) else old(connections)[s]
    {
      var remaining := ids;
      while remaining != {}
        invariant remaining <= ids && connections.Keys == old(connections).Keys
        invariant forall s <- connections ::
                    connections[s] == if s in ids && s !in remaining then StreamClose(old(connections)[s]) else old(connections)[s]
      {
        var s :| s in remaining;
        connections := connections[s := StreamClose(connections[s])];
        remaining := remaining - {s};
      }
    }

    method Unregister(id: nat)
      requires Valid()
      modifies this
      ensures Valid() && streams == old(streams) - {id} && messageSeq == old(messageSeq)
      ensures connections == (if id in old(connections) then old(connections)[id := old(connections)[id].(done := true)]
                              else old(connections))
    {
      if id in connections {
        connections := connections[id := StreamUnregister(connections[id])];
      }
      streams := streams - {id};
    }

    method CloseAll()
      requires Valid()
      modifies this
      ensures Valid() && streams == {} && connections.Keys == old(connections).Keys && messageSeq == old(messageSeq)
      ensures forall s <- connections ::
                connections[s] == if s in old(streams) then StreamClose(old(connections)[s]) else old(connections)[s]
      ensures forall s <- old(streams) :: !old(connections)[s].done ==>
                s in connections && connections[s] == old(connections)[s].(done := true, cancelled := true)
    {
      var closing := streams;
      streams := {};
      CloseStreams(closing);
    }
  }
}
