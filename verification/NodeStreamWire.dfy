/** From the cache to the browser over the wire: the bytes a connection's writer
    put out, cut into any chunks, decode to the messages it took off the queue,
    and their events fold into a replica the cache really had. */
module NodeStreamWire {
  import opened Wrappers
  import opened Framing
  import opened NodeRegistry
  import opened Replication
  import opened ReplicationTheorems

  /** Messages the encoder accepts and the decoder reads back. */
  ghost predicate Carried(encode: Outbound -> Bytes, parse: Parser<Outbound>, messages: seq<Outbound>) {
    forall m <- messages :: Fits(encode(m)) && parse(encode(m)) == Ok(m)
  }

  function Payloads(encode: Outbound -> Bytes, messages: seq<Outbound>): seq<Bytes> {
    seq(|messages|, i requires 0 <= i < |messages| => encode(messages[i]))
  }

  lemma PayloadsRead(encode: Outbound -> Bytes, parse: Parser<Outbound>, messages: seq<Outbound>)
    requires Carried(encode, parse, messages)
    ensures forall p <- Payloads(encode, messages) :: Fits(p) && parse(p).Ok?
    ensures Values(parse, Payloads(encode, messages)) == messages
  {
    forall i | 0 <= i < |messages| ensures Fits(encode(messages[i])) && parse(encode(messages[i])) == Ok(messages[i]) {
      assert messages[i] in messages;
    }
  }

  /** The bytes on the wire for whole messages. */
  ghost function Wire(encode: Outbound -> Bytes, parse: Parser<Outbound>, messages: seq<Outbound>): Bytes
    requires Carried(encode, parse, messages)
  {
    PayloadsRead(encode, parse, messages);
    Stream(Payloads(encode, messages))
  }

  /** What was taken first was sent first. */
  lemma TakenEventsArePrefix(c: Connection, n: nat)
    requires n <= |c.taken|
    ensures Events(c.taken[..n]) <= Sent(c)
  {
    EventsAppend(c.taken[..n], c.taken[n..] + c.queue);
    assert c.taken + c.queue == c.taken[..n] + (c.taken[n..] + c.queue);
  }

  /** The writer got `n` messages out, and perhaps `k` bytes of one more frame.
      Pushing those bytes in any chunks delivers exactly the `n` messages, and
      whatever has happened to the stream, their events fold without an error
      into the node map of the replica's generation. */
  lemma {:induction false} WireToReplica(steps: seq<Step>, id: nat, n: nat, encode: Outbound -> Bytes,
                                         parse: Parser<Outbound>, next: Bytes, k: nat, chunks: seq<Bytes>)
    requires Safe(START, steps) && id in Run(START, steps).connections
    requires var c := Run(START, steps).connections[id];
             n <= |c.taken| && Carried(encode, parse, c.taken[..n]) && Fits(next) && k < |Frame(next)|
    requires Concat(chunks) == Wire(encode, parse, Run(START, steps).connections[id].taken[..n]) + Frame(next)[..k]
    ensures var s := Run(START, steps);
            var d := PushAll(parse, [], chunks);
            && d == Drained(s.connections[id].taken[..n], Frame(next)[..k], None)
            && (Events(d.frames) != [] ==>
                  var r := Fold(Events(d.frames));
                  && r.Ok? && r.value.generation <= s.generation && |s.history| == s.generation + 1
                  && IsReplica(r, r.value.generation, s.history[r.value.generation]))
  {
    hide Run, Sent, Fold, Safe, START, Stream, PushAll, Events, IsReplica, Header;
    var c := Run(START, steps).connections[id];
    PayloadsRead(encode, parse, c.taken[..n]);
    RoundTrip(parse, Payloads(encode, c.taken[..n]), next, k, chunks);
    TakenEventsArePrefix(c, n);
    var events := Events(c.taken[..n]);
    if events != [] {
      assert Sent(c)[..|events|] == events;
      ReaderNeverThrows(steps, id, |events|);
    }
  }
}
