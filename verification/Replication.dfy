/** Cache, publication, bounded queues and browser replicas as one step system:
    refreshes, registrations, per-stream publication, responses sharing the
    queues, writers, cancellations and unregistrations in any interleaving. */
module Replication {
  import opened Wrappers
  import opened Node
  import opened NodeCache
  import opened NodeStreamClient
  import opened NodeRegistry

  // -------------------------------------------------------------------- the system

  /** A batch on its way out: the streams still to be served and those found
      full, while the publisher holds the publication lock. */
  datatype Publication = Publication(message: StreamMessage, todo: set<nat>, slow: set<nat>)

  datatype Baseline = Baseline(generation: nat, items: seq<Node>)

  /** `history[g]` is the node map at generation g and `batches[g]` the changes
      that led from it to g + 1; `baselines` is what each registered stream was
      given first. All three are history. */
  datatype Server =
    Server(generation: nat, nodes: NodeMap, streams: set<nat>, connections: map<nat, Connection>,
           publishing: Option<Publication>, closing: set<nat>, nextId: nat,
           history: seq<NodeMap>, batches: seq<seq<NodeChange>>, baselines: map<nat, Baseline>)

  const START: Server := Server(0, map[], {}, map[], None, {}, 0, [map[]], [], map[])

  /** A refresh: the adapter's listing is validated, committed, and, when it
      changed anything, handed to the publisher. `changes` is the batch the
      commit computes; DiffUnique says there is only one. */
  ghost function Refresh(s: Server, listing: seq<SlurmNode>, observedAt: int, changes: seq<NodeChange>): Server {
    var nodes := MapSlurmNodes(listing, observedAt);
    var incoming := Index(nodes);
    var g := (s.generation + 1) % GENERATIONS;
    if s.publishing.Some? || !ValidSnapshot(nodes) || changes == [] || !IsDiff(s.nodes, incoming, g, changes) then s
    else
      var after := Committed(s.nodes, incoming, g);
      s.(generation := g, nodes := after,
         publishing := Some(Publication(ChangesMessage(g, changes), s.streams, {})),
         history := s.history + [after], batches := s.batches + [changes])
  }

  function PublishTo(s: Server, id: nat, race: bool): Server {
    if s.publishing.None? || id !in s.publishing.value.todo || id !in s.connections then s
    else
      var p := s.publishing.value;
      var (c, ok) := StreamEnqueue(s.connections[id], Event(p.message), race);
      s.(connections := s.connections[id := c], streams := if ok then s.streams else s.streams - {id},
         publishing := Some(p.(todo := p.todo - {id}, slow := if ok then p.slow else p.slow + {id})))
  }

  function CloseSlow(s: Server, id: nat): Server {
    if s.publishing.None? || s.publishing.value.todo != {} || id !in s.publishing.value.slow || id !in s.connections then s
    else
      s.(connections := s.connections[id := StreamClose(s.connections[id])],
         publishing := Some(s.publishing.value.(slow := s.publishing.value.slow - {id})))
  }

  function EndPublish(s: Server): Server {
    if s.publishing.Some? && s.publishing.value.todo == {} && s.publishing.value.slow == {} then s.(publishing := None) else s
  }

  /** Register takes the publication lock, so it never overlaps a publication.
      `items` is the snapshot in map iteration order. */
  ghost function Register(s: Server, capacity: nat, items: seq<Node>, cancelled: bool, race: bool): Server {
    if s.publishing.Some? || capacity == 0 || !Lists(items, s.nodes) then s
    else
      var created := Connection([], capacity, [], cancelled, false, false);
      var m := Event(SnapshotMessage(s.generation, items));
      var (c, ok) := StreamEnqueue(created, m, race);
      if ok then
        s.(connections := s.connections[s.nextId := c], streams := s.streams + {s.nextId}, nextId := s.nextId + 1,
           baselines := s.baselines[s.nextId := Baseline(s.generation, items)])
      else s.(connections := s.connections[s.nextId := StreamClose(c)], nextId := s.nextId + 1)
  }

  /** A response goes through the same queue; when it does not fit the
      connection is closed. */
  function Respond(s: Server, id: nat, race: bool): Server {
    if id !in s.connections then s
    else
      var (c, ok) := EnqueueOutbound(s.connections[id], Reply, race);
      s.(connections := s.connections[id := if ok then c else c.(cancelled := true)])
  }

  /** The connection's only writer takes the head of the queue; a failed write
      closes the connection and ends the writer. */
  function Write(s: Server, id: nat, ok: bool): Server {
    if id !in s.connections || s.connections[id].writerDone || s.connections[id].queue == [] then s
    else
      var c := s.connections[id];
      s.(connections := s.connections[id :=
        c.(taken := c.taken + [c.queue[0]], queue := c.queue[1..], writerDone := !ok, cancelled := c.cancelled || !ok)])
  }

  function Cancel(s: Server, id: nat): Server {
    if id in s.connections then s.(connections := s.connections[id := s.connections[id].(cancelled := true)]) else s
  }

  /** NodeStream.Unregister in two steps: closing `done`, and the deletion, which
      has to wait for a publication loop that holds the registry lock. */
  function MarkDone(s: Server, id: nat): Server {
    if id in s.connections then s.(connections := s.connections[id := StreamUnregister(s.connections[id])]) else s
  }

  function Delete(s: Server, id: nat): Server {
    if (s.publishing.Some? && s.publishing.value.todo != {}) || id !in s.connections || !s.connections[id].done then s
    else s.(streams := s.streams - {id})
  }

  /** CloseAll in two steps: the deletion of every stream under the registry
      lock, and then the closing of each. */
  function DropAll(s: Server): Server {
    if s.publishing.Some? && s.publishing.value.todo != {} then s
    else s.(streams := {}, closing := s.closing + s.streams)
  }

  function CloseDropped(s: Server, id: nat): Server {
    if id !in s.closing || id !in s.connections then s
    else s.(connections := s.connections[id := StreamClose(s.connections[id])], closing := s.closing - {id})
  }

  datatype Step =
    | DoRefresh(listing: seq<SlurmNode>, observedAt: int, changes: seq<NodeChange>)
    | DoPublishTo(id: nat, race: bool)
    | DoCloseSlow(id: nat)
    | DoEndPublish
    | DoRegister(capacity: nat, items: seq<Node>, cancelled: bool, race: bool)
    | DoRespond(id: nat, race: bool)
    | DoWrite(id: nat, ok: bool)
    | DoCancel(id: nat)
    | DoMarkDone(id: nat)
    | DoDelete(id: nat)
    | DoDropAll
    | DoCloseDropped(id: nat)

  ghost function Next(s: Server, a: Step): Server {
    match a
    case DoRefresh(listing, at, changes) => Refresh(s, listing, at, changes)
    case DoPublishTo(id, race) => PublishTo(s, id, race)
    case DoCloseSlow(id) => CloseSlow(s, id)
    case DoEndPublish => EndPublish(s)
    case DoRegister(capacity, items, cancelled, race) => Register(s, capacity, items, cancelled, race)
    case DoRespond(id, race) => Respond(s, id, race)
    case DoWrite(id, ok) => Write(s, id, ok)
    case DoCancel(id) => Cancel(s, id)
    case DoMarkDone(id) => MarkDone(s, id)
    case DoDelete(id) => Delete(s, id)
    case DoDropAll => DropAll(s)
    case DoCloseDropped(id) => CloseDropped(s, id)
  }

  ghost function Run(s: Server, steps: seq<Step>): Server
    decreases |steps|
  {
    if steps == [] then s else Run(Next(s, steps[0]), steps[1..])
  }

  /** Generations stay within the integers a JavaScript number holds exactly. */
  ghost predicate Safe(s: Server, steps: seq<Step>)
    decreases |steps|
  {
    s.generation <= MAX_SAFE && (steps == [] || Safe(Next(s, steps[0]), steps[1..]))
  }

  // -------------------------------------------------------------- what clients read

  function Events(q: seq<Outbound>): seq<StreamMessage> {
    if q == [] then []
    else Events(q[..|q| - 1]) + (if q[|q| - 1].Event? then [q[|q| - 1].message] else [])
  }

  lemma {:induction false} EventsAppend(a: seq<Outbound>, b: seq<Outbound>)
    ensures Events(a + b) == Events(a) + Events(b)
  {
    if b == [] {
      assert a + b == a;
    } else {
      assert (a + b)[..|a + b| - 1] == a + b[..|b| - 1];
      EventsAppend(a, b[..|b| - 1]);
    }
  }

  /** Everything ever put on a connection for its reader, in order. */
  function Sent(c: Connection): seq<StreamMessage> {
    Events(c.taken + c.queue)
  }

  function Fold(messages: seq<StreamMessage>): Result<StreamState, StreamError> {
    if messages == [] then Ok(EMPTY_STATE)
    else
      var before := Fold(messages[..|messages| - 1]);
      if before.Err? then before else Apply(before.value, messages[|messages| - 1])
  }

  /** A baseline followed by `n` consecutive batches. */
  function Expected(b: Baseline, batches: seq<seq<NodeChange>>, n: nat): seq<StreamMessage>
    requires b.generation + n <= |batches|
  {
    [SnapshotMessage(b.generation, b.items)]
    + seq(n, j requires 0 <= j < n => ChangesMessage(b.generation + j + 1, batches[b.generation + j]))
  }

  // ------------------------------------------------------------------- the invariant

  /** A cached node passes the client's checks and is stored under the name the
      client uses. */
  predicate CachedNode(k: string, n: Node, generation: nat) {
    && k != "" && Name(n) == k && n.metadata.name != "" && n.metadata.kind != "" && n.metadata.source != ""
    && n.metadata.generation <= generation
  }

  ghost predicate CachedNodes(m: NodeMap, generation: nat) {
    forall k <- m :: CachedNode(k, m[k], generation)
  }

  /** The node's own generation is the one at which its state last changed. */
  ghost predicate Since(history: seq<NodeMap>, k: string, n: Node) {
    var g := n.metadata.generation;
    && 1 <= g < |history|
    && (forall j :: g <= j < |history| ==> Holds(history[j], k, n))
    && (k in history[g - 1] ==> !SameNodeState(history[g - 1][k], n))
  }

  predicate Holds(m: NodeMap, k: string, n: Node) {
    k in m && m[k] == n
  }

  ghost predicate GoodBatch(a: NodeMap, b: NodeMap, g: nat, changes: seq<NodeChange>) {
    && changes != [] && IsPatch(a, b, changes)
    && (forall c <- changes :: CachedNode(Name(c.node), c.node, g))
  }

  ghost predicate CacheInv(s: Server) {
    && |s.history| == s.generation + 1 && |s.batches| == s.generation
    && s.history[0] == map[] && s.history[s.generation] == s.nodes
    && CachedNodes(s.nodes, s.generation)
    && (forall k <- s.nodes :: Since(s.history, k, s.nodes[k]))
    && GoodBatches(s.history, s.batches)
  }

  ghost predicate GoodBatches(history: seq<NodeMap>, batches: seq<seq<NodeChange>>) {
    && |history| == |batches| + 1
    && (forall g :: 0 <= g < |batches| ==> GoodBatch(history[g], history[g + 1], g + 1, batches[g]))
  }

  ghost predicate GoodBaseline(b: Baseline, history: seq<NodeMap>) {
    && b.generation < |history| && DistinctNames(b.items) && ByName(b.items) == history[b.generation]
    && (forall n <- b.items :: CachedNode(Name(n), n, b.generation))
  }

  predicate Pending(s: Server, id: nat) {
    s.publishing.Some? && id in s.publishing.value.todo
  }

  predicate Slow(s: Server, id: nat) {
    s.publishing.Some? && id in s.publishing.value.slow
  }

  /** A stream that was registered has been sent its baseline and consecutive
      batches: all of them while it is registered, but for the one now being
      published. One that no longer is registered has been closed or is about
      to be. */
  ghost predicate ConnectionInv(s: Server, id: nat)
    requires id in s.connections
  {
    var c := s.connections[id];
    && |c.queue| <= c.capacity
    && (id in s.streams || c.done || Slow(s, id) || id in s.closing)
    && (if id in s.baselines then SentInv(s, id, s.baselines[id], Sent(c)) else Sent(c) == [] && id !in s.streams)
  }

  ghost predicate SentInv(s: Server, id: nat, b: Baseline, sent: seq<StreamMessage>) {
    && GoodBaseline(b, s.history)
    && |sent| > 0 && b.generation + |sent| - 1 <= |s.batches|
    && sent == Expected(b, s.batches, |sent| - 1)
    && (id in s.streams ==> b.generation + |sent| - 1 == s.generation - (if Pending(s, id) then 1 else 0))
  }

  ghost predicate PublishInv(s: Server) {
    && s.streams <= s.connections.Keys && s.baselines.Keys <= s.connections.Keys
    && s.closing <= s.connections.Keys && s.closing !! s.streams
    && (forall id <- s.connections :: id < s.nextId)
    && (s.publishing.Some? ==>
          && s.publishing.value.todo <= s.streams && s.publishing.value.slow !! s.streams
          && s.publishing.value.slow <= s.connections.Keys
          && 0 < s.generation <= |s.batches|
          && s.publishing.value.message == ChangesMessage(s.generation, s.batches[s.generation - 1]))
  }

  ghost predicate Inv(s: Server) {
    && CacheInv(s) && PublishInv(s)
    && (forall id <- s.connections :: ConnectionInv(s, id))
  }
}
