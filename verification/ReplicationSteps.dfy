/** Every step of the replication system keeps its invariant. */
module ReplicationSteps {
  import opened Node
  import opened NodeCache
  import opened NodeStreamClient
  import opened NodeRegistry
  import opened Replication

  // ---------------------------------------------------------------- diff and patch

  /** What the adapter lists and the synchronizer accepts is fit for the client. */
  lemma ListingIsFit(listing: seq<SlurmNode>, observedAt: int)
    requires ValidSnapshot(MapSlurmNodes(listing, observedAt))
    ensures CachedNodes(Index(MapSlurmNodes(listing, observedAt)), 0)
  {
    var nodes := MapSlurmNodes(listing, observedAt);
    var m := Index(nodes);
    IndexKeyed(nodes);
    forall k <- m ensures CachedNode(k, m[k], 0) {
      var i :| 0 <= i < |nodes| && nodes[i] == m[k];
      assert nodes[i] == MapSlurmNode(listing[i], observedAt);
    }
  }

  /** The committed diff is a patch from the old map to the committed one, and
      its nodes are fit for the client. */
  lemma DiffIsPatch(before: NodeMap, incoming: NodeMap, g: nat, changes: seq<NodeChange>)
    requires 0 < g && CachedNodes(before, g - 1) && CachedNodes(incoming, 0) && IsDiff(before, incoming, g, changes)
    ensures IsPatch(before, Committed(before, incoming, g), changes)
    ensures forall c <- changes :: CachedNode(Name(c.node), c.node, g)
    ensures CachedNodes(Committed(before, incoming, g), g)
  {
    var after := Committed(before, incoming, g);
    forall c <- changes ensures Name(c.node) == ChangeKey(c) && PatchesKey(before, after, c) && CachedNode(Name(c.node), c.node, g) {
      assert c == ChangeFor(before, incoming, g, ChangeKey(c));
    }
    forall i, j | 0 <= i < j < |changes| ensures Name(changes[i].node) != Name(changes[j].node) {
      BeforeTotal(ChangeKey(changes[i]), ChangeKey(changes[j]));
    }
    forall k | !Mentions(changes, k) ensures (k in before <==> k in after) && (k in before ==> before[k] == after[k]) {
      assert Reported(changes, k) ==> Mentions(changes, k);
      assert !Changed(before, incoming, k);
    }
  }

  /** What is committed passes the registry's guard and the client's payload
      checks, and applying it to any listing of the old map lists the new one. */
  lemma DiffApplies(before: NodeMap, incoming: NodeMap, g: nat, changes: seq<NodeChange>, state: StreamState)
    requires 0 < g <= MAX_SAFE && CachedNodes(before, g - 1) && CachedNodes(incoming, 0)
    requires IsDiff(before, incoming, g, changes) && changes != []
    requires state.hasSnapshot && state.generation == g - 1 && DistinctNames(state.nodes) && ByName(state.nodes) == before
    ensures PublishGuard(NodeChangeBatch("node", "changes", g, changes))
    ensures ValidMessage(ChangesMessage(g, changes))
    ensures var r := Apply(state, ChangesMessage(g, changes));
            && r.Ok? && r.value.generation == g && r.value.hasSnapshot
            && DistinctNames(r.value.nodes) && ByName(r.value.nodes) == Committed(before, incoming, g)
  {
    var after := Committed(before, incoming, g);
    DiffIsPatch(before, incoming, g, changes);
    PatchMoves(state, before, after, g, changes);
  }

  /** A good batch moves a replica from one node map to the next. */
  lemma PatchMoves(state: StreamState, before: NodeMap, after: NodeMap, g: nat, changes: seq<NodeChange>)
    requires 0 < g <= MAX_SAFE && GoodBatch(before, after, g, changes)
    requires state.hasSnapshot && state.generation == g - 1 && DistinctNames(state.nodes) && ByName(state.nodes) == before
    ensures ValidMessage(ChangesMessage(g, changes))
    ensures var r := Apply(state, ChangesMessage(g, changes));
            && r.Ok? && r.value.generation == g && r.value.hasSnapshot
            && DistinctNames(r.value.nodes) && ByName(r.value.nodes) == after
  {
    FromEntriesKeeps(state.nodes);
    PatchApplies(state.nodes, before, after, changes);
    assert forall c <- changes :: CachedNode(Name(c.node), c.node, g) && WellFormedNode(c.node);
  }

  // ------------------------------------------------------------------- the baseline

  lemma {:induction false} IndexHolds(nodes: seq<Node>, i: nat)
    requires forall p, q :: 0 <= p < q < |nodes| ==> Identity(nodes[p]) != Identity(nodes[q])
    requires i < |nodes|
    ensures Holds(Index(nodes), Identity(nodes[i]), nodes[i])
  {
    var n := |nodes| - 1;
    if i < n {
      IndexHolds(nodes[..n], i);
    }
  }

  /** A snapshot of the cache, in any order, is a baseline for its generation. */
  lemma SnapshotIsBaseline(items: seq<Node>, m: NodeMap, g: nat)
    requires Lists(items, m) && CachedNodes(m, g)
    ensures DistinctNames(items) && ByName(items) == m
    ensures forall n <- items :: CachedNode(Name(n), n, g)
  {
    IndexKeyed(items);
    forall n <- items ensures CachedNode(Name(n), n, g) && Name(n) == Identity(n) {
      assert CachedNode(Identity(n), m[Identity(n)], g);
    }
    forall i, j | 0 <= i < j < |items| ensures Name(items[i]) != Name(items[j]) {
      assert items[i] in items && items[j] in items;
    }
    forall k ensures k in ByName(items) <==> k in m {
      ByNameIn(items, k);
      if k in m {
        assert m[k] in items && Identity(m[k]) == k;
      }
    }
    forall k <- m ensures ByName(items)[k] == m[k] {
      ByNameIn(items, k);
    }
  }

  // ---------------------------------------------------------------- the cache's part

  lemma SinceKept(history: seq<NodeMap>, m: NodeMap, k: string, n: Node)
    requires Since(history, k, n) && Holds(m, k, n)
    ensures Since(history + [m], k, n)
  {
  }

  lemma GoodBatchesAppend(history: seq<NodeMap>, batches: seq<seq<NodeChange>>, m: NodeMap, changes: seq<NodeChange>)
    requires GoodBatches(history, batches) && GoodBatch(history[|batches|], m, |batches| + 1, changes)
    ensures GoodBatches(history + [m], batches + [changes])
  {
    hide GoodBatch;
    var (h, b) := (history + [m], batches + [changes]);
    forall g | 0 <= g < |b| ensures GoodBatch(h[g], h[g + 1], g + 1, b[g]) {
      if g < |batches| {
        assert GoodBatch(history[g], history[g + 1], g + 1, batches[g]);
      }
    }
  }

  /** A committed node's generation is right: an unchanged node kept its own, a
      changed one starts now. */
  lemma SinceCommitted(s: Server, incoming: NodeMap, g: nat, k: string)
    requires CacheInv(s) && g == s.generation + 1 && k in incoming
    ensures Since(s.history + [Committed(s.nodes, incoming, g)], k, Committed(s.nodes, incoming, g)[k])
  {
    hide GoodBatches;
    var m := Committed(s.nodes, incoming, g);
    if k in s.nodes && SameNodeState(s.nodes[k], incoming[k]) {
      SinceKept(s.history, m, k, m[k]);
    } else {
      var h := s.history + [m];
      assert h[g] == m && h[g - 1] == s.nodes;
    }
  }

  lemma RefreshCache(s: Server, listing: seq<SlurmNode>, observedAt: int, changes: seq<NodeChange>)
    requires CacheInv(s) && s.generation <= MAX_SAFE
    ensures CacheInv(Refresh(s, listing, observedAt, changes))
  {
    var nodes := MapSlurmNodes(listing, observedAt);
    var incoming := Index(nodes);
    var g := s.generation + 1;
    var s' := Refresh(s, listing, observedAt, changes);
    assert g % GENERATIONS == g;
    if s' != s {
      var after := Committed(s.nodes, incoming, g);
      ListingIsFit(listing, observedAt);
      DiffIsPatch(s.nodes, incoming, g, changes);
      GoodBatchesAppend(s.history, s.batches, after, changes);
      forall k <- after ensures Since(s'.history, k, after[k]) {
        SinceCommitted(s, incoming, g, k);
      }
      hide Since, GoodBatches, IsDiff, ValidSnapshot, CachedNodes;
    }
  }

  // ----------------------------------------------------------- the connections' part

  lemma ExpectedStable(b: Baseline, batches: seq<seq<NodeChange>>, more: seq<seq<NodeChange>>, n: nat)
    requires b.generation + n <= |batches|
    ensures Expected(b, batches + more, n) == Expected(b, batches, n)
  {
  }

  lemma ExpectedNext(b: Baseline, batches: seq<seq<NodeChange>>, n: nat)
    requires b.generation + n < |batches|
    ensures Expected(b, batches, n + 1)
            == Expected(b, batches, n) + [ChangesMessage(b.generation + n + 1, batches[b.generation + n])]
  {
  }

  lemma RefreshConnection(s: Server, s': Server, after: NodeMap, changes: seq<NodeChange>, id: nat)
    requires id in s.connections && ConnectionInv(s, id) && s.publishing.None? && |s.batches| == s.generation
    requires s'.history == s.history + [after] && s'.batches == s.batches + [changes] && s'.generation == s.generation + 1
    requires s'.connections == s.connections && s'.streams == s.streams && s'.baselines == s.baselines
    requires s'.publishing.Some? && s'.publishing.value.todo == s.streams && s'.closing == s.closing
    ensures ConnectionInv(s', id)
  {
    hide Sent, DistinctNames, ByName, CachedNode;
    if id in s.baselines {
      ExpectedStable(s.baselines[id], s.batches, [changes], |Sent(s.connections[id])| - 1);
    }
  }

  lemma CacheLengths(s: Server)
    requires CacheInv(s)
    ensures |s.history| == s.generation + 1 && |s.batches| == s.generation
  {
  }

  lemma RefreshKeeps(s: Server, listing: seq<SlurmNode>, observedAt: int, changes: seq<NodeChange>)
    requires Inv(s) && s.generation <= MAX_SAFE
    ensures Inv(Refresh(s, listing, observedAt, changes))
  {
    RefreshCache(s, listing, observedAt, changes);
    CacheLengths(s);
    var s' := Refresh(s, listing, observedAt, changes);
    assert (s.generation + 1) % GENERATIONS == s.generation + 1;
    if s' != s {
      hide CacheInv, ConnectionInv, IsDiff, ValidSnapshot;
      forall id <- s'.connections ensures ConnectionInv(s', id) {
        RefreshConnection(s, s', s'.nodes, changes, id);
      }
      assert PublishInv(s');
    }
  }

  /** One enqueued event extends what the reader will see. */
  lemma SentEnqueued(c: Connection, m: StreamMessage, race: bool)
    ensures var (c', ok) := StreamEnqueue(c, Event(m), race);
            Sent(c') == Sent(c) + (if ok then [m] else [])
  {
    EventsAppend(c.taken + c.queue, [Event(m)]);
    assert c.taken + (c.queue + [Event(m)]) == c.taken + c.queue + [Event(m)];
    assert [Event(m)][..0] == [];
  }

  lemma SentReply(c: Connection, race: bool)
    ensures Sent(EnqueueOutbound(c, Reply, race).0) == Sent(c)
  {
    EventsAppend(c.taken + c.queue, [Reply]);
    assert c.taken + (c.queue + [Reply]) == c.taken + c.queue + [Reply];
    assert [Reply][..0] == [];
  }

  lemma SameCache(s: Server, s': Server)
    requires CacheInv(s)
    requires s'.generation == s.generation && s'.nodes == s.nodes && s'.history == s.history && s'.batches == s.batches
    ensures CacheInv(s')
  {
  }

  lemma ConnectionAt(s: Server, id: nat)
    requires Inv(s) && id in s.connections
    ensures ConnectionInv(s, id)
  {
  }

  /** A connection whose events and registration a step leaves alone. */
  lemma ConnectionCarries(s: Server, s': Server, j: nat)
    requires j in s.connections && j in s'.connections && ConnectionInv(s, j)
    requires s'.generation == s.generation && s'.history == s.history && s'.batches == s.batches
    requires if j in s.baselines then j in s'.baselines && s'.baselines[j] == s.baselines[j] else j !in s'.baselines
    requires Sent(s'.connections[j]) == Sent(s.connections[j]) && |s'.connections[j].queue| <= s'.connections[j].capacity
    requires j in s'.streams ==> j in s.streams && Pending(s', j) == Pending(s, j)
    requires j in s.streams || s.connections[j].done || Slow(s, j) || j in s.closing ==>
               j in s'.streams || s'.connections[j].done || Slow(s', j) || j in s'.closing
    ensures ConnectionInv(s', j)
  {
    hide Sent, GoodBaseline, Expected, Pending, Slow;
  }

  lemma PublishToKeeps(s: Server, id: nat, race: bool)
    requires Inv(s)
    ensures Inv(PublishTo(s, id, race))
  {
    var s' := PublishTo(s, id, race);
    if s' != s {
      forall j <- s'.connections ensures ConnectionInv(s', j) {
        PublishToConnection(s, id, race, j);
      }
      SameCache(s, s');
      PublishToLocked(s, id, race);
      hide CacheInv, ConnectionInv, PublishInv, PublishTo;
    }
  }

  lemma PublishToLocked(s: Server, id: nat, race: bool)
    requires PublishInv(s)
    ensures PublishInv(PublishTo(s, id, race))
  {
    hide StreamEnqueue;
  }

  lemma PublishToConnection(s: Server, id: nat, race: bool, j: nat)
    requires Inv(s) && j in s.connections
    requires s.publishing.Some? && id in s.publishing.value.todo && id in s.connections
    ensures ConnectionInv(PublishTo(s, id, race), j)
  {
    ConnectionAt(s, j);
    CacheLengths(s);
    var s' := PublishTo(s, id, race);
    if j == id {
      assert PublishInv(s) && id in s.streams;
      hide Inv;
      PublishToSelf(s, id, race);
    } else {
      ConnectionFits(s, j);
      hide Inv, CacheInv, ConnectionInv, Sent, StreamEnqueue;
      ConnectionCarries(s, s', j);
    }
  }

  lemma ConnectionFits(s: Server, j: nat)
    requires j in s.connections && ConnectionInv(s, j)
    ensures |s.connections[j].queue| <= s.connections[j].capacity
  {
  }

  lemma PublishToSelf(s: Server, id: nat, race: bool)
    requires id in s.connections && ConnectionInv(s, id) && PublishInv(s) && |s.batches| == s.generation
    requires s.publishing.Some? && id in s.publishing.value.todo && id in s.streams
    ensures ConnectionInv(PublishTo(s, id, race), id)
  {
    var s' := PublishTo(s, id, race);
    hide Sent, GoodBaseline, Expected;
    var c := s.connections[id];
    var (c', ok) := StreamEnqueue(c, Event(s.publishing.value.message), race);
    SentEnqueued(c, s.publishing.value.message, race);
    if ok {
      var b := s.baselines[id];
      ExpectedNext(b, s.batches, |Sent(c)| - 1);
    } else {
      assert c' == c;
    }
  }

  lemma RegisterKeeps(s: Server, capacity: nat, items: seq<Node>, cancelled: bool, race: bool)
    requires Inv(s)
    ensures Inv(Register(s, capacity, items, cancelled, race))
  {
    var s' := Register(s, capacity, items, cancelled, race);
    if s' != s {
      SnapshotIsBaseline(items, s.nodes, s.generation);
      forall j <- s'.connections ensures ConnectionInv(s', j) {
        RegisterConnection(s, capacity, items, cancelled, race, j);
      }
      SameCache(s, s');
      RegisterLocked(s, capacity, items, cancelled, race);
      hide CacheInv, ConnectionInv, PublishInv, Lists, Register;
    }
  }

  lemma RegisterLocked(s: Server, capacity: nat, items: seq<Node>, cancelled: bool, race: bool)
    requires PublishInv(s)
    ensures PublishInv(Register(s, capacity, items, cancelled, race))
  {
    hide Lists, StreamEnqueue, StreamClose;
  }

  lemma RegisterConnection(s: Server, capacity: nat, items: seq<Node>, cancelled: bool, race: bool, j: nat)
    requires Inv(s) && s.publishing.None? && capacity > 0 && Lists(items, s.nodes)
    requires j in s.connections || j == s.nextId
    requires GoodBaseline(Baseline(s.generation, items), s.history)
    ensures ConnectionInv(Register(s, capacity, items, cancelled, race), j)
  {
    var s' := Register(s, capacity, items, cancelled, race);
    if j == s.nextId {
      CacheLengths(s);
      assert PublishInv(s);
      hide Inv, CacheInv, ConnectionInv, Sent, GoodBaseline, Lists;
      RegisterSelf(s, capacity, items, cancelled, race);
    } else {
      ConnectionAt(s, j);
      ConnectionFits(s, j);
      hide Inv, CacheInv, ConnectionInv, Sent, GoodBaseline, Lists, StreamEnqueue, StreamClose;
      ConnectionCarries(s, s', j);
    }
  }

  lemma RegisterSelf(s: Server, capacity: nat, items: seq<Node>, cancelled: bool, race: bool)
    requires PublishInv(s) && s.publishing.None? && capacity > 0 && Lists(items, s.nodes) && |s.batches| == s.generation
    requires GoodBaseline(Baseline(s.generation, items), s.history)
    ensures ConnectionInv(Register(s, capacity, items, cancelled, race), s.nextId)
  {
    hide CacheInv, ConnectionInv, Sent, GoodBaseline, Lists;
    var c := Connection([], capacity, [], cancelled, false, false);
    var (c', ok) := StreamEnqueue(c, Event(SnapshotMessage(s.generation, items)), race);
    SentEnqueued(c, SnapshotMessage(s.generation, items), race);
    NothingSent(c);
    SentClose(c');
    RegisterNew(s, capacity, items, cancelled, race);
  }

  lemma RegisterNew(s: Server, capacity: nat, items: seq<Node>, cancelled: bool, race: bool)
    requires s.publishing.None? && capacity > 0 && Lists(items, s.nodes) && |s.batches| == s.generation
    requires s.nextId !in s.streams && s.nextId !in s.baselines && GoodBaseline(Baseline(s.generation, items), s.history)
    requires var s' := Register(s, capacity, items, cancelled, race);
             Sent(s'.connections[s.nextId])
             == if s.nextId in s'.streams then [SnapshotMessage(s.generation, items)] else []
    ensures ConnectionInv(Register(s, capacity, items, cancelled, race), s.nextId)
  {
    hide Sent, GoodBaseline, Lists;
    var s' := Register(s, capacity, items, cancelled, race);
    assert Expected(Baseline(s.generation, items), s.batches, 0) == [SnapshotMessage(s.generation, items)];
  }

  lemma InvOf(s: Server)
    requires CacheInv(s) && PublishInv(s) && forall id <- s.connections :: ConnectionInv(s, id)
    ensures Inv(s)
  {
  }

  lemma ClosedStays(c: Connection)
    ensures StreamClose(c).done && StreamClose(c).queue == c.queue && StreamClose(c).capacity == c.capacity
  {
  }

  lemma NothingSent(c: Connection)
    requires c.queue == [] && c.taken == []
    ensures Sent(c) == []
  {
  }

  lemma SentClose(c: Connection)
    ensures Sent(StreamClose(c)) == Sent(c)
  {
  }

  /** A step that only touches one connection, and neither its events nor its
      registration. */
  predicate Touches(s: Server, s': Server, id: nat) {
    && id in s.connections && s'.connections.Keys == s.connections.Keys
    && (forall j <- s.connections | j != id :: s'.connections[j] == s.connections[j])
    && s' == s.(connections := s'.connections)
    && Sent(s'.connections[id]) == Sent(s.connections[id])
    && |s'.connections[id].queue| <= s'.connections[id].capacity
    && (s.connections[id].done ==> s'.connections[id].done)
  }

  lemma TouchKeeps(s: Server, s': Server, id: nat)
    requires Inv(s) && Touches(s, s', id)
    ensures Inv(s')
  {
    SameCache(s, s');
    forall j <- s'.connections ensures ConnectionInv(s', j) {
      ConnectionAt(s, j);
      ConnectionFits(s, j);
      hide Inv, CacheInv, ConnectionInv, Sent;
      ConnectionCarries(s, s', j);
    }
    hide CacheInv, ConnectionInv, Sent;
  }

  lemma RespondKeeps(s: Server, id: nat, race: bool)
    requires Inv(s)
    ensures Inv(Respond(s, id, race))
  {
    if id in s.connections {
      ConnectionAt(s, id);
      ConnectionFits(s, id);
      hide Inv, ConnectionInv, Sent;
      var c := s.connections[id];
      SentReply(c, race);
      SentCancelled(c);
      TouchKeeps(s, Respond(s, id, race), id);
    }
  }

  lemma SentCancelled(c: Connection)
    ensures Sent(c.(cancelled := true)) == Sent(c) == Sent(StreamUnregister(c))
  {
  }

  lemma WriteKeeps(s: Server, id: nat, ok: bool)
    requires Inv(s)
    ensures Inv(Write(s, id, ok))
  {
    var s' := Write(s, id, ok);
    if s' != s {
      ConnectionAt(s, id);
      ConnectionFits(s, id);
      hide Inv, ConnectionInv;
      var c := s.connections[id];
      assert c.taken + [c.queue[0]] + c.queue[1..] == c.taken + c.queue;
      TouchKeeps(s, s', id);
    }
  }

  lemma CancelKeeps(s: Server, id: nat)
    requires Inv(s)
    ensures Inv(Cancel(s, id))
  {
    if id in s.connections {
      ConnectionAt(s, id);
      ConnectionFits(s, id);
      hide Inv, ConnectionInv, Sent;
      SentCancelled(s.connections[id]);
      TouchKeeps(s, Cancel(s, id), id);
    }
  }

  lemma MarkDoneKeeps(s: Server, id: nat)
    requires Inv(s)
    ensures Inv(MarkDone(s, id))
  {
    if id in s.connections {
      ConnectionAt(s, id);
      ConnectionFits(s, id);
      hide Inv, ConnectionInv, Sent;
      SentCancelled(s.connections[id]);
      TouchKeeps(s, MarkDone(s, id), id);
    }
  }

  lemma DeleteKeeps(s: Server, id: nat)
    requires Inv(s)
    ensures Inv(Delete(s, id))
  {
    var s' := Delete(s, id);
    if s' != s {
      SameCache(s, s');
      assert PublishInv(s);
      hide Inv, CacheInv, ConnectionInv, Sent;
      forall j <- s'.connections ensures ConnectionInv(s', j) {
        ConnectionAt(s, j);
        ConnectionFits(s, j);
        ConnectionCarries(s, s', j);
      }
      InvOf(s');
    }
  }

  lemma CloseSlowKeeps(s: Server, id: nat)
    requires Inv(s)
    ensures Inv(CloseSlow(s, id))
  {
    var s' := CloseSlow(s, id);
    if s' != s {
      SameCache(s, s');
      assert PublishInv(s);
      hide Inv, CacheInv, ConnectionInv, Sent, StreamClose;
      SentClose(s.connections[id]);
      ClosedStays(s.connections[id]);
      forall j <- s'.connections ensures ConnectionInv(s', j) {
        ConnectionAt(s, j);
        ConnectionFits(s, j);
        ConnectionCarries(s, s', j);
      }
      InvOf(s');
    }
  }

  lemma EndPublishKeeps(s: Server)
    requires Inv(s)
    ensures Inv(EndPublish(s))
  {
    var s' := EndPublish(s);
    if s' != s {
      SameCache(s, s');
      assert PublishInv(s);
      hide Inv, CacheInv, ConnectionInv, Sent;
      forall j <- s'.connections ensures ConnectionInv(s', j) {
        ConnectionAt(s, j);
        ConnectionFits(s, j);
        ConnectionCarries(s, s', j);
      }
      InvOf(s');
    }
  }

  lemma DropAllKeeps(s: Server)
    requires Inv(s)
    ensures Inv(DropAll(s))
  {
    var s' := DropAll(s);
    if s' != s {
      SameCache(s, s');
      assert PublishInv(s);
      hide Inv, CacheInv, ConnectionInv, Sent;
      forall j <- s'.connections ensures ConnectionInv(s', j) {
        ConnectionAt(s, j);
        ConnectionFits(s, j);
        ConnectionCarries(s, s', j);
      }
      InvOf(s');
    }
  }

  lemma CloseDroppedKeeps(s: Server, id: nat)
    requires Inv(s)
    ensures Inv(CloseDropped(s, id))
  {
    var s' := CloseDropped(s, id);
    if s' != s {
      SameCache(s, s');
      assert PublishInv(s);
      hide Inv, CacheInv, ConnectionInv, Sent, StreamClose;
      SentClose(s.connections[id]);
      ClosedStays(s.connections[id]);
      forall j <- s'.connections ensures ConnectionInv(s', j) {
        ConnectionAt(s, j);
        ConnectionFits(s, j);
        ConnectionCarries(s, s', j);
      }
      InvOf(s');
    }
  }

  lemma StepKeeps(s: Server, a: Step)
    requires Inv(s) && s.generation <= MAX_SAFE
    ensures Inv(Next(s, a)) && Next(s, a).generation <= s.generation + 1
  {
    hide Inv;
    match a
    case DoRefresh(listing, at, changes) => RefreshKeeps(s, listing, at, changes);
    case DoPublishTo(id, race) => PublishToKeeps(s, id, race);
    case DoCloseSlow(id) => CloseSlowKeeps(s, id);
    case DoEndPublish => EndPublishKeeps(s);
    case DoRegister(capacity, items, cancelled, race) => RegisterKeeps(s, capacity, items, cancelled, race);
    case DoRespond(id, race) => RespondKeeps(s, id, race);
    case DoWrite(id, ok) => WriteKeeps(s, id, ok);
    case DoCancel(id) => CancelKeeps(s, id);
    case DoMarkDone(id) => MarkDoneKeeps(s, id);
    case DoDelete(id) => DeleteKeeps(s, id);
    case DoDropAll => DropAllKeeps(s);
    case DoCloseDropped(id) => CloseDroppedKeeps(s, id);
  }

  lemma {:induction false} RunKeeps(s: Server, steps: seq<Step>)
    requires Inv(s) && Safe(s, steps)
    ensures Inv(Run(s, steps)) && Run(s, steps).generation <= MAX_SAFE
    decreases |steps|
  {
    hide Inv, Next;
    if steps != [] {
      StepKeeps(s, steps[0]);
      RunKeeps(Next(s, steps[0]), steps[1..]);
    }
  }

  /** A run that is not longer than the safe integers reach is safe. */
  lemma {:induction false} ShortRunsAreSafe(s: Server, steps: seq<Step>)
    requires Inv(s) && s.generation + |steps| <= MAX_SAFE
    ensures Safe(s, steps)
    decreases |steps|
  {
    hide Inv, Next;
    if steps != [] {
      StepKeeps(s, steps[0]);
      ShortRunsAreSafe(Next(s, steps[0]), steps[1..]);
    }
  }

  lemma StartHolds()
    ensures Inv(START)
  {
  }
}
