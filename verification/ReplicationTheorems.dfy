/** What the replication system guarantees: in every run, any prefix of what a
    client was sent folds without an error into a node map the cache really had,
    and a registered client's replica is the cache. */
module ReplicationTheorems {
  import opened Wrappers
  import opened Node
  import opened NodeCache
  import opened NodeStreamClient
  import opened NodeRegistry
  import opened Replication
  import opened ReplicationSteps

  // ------------------------------------------------------------- folding a stream

  /** `r` is a replica of the node map `m` at generation `g`. */
  ghost predicate IsReplica(r: Result<StreamState, StreamError>, g: nat, m: NodeMap) {
    && r.Ok? && r.value.hasSnapshot && r.value.generation == g
    && DistinctNames(r.value.nodes) && ByName(r.value.nodes) == m
  }

  lemma FoldAppend(messages: seq<StreamMessage>, m: StreamMessage)
    requires Fold(messages).Ok?
    ensures Fold(messages + [m]) == Apply(Fold(messages).value, m)
  {
    assert (messages + [m])[..|messages|] == messages;
  }

  lemma {:induction false} FoldExpected(b: Baseline, history: seq<NodeMap>, batches: seq<seq<NodeChange>>, n: nat)
    requires GoodBaseline(b, history) && GoodBatches(history, batches) && b.generation + n <= |batches| <= MAX_SAFE
    ensures IsReplica(Fold(Expected(b, batches, n)), b.generation + n, history[b.generation + n])
  {
    hide GoodBatches, GoodBaseline, IsReplica, Fold, Expected;
    if n == 0 {
      FoldBaseline(b, history, batches);
    } else {
      FoldExpected(b, history, batches, n - 1);
      FoldNext(b, history, batches, n - 1);
    }
  }

  lemma FoldBaseline(b: Baseline, history: seq<NodeMap>, batches: seq<seq<NodeChange>>)
    requires GoodBaseline(b, history) && b.generation <= |batches| <= MAX_SAFE
    ensures IsReplica(Fold(Expected(b, batches, 0)), b.generation, history[b.generation])
  {
    var m := SnapshotMessage(b.generation, b.items);
    assert Expected(b, batches, 0) == [] + [m];
    FoldAppend([], m);
    assert forall x <- b.items :: CachedNode(Name(x), x, b.generation) && WellFormedNode(x);
  }

  lemma FoldNext(b: Baseline, history: seq<NodeMap>, batches: seq<seq<NodeChange>>, n: nat)
    requires GoodBatches(history, batches) && b.generation + n < |batches| <= MAX_SAFE
    requires IsReplica(Fold(Expected(b, batches, n)), b.generation + n, history[b.generation + n])
    ensures IsReplica(Fold(Expected(b, batches, n + 1)), b.generation + n + 1, history[b.generation + n + 1])
  {
    var g := b.generation + n;
    ExpectedNext(b, batches, n);
    FoldAppend(Expected(b, batches, n), ChangesMessage(g + 1, batches[g]));
    assert GoodBatch(history[g], history[g + 1], g + 1, batches[g]);
    hide GoodBatches, GoodBatch, Expected, Fold, Apply, DistinctNames, ByName;
    PatchMoves(Fold(Expected(b, batches, n)).value, history[g], history[g + 1], g + 1, batches[g]);
  }

  // ---------------------------------------------------------------- over whole runs

  lemma Reachable(steps: seq<Step>)
    requires Safe(START, steps)
    ensures Inv(Run(START, steps)) && Run(START, steps).generation <= MAX_SAFE
  {
    StartHolds();
    RunKeeps(START, steps);
  }

  lemma ReplicaAt(s: Server, id: nat, n: nat)
    requires Inv(s) && s.generation <= MAX_SAFE && id in s.connections && 0 < n <= |Sent(s.connections[id])|
    ensures id in s.baselines && s.baselines[id].generation + n - 1 <= s.generation == |s.history| - 1
    ensures var g := s.baselines[id].generation + n - 1; IsReplica(Fold(Sent(s.connections[id])[..n]), g, s.history[g])
  {
    ConnectionAt(s, id);
    SentIsExpected(s, id, n);
    assert CacheInv(s);
    hide Inv, ConnectionInv, PublishInv, GoodBatches, GoodBaseline, Since, CachedNodes, IsReplica, Sent, Expected, Fold;
    FoldExpected(s.baselines[id], s.history, s.batches, n - 1);
  }

  lemma SentIsExpected(s: Server, id: nat, n: nat)
    requires id in s.connections && ConnectionInv(s, id) && 0 < n <= |Sent(s.connections[id])|
    ensures id in s.baselines && GoodBaseline(s.baselines[id], s.history)
    ensures s.baselines[id].generation + n - 1 <= |s.batches|
    ensures Sent(s.connections[id])[..n] == Expected(s.baselines[id], s.batches, n - 1)
  {
    hide Sent, GoodBaseline;
  }

  lemma AllSent(s: Server, id: nat)
    requires Inv(s) && id in s.streams && !Pending(s, id)
    ensures id in s.connections && id in s.baselines && Sent(s.connections[id]) != []
    ensures s.baselines[id].generation + |Sent(s.connections[id])| - 1 == s.generation == |s.history| - 1
    ensures s.history[s.generation] == s.nodes
  {
    ConnectionAt(s, id);
    assert CacheInv(s);
    hide GoodBatches, GoodBaseline, Since, CachedNodes, Expected, Sent;
  }

  /** Folding everything the stream was sent gives the cache. */
  ghost predicate UpToDate(s: Server, id: nat) {
    id in s.connections && IsReplica(Fold(Sent(s.connections[id])), s.generation, s.nodes)
  }

  lemma UpToDateReplica(s: Server, id: nat)
    requires Inv(s) && s.generation <= MAX_SAFE && id in s.streams && !Pending(s, id)
    ensures UpToDate(s, id)
  {
    AllSent(s, id);
    var sent := Sent(s.connections[id]);
    ReplicaAt(s, id, |sent|);
    assert sent[..|sent|] == sent;
    hide *;
  }

  /** While a stream is registered and not about to be given the batch being
      published, folding what it was sent gives exactly the cache: generation,
      node map, and each node's own generation. */
  lemma {:induction false} ReplicaEquality(steps: seq<Step>, id: nat)
    requires Safe(START, steps)
    requires var s := Run(START, steps); id in s.streams && !Pending(s, id)
    ensures UpToDate(Run(START, steps), id)
  {
    Reachable(steps);
    hide Run, START;
    UpToDateReplica(Run(START, steps), id);
  }

  /** However far a reader has got, and whatever happened to its stream since,
      it has not thrown, and its replica is the node map of its generation. */
  lemma {:induction false} ReaderNeverThrows(steps: seq<Step>, id: nat, n: nat)
    requires Safe(START, steps) && id in Run(START, steps).connections
    requires 0 < n <= |Sent(Run(START, steps).connections[id])|
    ensures var s := Run(START, steps);
            var r := Fold(Sent(s.connections[id])[..n]);
            && r.Ok? && r.value.generation <= s.generation && |s.history| == s.generation + 1
            && IsReplica(r, r.value.generation, s.history[r.value.generation])
  {
    Reachable(steps);
    hide Inv, Run, START;
    ReplicaAt(Run(START, steps), id, n);
  }

  /** What the writer took off the queue is such a prefix. */
  lemma TakenIsPrefix(c: Connection)
    ensures Events(c.taken) <= Sent(c)
  {
    EventsAppend(c.taken, c.queue);
  }

  /** One snapshot at some generation, then every later batch, none skipped or
      repeated; the queue stays within its bound. */
  lemma {:induction false} GapFree(steps: seq<Step>, id: nat)
    requires Safe(START, steps) && id in Run(START, steps).connections
    ensures var s := Run(START, steps);
            var sent := Sent(s.connections[id]);
            && |s.connections[id].queue| <= s.connections[id].capacity
            && (sent != [] ==>
                  && sent[0].SnapshotMessage? && sent[0].generation + |sent| - 1 <= s.generation == |s.batches| == |s.history| - 1
                  && ByName(sent[0].nodes) == s.history[sent[0].generation]
                  && forall i :: 0 < i < |sent| ==>
                       sent[i] == ChangesMessage(sent[0].generation + i, s.batches[sent[0].generation + i - 1]))
  {
    hide Run, Inv, Safe, START, Sent, ByName;
    Reachable(steps);
    GapFreeNow(Run(START, steps), id);
  }

  lemma GapFreeNow(s: Server, id: nat)
    requires Inv(s) && id in s.connections
    ensures var sent := Sent(s.connections[id]);
            && |s.connections[id].queue| <= s.connections[id].capacity
            && (sent != [] ==>
                  && sent[0].SnapshotMessage? && sent[0].generation + |sent| - 1 <= s.generation == |s.batches| == |s.history| - 1
                  && ByName(sent[0].nodes) == s.history[sent[0].generation]
                  && forall i :: 0 < i < |sent| ==>
                       sent[i] == ChangesMessage(sent[0].generation + i, s.batches[sent[0].generation + i - 1]))
  {
    hide Inv, CacheInv, Sent, DistinctNames, ByName, CachedNode;
    ConnectionAt(s, id);
    InvLengths(s);
    var sent := Sent(s.connections[id]);
    if sent != [] {
      var b := s.baselines[id];
      assert sent[0] == Expected(b, s.batches, |sent| - 1)[0];
      forall i | 0 < i < |sent| ensures sent[i] == ChangesMessage(b.generation + i, s.batches[b.generation + i - 1]) {
        assert sent[i] == Expected(b, s.batches, |sent| - 1)[i];
      }
    }
  }

  lemma InvLengths(s: Server)
    requires Inv(s)
    ensures |s.history| == s.generation + 1 && |s.batches| == s.generation
  {
  }

  // -------------------------------------------------------------------- overflow

  /** The stream keeps its registration exactly when the batch went into its
      queue. */
  lemma PublishToOne(s: Server, id: nat, race: bool)
    requires Inv(s) && Pending(s, id)
    ensures id in s.connections && id in s.streams
    ensures var c := s.connections[id];
            var s' := PublishTo(s, id, race);
            var room := |c.queue| < c.capacity && !c.done && (!c.cancelled || race);
            && (id in s'.streams <==> room)
            && Sent(s'.connections[id]) == (if room then Sent(c) + [s.publishing.value.message] else Sent(c))
            && (!room ==> Slow(s', id))
  {
    SentEnqueued(s.connections[id], s.publishing.value.message, race);
  }

  ghost predicate Silent(s: Server, s': Server, id: nat)
    requires id in s.connections
  {
    && id in s'.connections && id !in s'.streams && Sent(s'.connections[id]) == Sent(s.connections[id])
    && (id !in s.closing ==> id !in s'.closing)
  }

  /** A stream that is not registered is never sent another event. */
  lemma StepSilent(s: Server, a: Step, id: nat)
    requires Inv(s) && id in s.connections && id !in s.streams
    ensures Silent(s, Next(s, a), id)
  {
    assert PublishInv(s);
    hide Inv, Refresh, PublishTo, CloseSlow, EndPublish, Register, Respond, Write, Cancel, MarkDone, Delete,
         DropAll, CloseDropped, Sent;
    hide PublishInv;
    match a
    case DoRefresh(listing, at, changes) => RefreshSilent(s, listing, at, changes);
    case DoPublishTo(j, race) => PublishToSilent(s, j, race, id);
    case DoCloseSlow(j) => CloseSlowSilent(s, j, id);
    case DoEndPublish => EndPublishSilent(s);
    case DoRegister(capacity, items, cancelled, race) => RegisterSilent(s, capacity, items, cancelled, race, id);
    case DoRespond(j, race) => RespondSilent(s, j, race, id);
    case DoWrite(j, ok) => WriteSilent(s, j, ok, id);
    case DoCancel(j) => CancelSilent(s, j, id);
    case DoMarkDone(j) => MarkDoneSilent(s, j, id);
    case DoDelete(j) => DeleteSilent(s, j, id);
    case DoDropAll => DropAllSilent(s, id);
    case DoCloseDropped(j) => CloseDroppedSilent(s, j, id);
  }

  lemma RefreshSilent(s: Server, listing: seq<SlurmNode>, at: int, changes: seq<NodeChange>)
    ensures Refresh(s, listing, at, changes).streams == s.streams && Refresh(s, listing, at, changes).closing == s.closing
    ensures Refresh(s, listing, at, changes).connections == s.connections
  {
  }

  lemma EndPublishSilent(s: Server)
    ensures EndPublish(s).streams == s.streams && EndPublish(s).connections == s.connections
    ensures EndPublish(s).closing == s.closing
  {
  }

  lemma PublishToSilent(s: Server, j: nat, race: bool, id: nat)
    requires PublishInv(s) && id in s.connections && id !in s.streams
    ensures Silent(s, PublishTo(s, j, race), id)
  {
    hide Sent, StreamEnqueue;
  }

  lemma CloseSlowSilent(s: Server, j: nat, id: nat)
    requires id in s.connections && id !in s.streams
    ensures Silent(s, CloseSlow(s, j), id)
  {
    SentClose(s.connections[id]);
    hide Sent, StreamClose;
  }

  lemma RegisterSilent(s: Server, capacity: nat, items: seq<Node>, cancelled: bool, race: bool, id: nat)
    requires PublishInv(s) && id in s.connections && id !in s.streams
    ensures Silent(s, Register(s, capacity, items, cancelled, race), id)
  {
    hide Sent, StreamEnqueue, StreamClose, Lists;
  }

  lemma RespondSilent(s: Server, j: nat, race: bool, id: nat)
    requires id in s.connections && id !in s.streams
    ensures Silent(s, Respond(s, j, race), id)
  {
    SentReply(s.connections[id], race);
    SentCancelled(EnqueueOutbound(s.connections[id], Reply, race).0);
    hide Sent, EnqueueOutbound;
  }

  lemma WriteSilent(s: Server, j: nat, ok: bool, id: nat)
    requires id in s.connections && id !in s.streams
    ensures Silent(s, Write(s, j, ok), id)
  {
    var c := s.connections[id];
    if c.queue != [] {
      assert c.taken + [c.queue[0]] + c.queue[1..] == c.taken + c.queue;
    }
  }

  lemma CancelSilent(s: Server, j: nat, id: nat)
    requires id in s.connections && id !in s.streams
    ensures Silent(s, Cancel(s, j), id)
  {
    SentCancelled(s.connections[id]);
    hide Sent;
  }

  lemma MarkDoneSilent(s: Server, j: nat, id: nat)
    requires id in s.connections && id !in s.streams
    ensures Silent(s, MarkDone(s, j), id)
  {
    SentCancelled(s.connections[id]);
    hide Sent;
  }

  lemma DeleteSilent(s: Server, j: nat, id: nat)
    requires id in s.connections && id !in s.streams
    ensures Silent(s, Delete(s, j), id)
  {
    hide Sent;
  }

  lemma DropAllSilent(s: Server, id: nat)
    requires id in s.connections && id !in s.streams
    ensures Silent(s, DropAll(s), id)
  {
  }

  lemma CloseDroppedSilent(s: Server, j: nat, id: nat)
    requires id in s.connections && id !in s.streams
    ensures Silent(s, CloseDropped(s, j), id)
  {
    SentClose(s.connections[id]);
    hide Sent, StreamClose;
  }

  lemma {:induction false} RunSilent(s: Server, steps: seq<Step>, id: nat)
    requires Inv(s) && Safe(s, steps) && id in s.connections && id !in s.streams
    ensures Silent(s, Run(s, steps), id)
    decreases |steps|
  {
    if steps != [] {
      StepSilent(s, steps[0], id);
      StepKeeps(s, steps[0]);
      RunSilent(Next(s, steps[0]), steps[1..], id);
    }
  }

  /** A full queue: the batch is not queued, the stream loses its registration,
      nothing is ever published to it again, and once the publication is over
      it is closed. */
  lemma {:induction false} OverflowCloses(steps: seq<Step>, id: nat, race: bool, later: seq<Step>)
    requires Safe(START, steps) && Safe(Next(Run(START, steps), DoPublishTo(id, race)), later)
    requires var s := Run(START, steps);
             Pending(s, id) && id in s.connections && |s.connections[id].queue| >= s.connections[id].capacity
    ensures var s := Run(START, steps);
            var t := Run(Next(s, DoPublishTo(id, race)), later);
            && id in t.connections && id !in t.streams && Sent(t.connections[id]) == Sent(s.connections[id])
            && (t.publishing.None? ==> t.connections[id].done)
  {
    var s := Run(START, steps);
    Reachable(steps);
    PublishToOne(s, id, race);
    StepKeeps(s, DoPublishTo(id, race));
    var s' := Next(s, DoPublishTo(id, race));
    RunSilent(s', later, id);
    RunKeeps(s', later);
    ConnectionAt(Run(s', later), id);
  }

  /** Shutting down: no stream that was registered is ever sent another event,
      and each is closed once its turn came. */
  lemma {:induction false} CloseAllEnds(steps: seq<Step>, id: nat, later: seq<Step>)
    requires Safe(START, steps) && Safe(Next(Run(START, steps), DoDropAll), later)
    requires var s := Run(START, steps);
             id in s.streams && id in s.connections && (s.publishing.Some? ==> s.publishing.value.todo == {})
    ensures var s := Run(START, steps);
            var t := Run(Next(s, DoDropAll), later);
            && id in t.connections && id !in t.streams && Sent(t.connections[id]) == Sent(s.connections[id])
            && (id !in t.closing && t.publishing.None? ==> t.connections[id].done)
  {
    hide Run, Inv, Sent, Safe;
    Reachable(steps);
    StepKeeps(Run(START, steps), DoDropAll);
    var s' := Next(Run(START, steps), DoDropAll);
    SafeNow(s', later);
    RunSilent(s', later, id);
    RunKeeps(s', later);
    ConnectionAt(Run(s', later), id);
  }

  lemma SafeNow(s: Server, steps: seq<Step>)
    requires Safe(s, steps)
    ensures s.generation <= MAX_SAFE
  {
  }

  // ------------------------------------------- the fine-grained steps and the method

  function PublishAll(s: Server, ids: seq<nat>, racing: set<nat>): Server
    decreases |ids|
  {
    if ids == [] then s else PublishAll(PublishTo(s, ids[0], ids[0] in racing), ids[1..], racing)
  }

  function CloseAllSlow(s: Server, ids: seq<nat>): Server
    decreases |ids|
  {
    if ids == [] then s else CloseAllSlow(CloseSlow(s, ids[0]), ids[1..])
  }

  ghost predicate Enumerates(ids: seq<nat>, of: set<nat>) {
    && (forall i :: i in ids <==> i in of)
    && (forall i, j :: 0 <= i < j < |ids| ==> ids[i] != ids[j])
  }

  lemma EnumeratesRest(ids: seq<nat>, of: set<nat>)
    requires Enumerates(ids, of) && ids != []
    ensures ids[0] in of && Enumerates(ids[1..], of - {ids[0]})
  {
    assert ids == [ids[0]] + ids[1..];
  }

  function Refused(s: Server, racing: set<nat>): set<nat>
    requires s.publishing.Some? && s.publishing.value.todo <= s.connections.Keys
  {
    var p := s.publishing.value;
    set i | i in p.todo && !StreamEnqueue(s.connections[i], Event(p.message), i in racing).1
  }

  lemma {:induction false} PublishAllDoes(s: Server, ids: seq<nat>, racing: set<nat>)
    requires s.publishing.Some? && s.publishing.value.todo <= s.connections.Keys && Enumerates(ids, s.publishing.value.todo)
    ensures var (t, p) := (PublishAll(s, ids, racing), s.publishing.value);
            && t.publishing == Some(p.(todo := {}, slow := p.slow + Refused(s, racing)))
            && t.streams == s.streams - Refused(s, racing) && t.connections.Keys == s.connections.Keys
            && (forall j <- s.connections ::
                  t.connections[j] == if j in p.todo then StreamEnqueue(s.connections[j], Event(p.message), j in racing).0
                                      else s.connections[j])
    decreases |ids|
  {
    var p := s.publishing.value;
    if ids == [] {
      assert p.todo == {} && Refused(s, racing) == {};
      assert p.(todo := {}, slow := p.slow + {}) == p;
      assert s.streams - {} == s.streams;
    } else {
      EnumeratesRest(ids, p.todo);
      var id := ids[0];
      var s' := PublishTo(s, id, id in racing);
      hide StreamEnqueue, Enumerates;
      PublishAllDoes(s', ids[1..], racing);
      var ok := StreamEnqueue(s.connections[id], Event(p.message), id in racing).1;
      assert Refused(s, racing) == Refused(s', racing) + (if ok then {} else {id});
      assert s'.publishing.value.slow + Refused(s', racing) == p.slow + Refused(s, racing);
      assert s'.streams - Refused(s', racing) == s.streams - Refused(s, racing);
    }
  }

  lemma {:induction false} CloseAllDoes(s: Server, ids: seq<nat>)
    requires s.publishing.Some? && s.publishing.value.todo == {} && s.publishing.value.slow <= s.connections.Keys
    requires Enumerates(ids, s.publishing.value.slow)
    ensures var (t, p) := (CloseAllSlow(s, ids), s.publishing.value);
            && t.publishing == Some(p.(slow := {})) && t.streams == s.streams && t.connections.Keys == s.connections.Keys
            && (forall j <- s.connections ::
                  t.connections[j] == if j in p.slow then StreamClose(s.connections[j]) else s.connections[j])
    decreases |ids|
  {
    if ids == [] {
      assert s.publishing.value.slow == {};
    } else {
      EnumeratesRest(ids, s.publishing.value.slow);
      hide StreamClose, Enumerates;
      CloseAllDoes(CloseSlow(s, ids[0]), ids[1..]);
    }
  }

  /** Serving the streams one by one and then closing the slow ones, each in any
      order, has the effect NodeStreamRegistry.Publish promises. */
  lemma StepsMatchPublish(s: Server, ids: seq<nat>, slow: seq<nat>, racing: set<nat>)
    requires PublishInv(s) && s.publishing.Some? && s.publishing.value.todo == s.streams && s.publishing.value.slow == {}
    requires Enumerates(ids, s.streams) && Enumerates(slow, Refused(s, racing))
    ensures var t := EndPublish(CloseAllSlow(PublishAll(s, ids, racing), slow));
            && t.publishing.None?
            && SentToAll(s.streams, s.connections, t.streams, t.connections, s.publishing.value.message, racing)
  {
    PublishAllDoes(s, ids, racing);
    var mid := PublishAll(s, ids, racing);
    assert {} + Refused(s, racing) == Refused(s, racing);
    CloseAllDoes(mid, slow);
    hide StreamEnqueue, Enumerates, PublishAll, CloseAllSlow;
  }

  function CloseAllDropped(s: Server, ids: seq<nat>): Server
    decreases |ids|
  {
    if ids == [] then s else CloseAllDropped(CloseDropped(s, ids[0]), ids[1..])
  }

  lemma {:induction false} CloseDroppedDoes(s: Server, ids: seq<nat>)
    requires s.closing <= s.connections.Keys && Enumerates(ids, s.closing)
    ensures var t := CloseAllDropped(s, ids);
            && t.closing == {} && t.streams == s.streams && t.connections.Keys == s.connections.Keys
            && (forall j <- s.connections ::
                  t.connections[j] == if j in s.closing then StreamClose(s.connections[j]) else s.connections[j])
    decreases |ids|
  {
    if ids == [] {
      assert s.closing == {};
    } else {
      EnumeratesRest(ids, s.closing);
      hide StreamClose, Enumerates;
      CloseDroppedDoes(CloseDropped(s, ids[0]), ids[1..]);
    }
  }

  /** Dropping all streams and closing them one by one in any order has the effect
      NodeStreamRegistry.CloseAll promises. */
  lemma {:induction false} StepsMatchCloseAll(s: Server, ids: seq<nat>)
    requires PublishInv(s) && s.closing == {} && (s.publishing.Some? ==> s.publishing.value.todo == {})
    requires Enumerates(ids, s.streams)
    ensures var t := CloseAllDropped(DropAll(s), ids);
            && t.streams == {} && t.connections.Keys == s.connections.Keys
            && (forall j <- s.connections ::
                  t.connections[j] == if j in s.streams then StreamClose(s.connections[j]) else s.connections[j])
  {
    hide StreamClose, Enumerates, CloseAllDropped;
    assert DropAll(s).closing == s.streams;
    CloseDroppedDoes(DropAll(s), ids);
  }

  // -------------------------------------------------------- generation discipline

  /** Every cached node carries the generation at which its state last changed:
      it has been exactly this node ever since, and was absent or in another
      state just before. */
  lemma GenerationOfNode(steps: seq<Step>, k: string)
    requires Safe(START, steps) && k in Run(START, steps).nodes
    ensures var s := Run(START, steps);
            var n := s.nodes[k];
            var g := n.metadata.generation;
            && |s.history| == s.generation + 1 && 1 <= g <= s.generation
            && (forall j :: g <= j <= s.generation ==> Holds(s.history[j], k, n))
            && (k in s.history[g - 1] ==> s.history[g - 1][k].spec != n.spec || s.history[g - 1][k].status != n.status)
  {
    Reachable(steps);
    assert Since(Run(START, steps).history, k, Run(START, steps).nodes[k]);
  }

  /** A refresh moves the generation by exactly one when the validated listing
      differs from the cache, and by nothing otherwise; afterwards the cache
      holds the listing's nodes, up to metadata. */
  lemma RefreshDiscipline(s: Server, listing: seq<SlurmNode>, observedAt: int, changes: seq<NodeChange>)
    requires Inv(s) && s.generation <= MAX_SAFE && s.publishing.None?
    requires IsDiff(s.nodes, Index(MapSlurmNodes(listing, observedAt)), s.generation + 1, changes)
    ensures var s' := Refresh(s, listing, observedAt, changes);
            var incoming := Index(MapSlurmNodes(listing, observedAt));
            if !ValidSnapshot(MapSlurmNodes(listing, observedAt)) then s' == s
            else
              && s'.generation == s.generation + (if Mirrors(s.nodes, MapSlurmNodes(listing, observedAt)) then 0 else 1)
              && s'.nodes.Keys == incoming.Keys
              && (forall k <- incoming :: s'.nodes[k].spec == incoming[k].spec && s'.nodes[k].status == incoming[k].status)
              && Mirrors(s'.nodes, MapSlurmNodes(listing, observedAt))
              && (s'.generation == s.generation ==> s' == s)
  {
    hide Inv, IsDiff, ValidSnapshot, Differs, Committed, Index, MapSlurmNodes, Mirrors, TakenOver;
    var incoming := Index(MapSlurmNodes(listing, observedAt));
    assert (s.generation + 1) % GENERATIONS == s.generation + 1;
    DiffEmpty(s.nodes, incoming, s.generation + 1, changes);
    CommittedMirrors(s.nodes, incoming, s.generation + 1);
    MirrorsIndex(s.nodes, MapSlurmNodes(listing, observedAt));
    CommittedTakesOver(s.nodes, MapSlurmNodes(listing, observedAt), s.generation + 1);
  }

  /** Up to metadata, what is committed is what came in. */
  lemma CommittedMirrors(before: NodeMap, incoming: NodeMap, g: nat)
    ensures Committed(before, incoming, g).Keys == incoming.Keys
    ensures forall k <- incoming ::
              Committed(before, incoming, g)[k].spec == incoming[k].spec && Committed(before, incoming, g)[k].status == incoming[k].status
  {
  }

  lemma DiffEmpty(before: NodeMap, incoming: NodeMap, g: nat, changes: seq<NodeChange>)
    requires IsDiff(before, incoming, g, changes)
    ensures changes == [] <==> !Differs(before, incoming)
    ensures changes == [] ==> before.Keys == incoming.Keys
    ensures changes == [] ==> forall k <- incoming :: before[k].spec == incoming[k].spec && before[k].status == incoming[k].status
  {
    if changes == [] {
      forall k ensures !Changed(before, incoming, k) {
        assert Changed(before, incoming, k) ==> Reported(changes, k);
      }
      forall k ensures (k in before <==> k in incoming) && (k in incoming ==> SameNodeState(before[k], incoming[k])) {
        assert !Changed(before, incoming, k);
      }
    } else {
      assert changes[0] in changes && Changed(before, incoming, ChangeKey(changes[0]));
    }
  }

  // ------------------------------------------------------ single steps and the methods

  /** A registration has the effect NodeStreamRegistry.Register promises: the
      baseline is queued and the stream registered, or the stream is closed. */
  lemma StepMatchesRegister(s: Server, capacity: nat, items: seq<Node>, cancelled: bool, race: bool)
    requires s.publishing.None? && capacity > 0 && Lists(items, s.nodes)
    ensures var (s', id) := (Register(s, capacity, items, cancelled, race), s.nextId);
            var m := SnapshotMessage(s.generation, items);
            if !cancelled || race then
              && s'.streams == s.streams + {id}
              && s'.connections == s.connections[id := Connection([Event(m)], capacity, [], cancelled, false, false)]
            else
              s'.streams == s.streams && s'.connections == s.connections[id := Connection([], capacity, [], true, false, true)]
  {
    hide Lists;
    var m := Event(SnapshotMessage(s.generation, items));
    assert [] + [m] == [m];
  }

  /** A response is queued if the connection is alive and its queue has room; if
      not, the connection ends. No other connection and no registration changes. */
  lemma RespondDoes(s: Server, id: nat, race: bool)
    requires id in s.connections
    ensures var (s', c) := (Respond(s, id, race), s.connections[id]);
            && s' == s.(connections := s'.connections) && s'.connections == s.connections[id := s'.connections[id]]
            && s'.connections[id] == (if |c.queue| < c.capacity && (!c.cancelled || race) then c.(queue := c.queue + [Reply])
                                      else c.(cancelled := true))
  {
  }
}
