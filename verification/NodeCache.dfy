/** The authoritative node cache of internal/resource/node_cache.go and the
    synchronizer's snapshot check of internal/resource/node_synchronizer.go. */
module NodeCache {
  import opened Wrappers
  import opened Node

  // --------------------------------------------- what a commit does to the node map

  /** The incoming slice as a map; a later node replaces an earlier one. */
  function Index(nodes: seq<Node>): NodeMap {
    if nodes == [] then map[]
    else Index(nodes[..|nodes| - 1])[Identity(nodes[|nodes| - 1]) := nodes[|nodes| - 1]]
  }

  /** Every node is stored under its own identity. */
  ghost predicate Keyed(m: NodeMap) {
    forall k <- m :: Identity(m[k]) == k
  }

  lemma {:induction false} IndexKeyed(nodes: seq<Node>)
    ensures Keyed(Index(nodes))
    ensures forall k <- Index(nodes) :: Index(nodes)[k] in nodes
  {
    if nodes != [] {
      IndexKeyed(nodes[..|nodes| - 1]);
    }
  }

  lemma IndexAppend(nodes: seq<Node>, n: Node)
    ensures Index(nodes + [n]) == Index(nodes)[Identity(n) := n]
  {
    assert (nodes + [n])[..|nodes|] == nodes;
  }

  predicate Changed(old_: NodeMap, incoming: NodeMap, k: string) {
    if k in incoming then k !in old_ || !SameNodeState(old_[k], incoming[k]) else k in old_
  }

  ghost predicate Differs(old_: NodeMap, incoming: NodeMap) {
    exists k :: Changed(old_, incoming, k)
  }

  /** The change reported for a changed key. */
  function ChangeFor(old_: NodeMap, incoming: NodeMap, generation: nat, k: string): NodeChange
    requires Changed(old_, incoming, k)
  {
    if k !in incoming then NodeChange(NodeRemoved, old_[k])
    else NodeChange(if k in old_ then NodeUpdated else NodeAdded, Stamped(incoming[k], generation))
  }

  /** An unchanged node keeps its old metadata; a changed one is stamped. */
  function Committed(old_: NodeMap, incoming: NodeMap, generation: nat): NodeMap {
    map k | k in incoming ::
      if k in old_ && SameNodeState(old_[k], incoming[k]) then old_[k] else Stamped(incoming[k], generation)
  }

  /** `changes` is the sorted list of exactly the changed keys' changes. */
  ghost predicate IsDiff(old_: NodeMap, incoming: NodeMap, generation: nat, changes: seq<NodeChange>) {
    && StrictlySorted(changes)
    && (forall c <- changes :: Changed(old_, incoming, ChangeKey(c)) && c == ChangeFor(old_, incoming, generation, ChangeKey(c)))
    && (forall k :: Changed(old_, incoming, k) ==> Reported(changes, k))
  }

  ghost predicate Reported(changes: seq<NodeChange>, k: string) {
    exists c <- changes :: ChangeKey(c) == k
  }

  /** Map iteration order leaves no trace: there is only one such list. */
  lemma {:induction false} DiffUnique(old_: NodeMap, incoming: NodeMap, generation: nat, a: seq<NodeChange>, b: seq<NodeChange>)
    requires IsDiff(old_, incoming, generation, a) && IsDiff(old_, incoming, generation, b)
    ensures a == b
  {
    forall c ensures c in a <==> c in b {
      if c in a {
        assert Reported(b, ChangeKey(c));
      }
      if c in b {
        assert Reported(a, ChangeKey(c));
      }
    }
    SortedUnique(a, b);
  }

  lemma {:induction false} SortedUnique(a: seq<NodeChange>, b: seq<NodeChange>)
    requires StrictlySorted(a) && StrictlySorted(b) && (forall c :: c in a <==> c in b)
    ensures a == b
    decreases |a|
  {
    SomeMember(b);
    if a != [] {
      assert a[0] in b && b[0] in a;
      FirstIsLeast(a, b[0]);
      FirstIsLeast(b, a[0]);
      BeforeTotal(ChangeKey(a[0]), ChangeKey(b[0]));
      assert a[0] == b[0];
      forall c ensures c in a[1..] <==> c in b[1..] {
        NotRepeated(a);
        NotRepeated(b);
        assert c in a <==> c == a[0] || c in a[1..];
        assert c in b <==> c == b[0] || c in b[1..];
      }
      SortedUnique(a[1..], b[1..]);
      assert a == [a[0]] + a[1..] && b == [b[0]] + b[1..];
    }
  }

  lemma SomeMember(s: seq<NodeChange>)
    ensures s == [] || exists c :: c in s
  {
    if s != [] {
      assert s[0] in s;
    }
  }

  lemma FirstIsLeast(s: seq<NodeChange>, c: NodeChange)
    requires StrictlySorted(s) && c in s
    ensures c == s[0] || Before(ChangeKey(s[0]), ChangeKey(c))
  {
  }

  lemma NotRepeated(s: seq<NodeChange>)
    requires StrictlySorted(s) && s != []
    ensures s[0] !in s[1..]
  {
    if s[0] in s[1..] {
      var i :| 0 < i < |s| && s[i] == s[0];
      BeforeTotal(ChangeKey(s[0]), ChangeKey(s[i]));
    }
  }

  // --------------------------------------------------- a commit, said field by field

  /** The listed node counts: no later one has its name. */
  ghost predicate Counts(listing: seq<Node>, i: nat) {
    i < |listing| && forall j :: i < j < |listing| ==> Identity(listing[j]) != Identity(listing[i])
  }

  ghost predicate Listed(listing: seq<Node>, k: string) {
    exists i :: 0 <= i < |listing| && Identity(listing[i]) == k
  }

  /** A node is stored as `n` has it, up to metadata. */
  predicate Stored(m: NodeMap, n: Node) {
    Identity(n) in m && m[Identity(n)].spec == n.spec && m[Identity(n)].status == n.status
  }

  /** The map holds exactly the listed nodes, each with its specification and its
      status as listed. */
  ghost predicate Mirrors(m: NodeMap, listing: seq<Node>) {
    (forall k <- m :: Listed(listing, k)) && forall i: nat | Counts(listing, i) :: Stored(m, listing[i])
  }

  /** A node listed with the specification and status it had is kept as it was;
      any other is taken over under the new generation. */
  ghost predicate TakenOver(before: NodeMap, m: NodeMap, listing: seq<Node>, generation: nat) {
    forall i: nat | Counts(listing, i) ::
      var (n, k) := (listing[i], Identity(listing[i]));
      k in m && m[k] == if Stored(before, n) then before[k] else n.(metadata := n.metadata.(generation := generation))
  }

  /** What one change says about the maps before and after. */
  predicate Tells(before: NodeMap, after: NodeMap, c: NodeChange) {
    var k := Identity(c.node);
    match c.kind
    case NodeAdded => k !in before && k in after && c.node == after[k]
    case NodeRemoved => k in before && k !in after && c.node == before[k]
    case NodeUpdated => k in before && k in after && c.node == after[k] && !Stored(before, after[k])
  }

  lemma {:induction false} IndexListed(listing: seq<Node>, k: string)
    requires k in Index(listing)
    ensures Listed(listing, k)
  {
    var n := |listing| - 1;
    if k == Identity(listing[n]) {
      assert Listed(listing, k);
    } else {
      IndexListed(listing[..n], k);
    }
  }

  lemma {:induction false} IndexCounts(listing: seq<Node>, i: nat)
    requires Counts(listing, i)
    ensures InPlace(Index(listing), listing[i])
  {
    var n := |listing| - 1;
    if i < n {
      IndexCounts(listing[..n], i);
    }
  }

  predicate InPlace(m: NodeMap, n: Node) {
    Identity(n) in m && m[Identity(n)] == n
  }

  lemma {:induction false} SomeCounts(listing: seq<Node>, k: string) returns (i: nat)
    requires Listed(listing, k)
    ensures Counts(listing, i) && Identity(listing[i]) == k
  {
    i := |listing| - 1;
    if Identity(listing[i]) != k {
      var front := listing[..i];
      i := SomeCounts(front, k);
      assert forall j :: i < j < |front| ==> front[j] == listing[j];
    }
  }

  /** The map of a listing, told apart by specification and status. */
  lemma MirrorsIndex(m: NodeMap, listing: seq<Node>)
    ensures Mirrors(m, listing) <==> !Differs(m, Index(listing))
  {
    var incoming := Index(listing);
    forall k <- incoming ensures Listed(listing, k) {
      IndexListed(listing, k);
    }
    forall i: nat | Counts(listing, i) ensures InPlace(incoming, listing[i]) {
      IndexCounts(listing, i);
    }
    hide Index, Identity, Listed;
    if Mirrors(m, listing) {
      forall k ensures !Changed(m, incoming, k) {
        if k in m || k in incoming {
          var i := SomeCounts(listing, k);
          assert Stored(m, listing[i]) && InPlace(incoming, listing[i]);
        }
      }
    }
    if !Differs(m, incoming) {
      forall k <- m ensures Listed(listing, k) {
        assert !Changed(m, incoming, k);
      }
      forall i: nat | Counts(listing, i) ensures Stored(m, listing[i]) {
        assert InPlace(incoming, listing[i]) && !Changed(m, incoming, Identity(listing[i]));
      }
    }
  }

  lemma CommittedTakesOver(before: NodeMap, listing: seq<Node>, generation: nat)
    ensures TakenOver(before, Committed(before, Index(listing), generation), listing, generation)
    ensures Mirrors(Committed(before, Index(listing), generation), listing)
  {
    var m := Committed(before, Index(listing), generation);
    hide Index, Identity;
    forall k ensures !Changed(m, Index(listing), k) {
    }
    MirrorsIndex(m, listing);
    forall i: nat | Counts(listing, i)
      ensures Identity(listing[i]) in m
              && m[Identity(listing[i])] == if Stored(before, listing[i]) then before[Identity(listing[i])]
                                            else listing[i].(metadata := listing[i].metadata.(generation := generation))
    {
      IndexCounts(listing, i);
    }
  }

  /** Every change tells the truth. */
  lemma DiffTells(before: NodeMap, incoming: NodeMap, generation: nat, changes: seq<NodeChange>)
    requires Keyed(before) && Keyed(incoming) && IsDiff(before, incoming, generation, changes)
    ensures forall c <- changes :: Tells(before, Committed(before, incoming, generation), c)
  {
    forall c <- changes ensures Tells(before, Committed(before, incoming, generation), c) {
      ChangeTells(before, incoming, generation, ChangeKey(c));
      hide Tells, Committed, ChangeFor, Changed;
    }
  }

  lemma CommittedKeyed(before: NodeMap, incoming: NodeMap, generation: nat)
    requires Keyed(before) && Keyed(incoming)
    ensures Keyed(Committed(before, incoming, generation))
  {
  }

  lemma ChangeTells(before: NodeMap, incoming: NodeMap, generation: nat, k: string)
    requires Keyed(before) && Keyed(incoming) && Changed(before, incoming, k)
    ensures Tells(before, Committed(before, incoming, generation), ChangeFor(before, incoming, generation, k))
  {
    assert k in incoming ==> Identity(Stamped(incoming[k], generation)) == k && Identity(incoming[k]) == k;
    hide Identity;
  }

  // ---------------------------------------------------------------- the cache object

  /** uint64 wrap-around. */
  const GENERATIONS: nat := 0x1_0000_0000_0000_0000

  /** The slice being built: one unstamped change for each changed key seen so
      far. */
  ghost predicate Collected(old_: NodeMap, incoming: NodeMap, seen: set<string>, changes: seq<NodeChange>) {
    && DistinctKeys(changes)
    && (forall c <- changes ::
          && ChangeKey(c) in seen && Changed(old_, incoming, ChangeKey(c))
          && c == RawChange(old_, incoming, ChangeKey(c)))
    && (forall k <- seen :: Changed(old_, incoming, k) ==> Reported(changes, k))
  }

  ghost function RawChange(old_: NodeMap, incoming: NodeMap, k: string): NodeChange
    requires Changed(old_, incoming, k)
  {
    if k !in incoming then NodeChange(NodeRemoved, old_[k])
    else NodeChange(if k in old_ then NodeUpdated else NodeAdded, incoming[k])
  }

  lemma CollectOne(old_: NodeMap, incoming: NodeMap, seen: set<string>, changes: seq<NodeChange>, k: string)
    requires Keyed(old_) && Keyed(incoming) && Collected(old_, incoming, seen, changes) && k !in seen
    ensures Changed(old_, incoming, k) ==>
              Collected(old_, incoming, seen + {k}, changes + [RawChange(old_, incoming, k)])
    ensures !Changed(old_, incoming, k) ==> Collected(old_, incoming, seen + {k}, changes)
  {
    if Changed(old_, incoming, k) {
      var more := changes + [RawChange(old_, incoming, k)];
      assert ChangeKey(RawChange(old_, incoming, k)) == k;
      assert more[|changes|] in more;
      forall j <- seen | Changed(old_, incoming, j) ensures Reported(more, j) {
        assert Reported(changes, j);
        var c :| c in changes && ChangeKey(c) == j;
        assert c in more;
      }
    }
  }

  function StampChange(c: NodeChange, generation: nat): NodeChange {
    if c.kind == NodeRemoved then c else c.(node := Stamped(c.node, generation))
  }

  class Cache {
    var generation: nat
    var nodes: NodeMap

    ghost predicate Valid()
      reads this
    {
      Keyed(nodes) && generation < GENERATIONS
    }

    constructor ()
      ensures Valid() && generation == 0 && nodes == map[]
    {
      generation := 0;
      nodes := map[];
    }

    /** replaceSnapshot. Changed exactly when some key differs in presence or in
        state; then the generation moves on by one (modulo 2^64), the map is the
        stamped incoming one, and the batch is its sorted diff. */
    method ReplaceSnapshot(snapshot: seq<Node>) returns (batch: Option<NodeChangeBatch>)
      requires Valid()
      modifies this
      ensures Valid()
      ensures batch.Some? <==> Differs(old(nodes), Index(snapshot))
      ensures batch.None? ==> generation == old(generation) && nodes == old(nodes)
      ensures batch.Some? ==>
                && generation == (old(generation) + 1) % GENERATIONS
                && nodes == Committed(old(nodes), Index(snapshot), generation)
                && batch.value.resource == "node" && batch.value.event == "changes"
                && batch.value.generation == generation && batch.value.changes != []
                && IsDiff(old(nodes), Index(snapshot), generation, batch.value.changes)
      ensures Mirrors(nodes, snapshot) && (generation == old(generation) <==> Mirrors(old(nodes), snapshot))
      ensures batch.Some? ==>
                && TakenOver(old(nodes), nodes, snapshot, generation)
                && (forall c <- batch.value.changes :: Tells(old(nodes), nodes, c))
    {
      var incoming := IndexNodes(snapshot);
      var changes := CollectChanges(nodes, incoming);
      MirrorsIndex(nodes, snapshot);
      if changes == [] {
        forall k ensures !Changed(nodes, incoming, k) {
          assert Changed(nodes, incoming, k) ==> Reported(changes, k);
        }
        return None;
      }
      assert Changed(nodes, incoming, ChangeKey(changes[0]));
      generation := (generation + 1) % GENERATIONS;
      var updated := StampNodes(nodes, incoming, generation);
      var published := StampAndSort(nodes, incoming, generation, changes);
      CommittedTakesOver(nodes, snapshot, generation);
      CommittedKeyed(nodes, incoming, generation);
      hide Index, Committed, IsDiff, Differs, Mirrors, TakenOver, Tells, Keyed;
      DiffTells(nodes, incoming, generation, published);
      nodes := updated;
      return Some(NodeChangeBatch("node", "changes", generation, published));
    }

    method Snapshot() returns (items: seq<Node>)
      requires Valid()
      ensures Lists(items, nodes) && |items| == |nodes|
    {
      items := ListNodes(nodes);
    }
  }

  method IndexNodes(snapshot: seq<Node>) returns (incoming: NodeMap)
    ensures incoming == Index(snapshot) && Keyed(incoming)
  {
    incoming := map[];
    for i := 0 to |snapshot|
      invariant incoming == Index(snapshot[..i])
    {
      assert snapshot[..i + 1][..i] == snapshot[..i];
      incoming := incoming[Identity(snapshot[i]) := snapshot[i]];
    }
    assert snapshot[..|snapshot|] == snapshot;
    IndexKeyed(snapshot);
  }

  /** `items` is the map's nodes, each once, in some order. */
  ghost predicate Lists(items: seq<Node>, m: NodeMap) {
    && Index(items) == m
    && (forall i, j :: 0 <= i < j < |items| ==> Identity(items[i]) != Identity(items[j]))
    && (forall n <- items :: Identity(n) in m && m[Identity(n)] == n)
  }

  /** `items` lists the nodes of `m` that are not in `remaining`. */
  ghost predicate ListsBut(items: seq<Node>, m: NodeMap, remaining: set<string>) {
    && remaining <= m.Keys && |items| + |remaining| == |m|
    && Lists(items, m - remaining)
  }

  lemma ListsMore(items: seq<Node>, m: NodeMap, remaining: set<string>, k: string)
    requires Keyed(m) && ListsBut(items, m, remaining) && k in remaining
    ensures ListsBut(items + [m[k]], m, remaining - {k})
  {
    IndexAppend(items, m[k]);
    assert m - (remaining - {k}) == (m - remaining)[k := m[k]];
    hide Index, Identity;
  }

  method ListNodes(m: NodeMap) returns (items: seq<Node>)
    requires Keyed(m)
    ensures Lists(items, m) && |items| == |m|
  {
    items := [];
    var remaining := m.Keys;
    assert m - remaining == map[];
    while remaining != {}
      invariant ListsBut(items, m, remaining)
    {
      var k :| k in remaining;
      ListsMore(items, m, remaining, k);
      hide ListsBut, Lists;
      remaining := remaining - {k};
      items := items + [m[k]];
    }
    assert m - {} == m;
  }

  /** The two collecting loops over the maps, in whatever order Go yields keys. */
  method CollectChanges(old_: NodeMap, incoming: NodeMap) returns (changes: seq<NodeChange>)
    requires Keyed(old_) && Keyed(incoming)
    ensures Collected(old_, incoming, old_.Keys + incoming.Keys, changes)
  {
    changes := [];
    var remaining := incoming.Keys;
    while remaining != {}
      invariant remaining <= incoming.Keys
      invariant Collected(old_, incoming, incoming.Keys - remaining, changes)
    {
      var k :| k in remaining;
      CollectOne(old_, incoming, incoming.Keys - remaining, changes, k);
      assert incoming.Keys - remaining + {k} == incoming.Keys - (remaining - {k});
      if k !in old_ {
        changes := changes + [NodeChange(NodeAdded, incoming[k])];
      } else if !SameNodeState(old_[k], incoming[k]) {
        changes := changes + [NodeChange(NodeUpdated, incoming[k])];
      }
      remaining := remaining - {k};
    }
    remaining := old_.Keys;
    ghost var seen := incoming.Keys;
    assert Collected(old_, incoming, seen, changes) by {
      assert incoming.Keys - {} == seen;
    }
    while remaining != {}
      invariant remaining <= old_.Keys && seen == incoming.Keys + (old_.Keys - remaining)
      invariant Collected(old_, incoming, seen, changes)
    {
      var k :| k in remaining;
      if k !in incoming {
        CollectOne(old_, incoming, seen, changes, k);
        changes := changes + [NodeChange(NodeRemoved, old_[k])];
      }
      seen := seen + {k};
      assert k in incoming ==> seen == incoming.Keys + (old_.Keys - remaining);
      remaining := remaining - {k};
      assert seen == incoming.Keys + (old_.Keys - remaining);
    }
    assert seen == old_.Keys + incoming.Keys;
  }

  method StampNodes(old_: NodeMap, incoming: NodeMap, generation: nat) returns (updated: NodeMap)
    ensures updated == Committed(old_, incoming, generation)
  {
    updated := map[];
    var remaining := incoming.Keys;
    while remaining != {}
      invariant remaining <= incoming.Keys && updated == Committed(old_, incoming, generation) - remaining
    {
      var k :| k in remaining;
      if k in old_ && SameNodeState(old_[k], incoming[k]) {
        updated := updated[k := old_[k]];
      } else {
        updated := updated[k := Stamped(incoming[k], generation)];
      }
      remaining := remaining - {k};
    }
  }

  /** The in-place pass over the slice. */
  method StampChanges(changes: array<NodeChange>, generation: nat)
    modifies changes
    ensures forall i :: 0 <= i < changes.Length ==> changes[i] == StampChange(old(changes[i]), generation)
  {
    for i := 0 to changes.Length
      invariant forall j :: 0 <= j < i ==> changes[j] == StampChange(old(changes[j]), generation)
      invariant forall j :: i <= j < changes.Length ==> changes[j] == old(changes[j])
    {
      if changes[i].kind != NodeRemoved {
        changes[i] := changes[i].(node := Stamped(changes[i].node, generation));
      }
    }
  }

  /** The slice is stamped and sorted where it is. */
  method StampAndSort(old_: NodeMap, incoming: NodeMap, generation: nat, collected: seq<NodeChange>)
    returns (published: seq<NodeChange>)
    requires Keyed(old_) && Keyed(incoming) && Collected(old_, incoming, old_.Keys + incoming.Keys, collected)
    ensures IsDiff(old_, incoming, generation, published) && |published| == |collected|
  {
    var slice := new NodeChange[|collected|](i requires 0 <= i < |collected| => collected[i]);
    StampChanges(slice, generation);
    ghost var stamped := slice[..];
    SortNodeChanges(slice);
    StampedDiff(old_, incoming, generation, collected, stamped, slice[..]);
    published := slice[..];
    assert |multiset(published)| == |multiset(stamped)|;
  }

  /** From the collected slice to the published one. */
  lemma StampedDiff(old_: NodeMap, incoming: NodeMap, generation: nat, raw: seq<NodeChange>, stamped: seq<NodeChange>,
                    sorted: seq<NodeChange>)
    requires Keyed(old_) && Keyed(incoming) && Collected(old_, incoming, old_.Keys + incoming.Keys, raw)
    requires |stamped| == |raw| && forall i :: 0 <= i < |raw| ==> stamped[i] == StampChange(raw[i], generation)
    requires Sorted(sorted) && multiset(sorted) == multiset(stamped)
    ensures IsDiff(old_, incoming, generation, sorted)
  {
    assert forall i :: 0 <= i < |raw| ==> ChangeKey(stamped[i]) == ChangeKey(raw[i]);
    SortedStrictly(stamped, sorted);
    forall c <- sorted
      ensures Changed(old_, incoming, ChangeKey(c)) && c == ChangeFor(old_, incoming, generation, ChangeKey(c))
    {
      var i :| 0 <= i < |stamped| && stamped[i] == c;
      assert raw[i] in raw;
    }
    forall k | Changed(old_, incoming, k) ensures Reported(sorted, k) {
      assert Reported(raw, k);
      var i :| 0 <= i < |raw| && ChangeKey(raw[i]) == k;
      assert stamped[i] in stamped;
    }
  }

  // ------------------------------------------------------- the synchronizer's check

  predicate ValidSnapshot(nodes: seq<Node>) {
    && (forall n <- nodes :: Identity(n) != "")
    && (forall i, j :: 0 <= i < j < |nodes| ==> Identity(nodes[i]) != Identity(nodes[j]))
  }

  datatype SnapshotError = NoIdentity(index: nat) | DuplicateIdentity(identity: string)

  method ValidateNodeSnapshot(nodes: seq<Node>) returns (e: Option<SnapshotError>)
    ensures e.None? <==> ValidSnapshot(nodes)
    ensures e.Some? && e.value.NoIdentity? ==> e.value.index < |nodes| && Identity(nodes[e.value.index]) == ""
    ensures e.Some? && e.value.DuplicateIdentity? ==>
              exists i, j :: 0 <= i < j < |nodes| && Identity(nodes[i]) == Identity(nodes[j]) == e.value.identity
  {
    var identities: set<string> := {};
    for i := 0 to |nodes|
      invariant ValidSnapshot(nodes[..i])
      invariant forall k :: k in identities <==> exists j :: 0 <= j < i && Identity(nodes[j]) == k
    {
      var identity := Identity(nodes[i]);
      if identity == "" {
        assert nodes[i] in nodes;
        return Some(NoIdentity(i));
      }
      if identity in identities {
        return Some(DuplicateIdentity(identity));
      }
      identities := identities + {identity};
      assert forall n <- nodes[..i + 1] :: n in nodes[..i] || n == nodes[i];
    }
    assert nodes[..|nodes|] == nodes;
    return None;
  }
}
