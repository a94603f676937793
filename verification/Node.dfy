/** The node model of internal/resource/node.go, and the change records of
    internal/resource/node_change.go. */
module Node {
  import opened Wrappers

  datatype NodeMetadata = NodeMetadata(name: string, kind: string, generation: nat, observedAt: int, source: string)

  datatype NodeSpec =
    NodeSpec(nodeName: string, address: string, hostname: string, cpuLoad: int, realMemory: int, allocMemory: int,
             freeMemory: int)

  datatype NodeStatus = NodeStatus(state: string, stateFlags: seq<string>, reason: string)

  datatype Node = Node(metadata: NodeMetadata, spec: NodeSpec, status: NodeStatus)

  type NodeMap = map<string, Node>

  function Identity(n: Node): string {
    if n.spec.nodeName != "" then n.spec.nodeName else n.metadata.name
  }

  /** `k` is the name the service knows the node by. */
  predicate Names(n: Node, k: string) {
    && (n.spec.nodeName != "" ==> k == n.spec.nodeName)
    && (n.spec.nodeName == "" ==> k == n.metadata.name)
  }

  lemma IdentityNames(n: Node, k: string)
    ensures Names(n, k) <==> Identity(n) == k
  {
  }

  /** Metadata (generation, observation time) does not count as state. */
  predicate SameNodeState(a: Node, b: Node) {
    && a.spec == b.spec
    && a.status.state == b.status.state && a.status.stateFlags == b.status.stateFlags && a.status.reason == b.status.reason
  }

  function Stamped(n: Node, generation: nat): Node {
    n.(metadata := n.metadata.(generation := generation))
  }

  // ------------------------------------------------------------------- the adapter

  /** What scontrol reports about one node; absent fields are None. */
  datatype SlurmNode =
    SlurmNode(name: Option<string>, hostname: Option<string>, address: Option<string>, cpuLoad: Option<int>,
              realMemory: Option<int>, allocMemory: Option<int>, freeMemory: Option<int>, reason: Option<string>,
              state: Option<(string, seq<string>)>)

  function Or<T>(o: Option<T>, otherwise: T): T {
    if o.Some? then o.value else otherwise
  }

  function FirstName(s: SlurmNode): string {
    if Or(s.name, "") != "" then s.name.value
    else if Or(s.hostname, "") != "" then s.hostname.value
    else Or(s.address, "")
  }

  /** A reported name always replaces the fallback, even when it is empty. */
  function MapSlurmNode(s: SlurmNode, observedAt: int): Node {
    var name := Or(s.name, FirstName(s));
    var (state, flags) := Or(s.state, ("", []));
    Node(NodeMetadata(name, "Node", 0, observedAt, "cockpit-slurm"),
         NodeSpec(name, Or(s.address, ""), Or(s.hostname, ""), Or(s.cpuLoad, 0), Or(s.realMemory, 0),
                  Or(s.allocMemory, 0), Or(s.freeMemory, 0)),
         NodeStatus(state, flags, Or(s.reason, "")))
  }

  /** A reported field is taken over, an absent one is left empty. */
  predicate Reports<T(==)>(field: Option<T>, value: T, empty: T) {
    match field
    case Some(reported) => value == reported
    case None => value == empty
  }

  /** Every field that scontrol reports reaches its own place, and the name falls
      back on the hostname and then on the address. */
  lemma MappedFields(s: SlurmNode, observedAt: int)
    ensures var n := MapSlurmNode(s, observedAt);
            && Reports(s.address, n.spec.address, "") && Reports(s.hostname, n.spec.hostname, "")
            && Reports(s.cpuLoad, n.spec.cpuLoad, 0) && Reports(s.realMemory, n.spec.realMemory, 0)
            && Reports(s.allocMemory, n.spec.allocMemory, 0) && Reports(s.freeMemory, n.spec.freeMemory, 0)
            && Reports(s.reason, n.status.reason, "") && Reports(s.state, (n.status.state, n.status.stateFlags), ("", []))
            && n.metadata == NodeMetadata(n.spec.nodeName, "Node", 0, observedAt, "cockpit-slurm")
            && (s.name.Some? ==> n.spec.nodeName == s.name.value)
            && (s.name.None? && s.hostname.Some? && s.hostname.value != "" ==> n.spec.nodeName == s.hostname.value)
            && (s.name.None? && (s.hostname.None? || s.hostname.value == "") ==> Reports(s.address, n.spec.nodeName, ""))
  {
  }

  function MapSlurmNodes(s: seq<SlurmNode>, observedAt: int): seq<Node> {
    seq(|s|, i requires 0 <= i < |s| => MapSlurmNode(s[i], observedAt))
  }

  // --------------------------------------------------------------------- ordering

  /** Go's string order. */
  predicate Before(a: string, b: string) {
    if a == [] then b != []
    else b != [] && (a[0] < b[0] || (a[0] == b[0] && Before(a[1..], b[1..])))
  }

  lemma {:induction false} BeforeTransitive(a: string, b: string, c: string)
    requires Before(a, b) && Before(b, c)
    ensures Before(a, c)
  {
    if a != [] && a[0] == b[0] && b[0] == c[0] {
      BeforeTransitive(a[1..], b[1..], c[1..]);
    }
  }

  lemma {:induction false} BeforeTotal(a: string, b: string)
    ensures a == b || Before(a, b) || Before(b, a)
    ensures !(Before(a, b) && Before(b, a)) && (a == b ==> !Before(a, b))
  {
    if a != [] && b != [] && a[0] == b[0] {
      BeforeTotal(a[1..], b[1..]);
      if a[1..] == b[1..] {
        assert a == [a[0]] + a[1..] && b == [b[0]] + b[1..];
      }
    }
  }

  /** The first character that differs decides; without one the shorter string
      comes first. */
  lemma {:induction false} BeforeMeans(a: string, b: string)
    ensures Before(a, b) <==>
              exists i :: 0 <= i <= |a| && i < |b| && a[..i] == b[..i] && (i == |a| || a[i] < b[i])
  {
    if a == [] || b == [] {
      assert b != [] ==> a[..0] == b[..0];
    } else {
      BeforeMeans(a[1..], b[1..]);
      if Before(a, b) {
        if a[0] == b[0] {
          var i :| 0 <= i <= |a| - 1 && i < |b| - 1 && a[1..][..i] == b[1..][..i] && (i == |a| - 1 || a[1..][i] < b[1..][i]);
          assert a[..i + 1] == [a[0]] + a[1..][..i] && b[..i + 1] == [b[0]] + b[1..][..i];
          assert i + 1 == |a| || a[i + 1] < b[i + 1];
        } else {
          assert a[..0] == b[..0];
        }
      }
      forall i | 0 <= i <= |a| && i < |b| && a[..i] == b[..i] && (i == |a| || a[i] < b[i]) ensures Before(a, b) {
        if i > 0 {
          assert a[0] == a[..i][0] == b[..i][0] == b[0];
          assert a[1..][..i - 1] == a[..i][1..] == b[..i][1..] == b[1..][..i - 1];
          assert i == |a| || a[1..][i - 1] < b[1..][i - 1];
        }
      }
    }
  }

  // ---------------------------------------------------------------------- changes

  datatype NodeChangeKind = NodeAdded | NodeUpdated | NodeRemoved

  datatype NodeChange = NodeChange(kind: NodeChangeKind, node: Node)

  datatype NodeChangeBatch = NodeChangeBatch(resource: string, event: string, generation: nat, changes: seq<NodeChange>)

  function ChangeKey(c: NodeChange): string {
    Identity(c.node)
  }

  ghost predicate Sorted(s: seq<NodeChange>) {
    forall i, j :: 0 <= i < j < |s| ==> !Before(ChangeKey(s[j]), ChangeKey(s[i]))
  }

  ghost predicate StrictlySorted(s: seq<NodeChange>) {
    forall i, j :: 0 <= i < j < |s| ==> Before(ChangeKey(s[i]), ChangeKey(s[j]))
  }

  ghost predicate DistinctKeys(s: seq<NodeChange>) {
    forall i, j :: 0 <= i < j < |s| ==> ChangeKey(s[i]) != ChangeKey(s[j])
  }

  lemma NotAfterTransitive(a: string, b: string, c: string)
    requires !Before(b, a) && !Before(c, b)
    ensures !Before(c, a)
  {
    BeforeTotal(a, b);
    BeforeTotal(b, c);
    if Before(c, a) {
      BeforeTotal(a, c);
      if Before(a, b) && Before(b, c) {
        BeforeTransitive(a, b, c);
      }
    }
  }

  /** Everything up to `i` is in order but for pairs that end at `j`. */
  ghost predicate SortedBut(s: seq<NodeChange>, i: nat, j: nat) {
    forall p, q :: 0 <= p < q <= i && q < |s| && q != j ==> !Before(ChangeKey(s[q]), ChangeKey(s[p]))
  }

  /** One neighbour exchange moves the gap down by one. */
  lemma SwapDown(s: seq<NodeChange>, i: nat, j: nat)
    requires 0 < j <= i < |s| && SortedBut(s, i, j) && Before(ChangeKey(s[j]), ChangeKey(s[j - 1]))
    ensures SortedBut(s[j - 1 := s[j]][j := s[j - 1]], i, j - 1)
  {
    BeforeTotal(ChangeKey(s[j]), ChangeKey(s[j - 1]));
  }

  lemma GapClosed(s: seq<NodeChange>, i: nat, j: nat)
    requires j <= i < |s| && SortedBut(s, i, j) && (j > 0 ==> !Before(ChangeKey(s[j]), ChangeKey(s[j - 1])))
    ensures Sorted(s[..i + 1])
  {
    forall p | 0 <= p < j ensures !Before(ChangeKey(s[j]), ChangeKey(s[p])) {
      if p < j - 1 {
        NotAfterTransitive(ChangeKey(s[p]), ChangeKey(s[j - 1]), ChangeKey(s[j]));
      }
    }
  }

  /** sortNodeChanges: by identity, in place. The library sort is written out as
      an insertion sort; only the order of the result matters to callers. */
  method SortNodeChanges(changes: array<NodeChange>)
    modifies changes
    ensures Sorted(changes[..]) && multiset(changes[..]) == multiset(old(changes[..]))
  {
    for i := 0 to changes.Length
      invariant Sorted(changes[..i]) && multiset(changes[..]) == multiset(old(changes[..]))
    {
      InsertChange(changes, i);
    }
    assert changes[..changes.Length] == changes[..];
  }

  /** Moves element `i` down to its place among the ordered ones before it. */
  method InsertChange(changes: array<NodeChange>, i: nat)
    requires i < changes.Length && Sorted(changes[..i])
    modifies changes
    ensures Sorted(changes[..i + 1]) && multiset(changes[..]) == multiset(old(changes[..]))
  {
    var j := i;
    assert SortedBut(changes[..], i, j);
    while j > 0 && Before(ChangeKey(changes[j]), ChangeKey(changes[j - 1]))
      invariant 0 <= j <= i && SortedBut(changes[..], i, j)
      invariant multiset(changes[..]) == multiset(old(changes[..]))
    {
      ghost var before := changes[..];
      SwapDown(before, i, j);
      changes[j - 1], changes[j] := changes[j], changes[j - 1];
      assert changes[..] == before[j - 1 := before[j]][j := before[j - 1]];
      j := j - 1;
    }
    GapClosed(changes[..], i, j);
    assert changes[..][..i + 1] == changes[..i + 1];
  }

  /** Sorting distinct identities leaves a strictly sorted sequence. */
  lemma SortedStrictly(before: seq<NodeChange>, after: seq<NodeChange>)
    requires multiset(before) == multiset(after) && DistinctKeys(before) && Sorted(after)
    ensures StrictlySorted(after) && forall c :: c in before <==> c in after
  {
    forall c ensures c in before <==> c in after {
      assert c in before <==> c in multiset(before);
      assert c in after <==> c in multiset(after);
    }
    forall i, j | 0 <= i < j < |after| ensures Before(ChangeKey(after[i]), ChangeKey(after[j])) {
      BeforeTotal(ChangeKey(after[i]), ChangeKey(after[j]));
      if ChangeKey(after[i]) == ChangeKey(after[j]) {
        SameKeyTwice(before, after, i, j);
      }
    }
  }

  lemma SameKeyTwice(before: seq<NodeChange>, after: seq<NodeChange>, i: nat, j: nat)
    requires multiset(before) == multiset(after) && DistinctKeys(before)
    requires i < j < |after|
    ensures ChangeKey(after[i]) != ChangeKey(after[j])
  {
    if ChangeKey(after[i]) == ChangeKey(after[j]) {
      var (c, d) := (after[i], after[j]);
      assert c in multiset(before) && d in multiset(before);
      var p :| 0 <= p < |before| && before[p] == c;
      var q :| 0 <= q < |before| && before[q] == d;
      if c == d {
        assert after == after[..i] + [c] + after[i + 1..j] + [d] + after[j + 1..];
        assert multiset(after)[c] >= 2;
        OnceOnly(before, p);
      }
    }
  }

  lemma {:induction false} OnceOnly(s: seq<NodeChange>, p: nat)
    requires DistinctKeys(s) && p < |s|
    ensures multiset(s)[s[p]] == 1
  {
    assert s == s[..p] + [s[p]] + s[p + 1..];
    assert s[p] !in s[..p] && s[p] !in s[p + 1..];
  }
}
