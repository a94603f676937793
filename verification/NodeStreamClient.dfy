/** The browser's replica: applyNodeStreamMessage of src/ipc/node-stream.ts and
    the payload checks it runs first (src/ipc/framing.ts). */
module NodeStreamClient {
  import opened Wrappers
  import opened Node

  /** Number.MAX_SAFE_INTEGER. */
  const MAX_SAFE: nat := 0x1F_FFFF_FFFF_FFFF

  /** A decoded event payload. `Malformed` is everything that is not shaped like
      a snapshot or a change batch. */
  datatype StreamMessage =
    | Malformed
    | SnapshotMessage(generation: nat, nodes: seq<Node>)
    | ChangesMessage(generation: nat, changes: seq<NodeChange>)

  datatype StreamState = StreamState(generation: nat, nodes: seq<Node>, hasSnapshot: bool)

  const EMPTY_STATE := StreamState(0, [], false)

  datatype StreamError =
    | InvalidMessage
    | UnexpectedSnapshot
    | ChangesBeforeSnapshot
    | GenerationGap(received: nat, after: nat)
    | AddedExisting(name: string)
    | UpdatedMissing(name: string)
    | RemovedMissing(name: string)

  // -------------------------------------------------------------------- validation

  function Name(n: Node): string { n.spec.nodeName }

  predicate WellFormedNode(n: Node) {
    && n.metadata.name != "" && n.metadata.kind != "" && n.metadata.source != "" && n.metadata.generation <= MAX_SAFE
    && Name(n) != ""
  }

  predicate DistinctNames(nodes: seq<Node>) {
    forall i, j :: 0 <= i < j < |nodes| ==> Name(nodes[i]) != Name(nodes[j])
  }

  predicate ValidMessage(m: StreamMessage) {
    match m
    case Malformed => false
    case SnapshotMessage(g, nodes) => g <= MAX_SAFE && (forall n <- nodes :: WellFormedNode(n)) && DistinctNames(nodes)
    case ChangesMessage(g, changes) =>
      && g <= MAX_SAFE && changes != []
      && (forall c <- changes :: WellFormedNode(c.node))
      && (forall i, j :: 0 <= i < j < |changes| ==> Name(changes[i].node) != Name(changes[j].node))
  }

  // ------------------------------------------- the JavaScript Map, in insertion order

  predicate Has(l: seq<Node>, name: string) {
    exists n <- l :: Name(n) == name
  }

  /** Map.set: replaces in place, or appends. */
  function Put(l: seq<Node>, n: Node): seq<Node> {
    if l == [] then [n]
    else if Name(l[0]) == Name(n) then [n] + l[1..]
    else [l[0]] + Put(l[1..], n)
  }

  /** Map.delete. */
  function Drop(l: seq<Node>, name: string): seq<Node> {
    if l == [] then []
    else if Name(l[0]) == name then l[1..]
    else [l[0]] + Drop(l[1..], name)
  }

  /** new Map(entries): later entries replace earlier ones. */
  function FromEntries(nodes: seq<Node>): seq<Node> {
    if nodes == [] then [] else Put(FromEntries(nodes[..|nodes| - 1]), nodes[|nodes| - 1])
  }

  function ByName(l: seq<Node>): NodeMap {
    if l == [] then map[] else ByName(l[1..])[Name(l[0]) := l[0]]
  }

  lemma {:induction false} ByNameIn(l: seq<Node>, name: string)
    ensures name in ByName(l) <==> Has(l, name)
    ensures name in ByName(l) ==> ByName(l)[name] in l && Name(ByName(l)[name]) == name
  {
    if l != [] {
      ByNameIn(l[1..], name);
      assert l == [l[0]] + l[1..];
    }
  }

  lemma ConsDistinct(n: Node, l: seq<Node>)
    requires DistinctNames(l) && forall m <- l :: Name(m) != Name(n)
    ensures DistinctNames([n] + l)
  {
  }

  lemma {:induction false} PutMembers(l: seq<Node>, n: Node)
    ensures forall m <- Put(l, n) :: m == n || m in l
    ensures !Has(l, Name(n)) ==> Put(l, n) == l + [n]
  {
    if l != [] {
      PutMembers(l[1..], n);
      assert l == [l[0]] + l[1..];
      if !Has(l, Name(n)) {
        assert forall m <- l[1..] :: m in l;
        assert l + [n] == [l[0]] + (l[1..] + [n]);
      }
    }
  }

  lemma {:induction false} PutDoes(l: seq<Node>, n: Node)
    requires DistinctNames(l)
    ensures DistinctNames(Put(l, n)) && ByName(Put(l, n)) == ByName(l)[Name(n) := n]
  {
    if l != [] {
      PutDoes(l[1..], n);
      PutMembers(l[1..], n);
      if Name(l[0]) == Name(n) {
        ConsDistinct(n, l[1..]);
        assert Put(l, n)[1..] == l[1..];
      } else {
        ConsDistinct(l[0], Put(l[1..], n));
        assert Put(l, n)[1..] == Put(l[1..], n);
      }
    }
  }

  lemma {:induction false} DropDoes(l: seq<Node>, name: string)
    requires DistinctNames(l)
    ensures DistinctNames(Drop(l, name)) && ByName(Drop(l, name)) == ByName(l) - {name}
    ensures forall m <- Drop(l, name) :: m in l
  {
    if l != [] {
      DropDoes(l[1..], name);
      ByNameIn(l[1..], Name(l[0]));
      assert forall m <- l[1..] :: m in l;
      if Name(l[0]) != name {
        assert Drop(l, name)[1..] == Drop(l[1..], name);
        ConsDistinct(l[0], Drop(l[1..], name));
        hide DistinctNames;
      }
    }
  }

  lemma {:induction false} FromEntriesKeeps(nodes: seq<Node>)
    requires DistinctNames(nodes)
    ensures FromEntries(nodes) == nodes
  {
    if nodes != [] {
      FromEntriesKeeps(nodes[..|nodes| - 1]);
      PutMembers(nodes[..|nodes| - 1], nodes[|nodes| - 1]);
    }
  }

  // ------------------------------------------------------------------ the function

  function ApplyOne(l: seq<Node>, c: NodeChange): Result<seq<Node>, StreamError> {
    var name := Name(c.node);
    match c.kind
    case NodeAdded => if Has(l, name) then Err(AddedExisting(name)) else Ok(Put(l, c.node))
    case NodeUpdated => if Has(l, name) then Ok(Put(l, c.node)) else Err(UpdatedMissing(name))
    case NodeRemoved => if Has(l, name) then Ok(Drop(l, name)) else Err(RemovedMissing(name))
  }

  function ApplyChanges(l: seq<Node>, changes: seq<NodeChange>): Result<seq<Node>, StreamError>
    decreases |changes|
  {
    if changes == [] then Ok(l)
    else
      var r := ApplyOne(l, changes[0]);
      if r.Err? then r else ApplyChanges(r.value, changes[1..])
  }

  function Apply(s: StreamState, m: StreamMessage): Result<StreamState, StreamError> {
    if !ValidMessage(m) then Err(InvalidMessage)
    else
      match m
      case SnapshotMessage(g, nodes) =>
        if s.hasSnapshot then Err(UnexpectedSnapshot) else Ok(StreamState(g, nodes, true))
      case ChangesMessage(g, changes) =>
        if !s.hasSnapshot then Err(ChangesBeforeSnapshot)
        else if g != s.generation + 1 then Err(GenerationGap(g, s.generation))
        else
          var r := ApplyChanges(FromEntries(s.nodes), changes);
          if r.Err? then Err(r.error) else Ok(StreamState(g, r.value, true))
  }

  method ApplyNodeStreamMessage(state: StreamState, m: StreamMessage) returns (r: Result<StreamState, StreamError>)
    ensures r == Apply(state, m)
    ensures m.SnapshotMessage? && r.Ok? ==> !state.hasSnapshot && r.value == StreamState(m.generation, m.nodes, true)
    ensures m.ChangesMessage? && r.Ok? ==>
              state.hasSnapshot && m.generation == state.generation + 1 && r.value.generation == m.generation && r.value.hasSnapshot
    ensures m.SnapshotMessage? && state.hasSnapshot ==> r.Err?
  {
    if !ValidMessage(m) {
      return Err(InvalidMessage);
    }
    if m.SnapshotMessage? {
      if state.hasSnapshot {
        return Err(UnexpectedSnapshot);
      }
      return Ok(StreamState(m.generation, m.nodes, true));
    }
    if !state.hasSnapshot {
      return Err(ChangesBeforeSnapshot);
    }
    if m.generation != state.generation + 1 {
      return Err(GenerationGap(m.generation, state.generation));
    }
    var nodesByIdentity: seq<Node> := [];
    for i := 0 to |state.nodes|
      invariant nodesByIdentity == FromEntries(state.nodes[..i])
    {
      assert state.nodes[..i + 1][..i] == state.nodes[..i];
      nodesByIdentity := Put(nodesByIdentity, state.nodes[i]);
    }
    assert state.nodes[..|state.nodes|] == state.nodes;
    for i := 0 to |m.changes|
      invariant ApplyChanges(nodesByIdentity, m.changes[i..]) == ApplyChanges(FromEntries(state.nodes), m.changes)
    {
      var change := m.changes[i];
      var identity := Name(change.node);
      var exists_ := Has(nodesByIdentity, identity);
      assert m.changes[i..][0] == change && m.changes[i..][1..] == m.changes[i + 1..];
      match change.kind {
        case NodeAdded =>
          if exists_ {
            return Err(AddedExisting(identity));
          }
          nodesByIdentity := Put(nodesByIdentity, change.node);
        case NodeUpdated =>
          if !exists_ {
            return Err(UpdatedMissing(identity));
          }
          nodesByIdentity := Put(nodesByIdentity, change.node);
        case NodeRemoved =>
          if !exists_ {
            return Err(RemovedMissing(identity));
          }
          nodesByIdentity := Drop(nodesByIdentity, identity);
      }
    }
    return Ok(StreamState(m.generation, nodesByIdentity, true));
  }

  // ---------------------------------------------------------- patches and replicas

  ghost predicate Mentions(changes: seq<NodeChange>, k: string) {
    exists c <- changes :: Name(c.node) == k
  }

  /** `changes` turns `a` into `b`, one key each. */
  ghost predicate IsPatch(a: NodeMap, b: NodeMap, changes: seq<NodeChange>) {
    && (forall i, j :: 0 <= i < j < |changes| ==> Name(changes[i].node) != Name(changes[j].node))
    && (forall c <- changes :: PatchesKey(a, b, c))
    && (forall k :: !Mentions(changes, k) ==> (k in a <==> k in b) && (k in a ==> a[k] == b[k]))
  }

  predicate PatchesKey(a: NodeMap, b: NodeMap, c: NodeChange) {
    var k := Name(c.node);
    match c.kind
    case NodeAdded => k !in a && k in b && b[k] == c.node
    case NodeUpdated => k in a && k in b && b[k] == c.node
    case NodeRemoved => k in a && k !in b
  }

  /** Applying a patch to any list of the old map's nodes succeeds and lists
      exactly the new map's nodes. */
  lemma {:induction false} PatchApplies(l: seq<Node>, a: NodeMap, b: NodeMap, changes: seq<NodeChange>)
    requires DistinctNames(l) && ByName(l) == a && IsPatch(a, b, changes)
    ensures var r := ApplyChanges(l, changes); r.Ok? && DistinctNames(r.value) && ByName(r.value) == b
    decreases |changes|
  {
    if changes == [] {
      assert forall k :: !Mentions(changes, k);
    } else {
      var (c, rest) := (changes[0], changes[1..]);
      var k := Name(c.node);
      assert c in changes && PatchesKey(a, b, c);
      ByNameIn(l, k);
      PutDoes(l, c.node);
      DropDoes(l, k);
      var a' := if c.kind == NodeRemoved then a - {k} else a[k := c.node];
      forall d <- rest ensures PatchesKey(a', b, d) {
        assert d in changes;
      }
      forall j | !Mentions(rest, j) ensures (j in a' <==> j in b) && (j in a' ==> a'[j] == b[j]) {
        assert j != k ==> !Mentions(changes, j);
      }
      PatchApplies(ApplyOne(l, c).value, a', b, rest);
    }
  }

  // ------------------------------------------------- what is accepted, and nothing else

  /** A node as it may come over the wire. */
  predicate Presentable(n: Node) {
    && n.metadata.name != "" && n.metadata.kind != "" && n.metadata.source != ""
    && n.metadata.generation <= 9007199254740991 && n.spec.nodeName != ""
  }

  /** A change that fits the map: it adds what is not there, and updates and
      removes what is. */
  predicate Suits(m: NodeMap, c: NodeChange) {
    if c.kind == NodeAdded then c.node.spec.nodeName !in m else c.node.spec.nodeName in m
  }

  /** Changes of different nodes are applied exactly if each fits the old map,
      and what comes out is the old map with each change made. */
  lemma {:induction false} AppliedExactly(l: seq<Node>, changes: seq<NodeChange>)
    requires DistinctNames(l) && forall i, j :: 0 <= i < j < |changes| ==> Name(changes[i].node) != Name(changes[j].node)
    ensures ApplyChanges(l, changes).Ok? <==> forall c <- changes :: Suits(ByName(l), c)
    ensures var r := ApplyChanges(l, changes);
            r.Ok? ==> DistinctNames(r.value) && IsPatch(ByName(l), ByName(r.value), changes)
    decreases |changes|
  {
    if changes == [] {
      assert IsPatch(ByName(l), ByName(l), []);
    } else {
      var (c, rest, a) := (changes[0], changes[1..], ByName(l));
      assert changes == [c] + rest && c in changes;
      ByNameIn(l, Name(c.node));
      PutDoes(l, c.node);
      DropDoes(l, Name(c.node));
      hide ByName, Has, Put, Drop, DistinctNames, IsPatch;
      var r := ApplyOne(l, c);
      assert r.Ok? <==> Suits(a, c);
      if r.Ok? {
        AppliedExactly(r.value, rest);
        var a' := ByName(r.value);
        assert a' == if c.kind == NodeRemoved then a - {Name(c.node)} else a[Name(c.node) := c.node];
        assert forall d <- rest :: Name(d.node) != Name(c.node) && (Suits(a', d) <==> Suits(a, d));
        var o := ApplyChanges(r.value, rest);
        if o.Ok? {
          PatchOneMore(a, a', ByName(o.value), changes);
        }
      }
    }
  }

  lemma PatchOneMore(a: NodeMap, a': NodeMap, b: NodeMap, changes: seq<NodeChange>)
    requires changes != [] && Suits(a, changes[0]) && IsPatch(a', b, changes[1..])
    requires forall i, j :: 0 <= i < j < |changes| ==> Name(changes[i].node) != Name(changes[j].node)
    requires var c := changes[0]; a' == if c.kind == NodeRemoved then a - {Name(c.node)} else a[Name(c.node) := c.node]
    ensures IsPatch(a, b, changes)
  {
    var (c, rest) := (changes[0], changes[1..]);
    var k := Name(c.node);
    assert changes == [c] + rest && !Mentions(rest, k);
    forall d <- changes ensures PatchesKey(a, b, d) {
      assert d == c || (d in rest && PatchesKey(a', b, d) && Name(d.node) != k);
    }
    forall j | !Mentions(changes, j) ensures (j in a <==> j in b) && (j in a ==> a[j] == b[j]) {
      assert c in changes && !Mentions(rest, j) && j != k;
    }
  }

  /** A batch is accepted exactly after a baseline, as the next generation, when
      each change is well formed, no node is named twice and each change fits
      what the replica holds; the replica then is the patched one. */
  lemma AcceptsExactly(s: StreamState, g: nat, changes: seq<NodeChange>)
    requires DistinctNames(s.nodes)
    ensures var r := Apply(s, ChangesMessage(g, changes));
            && (r.Ok? <==>
                  && s.hasSnapshot && g == s.generation + 1 && g <= 9007199254740991 && changes != []
                  && (forall c <- changes :: Presentable(c.node) && Suits(ByName(s.nodes), c))
                  && (forall i, j :: 0 <= i < j < |changes| ==> changes[i].node.spec.nodeName != changes[j].node.spec.nodeName))
            && (r.Ok? ==>
                  && r.value.generation == g && r.value.hasSnapshot && DistinctNames(r.value.nodes)
                  && IsPatch(ByName(s.nodes), ByName(r.value.nodes), changes))
  {
    FromEntriesKeeps(s.nodes);
    hide ByName, FromEntries, IsPatch, ApplyChanges, DistinctNames;
    if forall i, j :: 0 <= i < j < |changes| ==> Name(changes[i].node) != Name(changes[j].node) {
      AppliedExactly(s.nodes, changes);
    }
    assert forall c <- changes :: WellFormedNode(c.node) <==> Presentable(c.node);
  }

  /** A baseline is accepted exactly once, when its nodes are well formed and
      none is named twice. */
  lemma BaselineExactly(s: StreamState, g: nat, nodes: seq<Node>)
    ensures var r := Apply(s, SnapshotMessage(g, nodes));
            && (r.Ok? <==>
                  && !s.hasSnapshot && g <= 9007199254740991 && (forall n <- nodes :: Presentable(n))
                  && (forall i, j :: 0 <= i < j < |nodes| ==> nodes[i].spec.nodeName != nodes[j].spec.nodeName))
            && (r.Ok? ==> r.value == StreamState(g, nodes, true))
  {
    assert forall n <- nodes :: WellFormedNode(n) <==> Presentable(n);
  }
}
