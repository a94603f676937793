/** The per-connection request deduplication of internal/ipc/server.go. */
module ReplayCache {
  import opened Wrappers
  import opened JsonValidation

  const MAX_CACHED_REQUESTS: nat := 4096

  datatype Envelope =
    Envelope(protocol: string, version: string, messageID: string, kind: string, timestamp: string, payload: Option<Json>)

  datatype Body = InvalidPayload | MessageIdConflict | LimitReached | Answer(content: int)

  datatype Response = Response(messageID: string, body: Body)

  // ------------------------------------------------------------------- fingerprints

  /** A payload as Go decodes it: object members in no order, numbers verbatim. */
  datatype Canon =
    | CanonLiteral(literal: string)
    | CanonText(text: string)
    | CanonArray(items: seq<Canon>)
    | CanonObject(members: map<string, Canon>)

  function Canonical(j: Json): Canon
    decreases j
  {
    match j
    case Literal(l) => CanonLiteral(l)
    case String(s) => CanonText(s)
    case Array(items) => CanonArray(seq(|items|, i requires 0 <= i < |items| => Canonical(items[i])))
    case Object(members) => CanonObject(CanonicalMembers(members))
  }

  function CanonicalMembers(members: seq<Member>): map<string, Canon>
    decreases members
  {
    if members == [] then map[]
    else
      var rest := CanonicalMembers(members[1..]);
      if members[0].key in rest then rest else rest[members[0].key := Canonical(members[0].value)]
  }

  /** What is hashed; the message ID and the timestamp are not part of it. */
  datatype Fingerprint = Fingerprint(protocol: string, version: string, kind: string, payload: Canon)

  function FingerprintOf(m: Envelope): Option<Fingerprint> {
    if m.payload.None? then None else Some(Fingerprint(m.protocol, m.version, m.kind, Canonical(m.payload.value)))
  }

  predicate HasMember(members: seq<Member>, k: string) {
    exists m <- members :: m.key == k
  }

  // ------------------------------------------------------------- equivalent requests

  /** The member that gives `k` its value: the last one of that name. */
  predicate Gives(members: seq<Member>, i: nat, k: string) {
    i < |members| && members[i].key == k && forall j :: i < j < |members| ==> members[j].key != k
  }

  /** Two payloads say the same: equal literals and texts, arrays item by item,
      objects with the same names and equivalent values under each. */
  ghost predicate Equivalent(a: Json, b: Json)
    decreases a
  {
    match (a, b)
    case (Literal(l), Literal(m)) => l == m
    case (String(s), String(t)) => s == t
    case (Array(items), Array(others)) =>
      |items| == |others| && forall i :: 0 <= i < |items| ==> Equivalent(items[i], others[i])
    case (Object(members), Object(others)) =>
      && (forall k :: HasMember(members, k) <==> HasMember(others, k))
      && (forall i: nat, j: nat |
              i < |members| && j < |others| && Gives(members, i, members[i].key) && Gives(others, j, members[i].key) ::
            Equivalent(members[i].value, others[j].value))
    case _ => false
  }

  lemma {:induction false} LastGives(members: seq<Member>, k: string)
    ensures k in CanonicalMembers(members) <==> HasMember(members, k)
    ensures forall i: nat | Gives(members, i, k) :: k in CanonicalMembers(members)
              && CanonicalMembers(members)[k] == Canonical(members[i].value)
    ensures HasMember(members, k) ==> exists i: nat :: Gives(members, i, k)
  {
    if members != [] {
      var rest := members[1..];
      LastGives(rest, k);
      assert members == [members[0]] + rest;
      hide Canonical;
      assert HasMember(members, k) <==> members[0].key == k || HasMember(rest, k);
      if HasMember(rest, k) {
        var i: nat :| Gives(rest, i, k);
        assert Gives(members, i + 1, k);
      } else if members[0].key == k {
        assert Gives(members, 0, k);
      }
      forall i: nat | Gives(members, i, k)
        ensures k in CanonicalMembers(members) && CanonicalMembers(members)[k] == Canonical(members[i].value)
      {
        if i > 0 {
          assert Gives(rest, i - 1, k);
          assert rest[i - 1] in rest;
        } else {
          assert !HasMember(rest, k);
        }
      }
    }
  }

  /** The canonical form tells exactly the payloads apart that do not say the
      same. */
  lemma {:induction false} CanonicalMeans(a: Json, b: Json)
    ensures Canonical(a) == Canonical(b) <==> Equivalent(a, b)
    decreases a
  {
    match (a, b)
    case (Array(items), Array(others)) =>
      ItemsMean(items, others);
    case (Object(members), Object(others)) =>
      MembersMean(members, others);
    case _ =>
  }

  lemma {:induction false} ItemsMean(items: seq<Json>, others: seq<Json>)
    ensures Canonical(Array(items)) == Canonical(Array(others)) <==> Equivalent(Array(items), Array(others))
    decreases items
  {
    var (c, d) := (Canonical(Array(items)).items, Canonical(Array(others)).items);
    forall i | 0 <= i < |items| && i < |others| ensures c[i] == d[i] <==> Equivalent(items[i], others[i]) {
      CanonicalMeans(items[i], others[i]);
    }
    if |items| == |others| && forall i :: 0 <= i < |items| ==> Equivalent(items[i], others[i]) {
      assert c == d;
    }
  }

  lemma {:induction false} MembersMean(members: seq<Member>, others: seq<Member>)
    ensures Canonical(Object(members)) == Canonical(Object(others)) <==> Equivalent(Object(members), Object(others))
    decreases members
  {
    var (x, y) := (CanonicalMembers(members), CanonicalMembers(others));
    forall k ensures (k in x <==> HasMember(members, k)) && (k in y <==> HasMember(others, k)) {
      LastGives(members, k);
      LastGives(others, k);
    }
    forall i: nat, j: nat | i < |members| && j < |others| && Gives(members, i, members[i].key) && Gives(others, j, members[i].key)
      ensures var k := members[i].key; k in x && k in y && (x[k] == y[k] <==> Equivalent(members[i].value, others[j].value))
    {
      LastGives(members, members[i].key);
      LastGives(others, members[i].key);
      CanonicalMeans(members[i].value, others[j].value);
    }
    if Equivalent(Object(members), Object(others)) {
      forall k <- x ensures k in y && x[k] == y[k] {
        LastGives(members, k);
        LastGives(others, k);
        var i: nat :| Gives(members, i, k);
        var j: nat :| Gives(others, j, k);
      }
      assert x == y;
    }
  }

  /** The same request, apart from its message ID and its timestamp. */
  ghost predicate SameRequest(m: Envelope, n: Envelope) {
    && m.protocol == n.protocol && m.version == n.version && m.kind == n.kind
    && m.payload.Some? && n.payload.Some? && Equivalent(m.payload.value, n.payload.value)
  }

  lemma FingerprintsMean(m: Envelope, n: Envelope)
    requires m.payload.Some?
    ensures FingerprintOf(m) == FingerprintOf(n) <==> SameRequest(m, n)
    ensures FingerprintOf(n).None? <==> n.payload.None?
  {
    if n.payload.Some? {
      CanonicalMeans(m.payload.value, n.payload.value);
    }
  }

  /** Without repeated names every member gives its name's value. */
  lemma DistinctGive(members: seq<Member>, m: Member)
    requires DistinctMembers(members) && m in members
    ensures m.key in CanonicalMembers(members) && CanonicalMembers(members)[m.key] == Canonical(m.value)
  {
    var i: nat :| i < |members| && members[i] == m;
    assert Gives(members, i, m.key);
    LastGives(members, m.key);
  }

  /** The order in which an object's members were written does not matter. */
  lemma MemberOrderIrrelevant(a: seq<Member>, b: seq<Member>)
    requires DistinctMembers(a) && DistinctMembers(b) && forall m :: m in a <==> m in b
    ensures Canonical(Object(a)) == Canonical(Object(b))
  {
    var (x, y) := (CanonicalMembers(a), CanonicalMembers(b));
    forall k ensures (k in x <==> k in y) && (k in x ==> x[k] == y[k]) {
      LastGives(a, k);
      LastGives(b, k);
      assert HasMember(a, k) <==> HasMember(b, k);
      if m :| m in a && m.key == k {
        DistinctGive(a, m);
        DistinctGive(b, m);
      }
    }
    assert x == y;
  }

  // ------------------------------------------------------------------- what it serves

  datatype Entry = Entry(fingerprint: Fingerprint, response: Response)

  type Entries = map<string, Entry>

  datatype Served = Served(entries: Entries, response: Response, close: bool, dispatched: bool)

  /** `answer` is what the dispatcher says if it is asked. */
  function Serve(entries: Entries, m: Envelope, answer: Response): Served {
    var id := m.messageID;
    var f := FingerprintOf(m);
    if f.None? then Served(entries, Response(id, InvalidPayload), false, false)
    else if id in entries then
      if entries[id].fingerprint == f.value then Served(entries, entries[id].response, false, false)
      else Served(entries, Response(id, MessageIdConflict), false, false)
    else if |entries| >= MAX_CACHED_REQUESTS then Served(entries, Response(id, LimitReached), true, false)
    else Served(entries[id := Entry(f.value, answer)], answer, false, true)
  }

  /** The message dispatcher behind the cache; it may answer anything. */
  class Dispatcher {
    var asked: seq<Envelope>

    constructor ()
      ensures asked == []
    {
      asked := [];
    }

    method Dispatch(m: Envelope) returns (r: Response)
      modifies this
      ensures asked == old(asked) + [m]
    {
      asked := asked + [m];
      var content: int := *;
      r := Response(m.messageID, Answer(content));
    }
  }

  class RequestReplayCache {
    var entries: Entries

    constructor ()
      ensures entries == map[]
    {
      entries := map[];
    }

    method Dispatch(message: Envelope, dispatcher: Dispatcher) returns (response: Response, close: bool)
      modifies this, dispatcher
      ensures var served := Serve(old(entries), message, response);
              && (entries, response, close) == (served.entries, served.response, served.close)
              && dispatcher.asked == old(dispatcher.asked) + (if served.dispatched then [message] else [])
    {
      var fingerprint := FingerprintOf(message);
      if fingerprint.None? {
        return Response(message.messageID, InvalidPayload), false;
      }
      if message.messageID in entries {
        var previous := entries[message.messageID];
        if previous.fingerprint == fingerprint.value {
          return previous.response, false;
        }
        return Response(message.messageID, MessageIdConflict), false;
      }
      if |entries| >= MAX_CACHED_REQUESTS {
        return Response(message.messageID, LimitReached), true;
      }
      response := dispatcher.Dispatch(message);
      entries := entries[message.messageID := Entry(fingerprint.value, response)];
      return response, false;
    }
  }

  // --------------------------------------------------------------- a whole connection

  datatype Request = Request(message: Envelope, answer: Response)

  function After(entries: Entries, requests: seq<Request>): Entries
    decreases |requests|
  {
    if requests == [] then entries
    else After(Serve(entries, requests[0].message, requests[0].answer).entries, requests[1..])
  }

  /** How the i-th request of a connection is served. */
  function Outcome(requests: seq<Request>, i: nat): Served
    requires i < |requests|
  {
    Serve(After(map[], requests[..i]), requests[i].message, requests[i].answer)
  }

  function Dispatches(requests: seq<Request>): set<nat> {
    set i: nat | i < |requests| && Outcome(requests, i).dispatched
  }

  lemma {:induction false} AfterAppend(entries: Entries, requests: seq<Request>, r: Request)
    ensures After(entries, requests + [r]) == Serve(After(entries, requests), r.message, r.answer).entries
    decreases |requests|
  {
    if requests == [] {
      assert (requests + [r])[1..] == [];
    } else {
      assert (requests + [r])[1..] == requests[1..] + [r];
      AfterAppend(Serve(entries, requests[0].message, requests[0].answer).entries, requests[1..], r);
    }
  }

  lemma AfterNext(requests: seq<Request>, i: nat)
    requires i < |requests|
    ensures After(map[], requests[..i + 1]) == Outcome(requests, i).entries
  {
    assert requests[..i + 1] == requests[..i] + [requests[i]];
    AfterAppend(map[], requests[..i], requests[i]);
  }

  lemma OutcomeOfPrefix(requests: seq<Request>, n: nat, i: nat)
    requires i < n <= |requests|
    ensures Outcome(requests[..n], i) == Outcome(requests, i)
  {
    assert requests[..n][..i] == requests[..i];
  }

  /** Entries are never changed and never removed. */
  lemma {:induction false} EntriesStay(requests: seq<Request>, i: nat, j: nat, id: string)
    requires i <= j <= |requests| && id in After(map[], requests[..i])
    ensures id in After(map[], requests[..j]) && After(map[], requests[..j])[id] == After(map[], requests[..i])[id]
    decreases j
  {
    if i < j {
      EntriesStay(requests, i, j - 1, id);
      AfterNext(requests, j - 1);
    }
  }

  /** A dispatched request leaves its answer and its fingerprint. */
  lemma Recorded(requests: seq<Request>, i: nat, j: nat)
    requires i < j <= |requests| && Outcome(requests, i).dispatched
    ensures var (id, entries) := (requests[i].message.messageID, After(map[], requests[..j]));
            && id in entries && entries[id].response == requests[i].answer
            && FingerprintOf(requests[i].message) == Some(entries[id].fingerprint)
  {
    AfterNext(requests, i);
    EntriesStay(requests, i + 1, j, requests[i].message.messageID);
  }

  /** At most one dispatch per message ID. */
  lemma DispatchedOnce(requests: seq<Request>, i: nat, j: nat)
    requires i < j < |requests| && requests[i].message.messageID == requests[j].message.messageID
    requires Outcome(requests, i).dispatched
    ensures !Outcome(requests, j).dispatched
  {
    Recorded(requests, i, j);
  }

  lemma EntriesGrow(entries: Entries, m: Envelope, answer: Response)
    ensures var o := Serve(entries, m, answer);
            |o.entries| == |entries| + (if o.dispatched then 1 else 0) && (o.dispatched ==> |entries| < MAX_CACHED_REQUESTS)
  {
    var o := Serve(entries, m, answer);
    hide FingerprintOf;
    if o.dispatched {
      assert o.entries.Keys == entries.Keys + {m.messageID};
    }
  }

  /** As many dispatches as entries, so never more than 4096. */
  lemma {:induction false} DispatchesCounted(requests: seq<Request>)
    ensures |Dispatches(requests)| == |After(map[], requests)| <= 4096
    decreases |requests|
  {
    if requests == [] {
      assert Dispatches(requests) == {};
    } else {
      var n := |requests| - 1;
      DispatchesCounted(requests[..n]);
      DispatchesNext(requests);
      AfterNext(requests, n);
      assert requests[..n + 1] == requests;
      EntriesGrow(After(map[], requests[..n]), requests[n].message, requests[n].answer);
      hide Serve, After, Dispatches;
    }
  }

  lemma DispatchesNext(requests: seq<Request>)
    requires requests != []
    ensures var n := |requests| - 1;
            |Dispatches(requests)| == |Dispatches(requests[..n])| + (if Outcome(requests, n).dispatched then 1 else 0)
  {
    var n := |requests| - 1;
    forall i: nat | i < n ensures Outcome(requests, i) == Outcome(requests[..n], i) {
      OutcomeOfPrefix(requests, n, i);
    }
    hide Outcome;
    assert n !in Dispatches(requests[..n]);
    assert Dispatches(requests) == Dispatches(requests[..n]) + (if Outcome(requests, n).dispatched then {n} else {});
  }

  /** A later request under a dispatched message ID: when equivalent it gets the
      first response unchanged, otherwise a refusal; it is not dispatched, and
      the entry stays as it was. */
  lemma LaterUse(requests: seq<Request>, i: nat, j: nat)
    requires i < j < |requests| && requests[i].message.messageID == requests[j].message.messageID
    requires Outcome(requests, i).dispatched
    ensures var (id, o) := (requests[i].message.messageID, Outcome(requests, j));
            && !o.dispatched && !o.close
            && o.entries == After(map[], requests[..j])
            && o.response == (if SameRequest(requests[i].message, requests[j].message) then
                                Outcome(requests, i).response
                              else if requests[j].message.payload.None? then Response(id, InvalidPayload)
                              else Response(id, MessageIdConflict))
  {
    Recorded(requests, i, j);
    FingerprintsMean(requests[i].message, requests[j].message);
  }

  /** The only refusal that closes the connection is the limit, met by the first
      well-formed new message ID after 4096 dispatches. */
  lemma ClosesAtLimit(requests: seq<Request>, i: nat)
    requires i < |requests|
    ensures Outcome(requests, i).close <==>
              && |Dispatches(requests[..i])| == 4096 && requests[i].message.payload.Some?
              && forall j: nat | j < i && Outcome(requests, j).dispatched ::
                   requests[j].message.messageID != requests[i].message.messageID
  {
    DispatchesCounted(requests[..i]);
    var id := requests[i].message.messageID;
    if id in After(map[], requests[..i]) {
      var j := WhoEntered(requests, i, id);
    }
    forall j: nat | j < i && Outcome(requests, j).dispatched && requests[j].message.messageID == id
      ensures id in After(map[], requests[..i])
    {
      Recorded(requests, j, i);
    }
  }

  lemma {:induction false} WhoEntered(requests: seq<Request>, n: nat, id: string) returns (j: nat)
    requires n <= |requests| && id in After(map[], requests[..n])
    ensures j < n && Outcome(requests, j).dispatched && requests[j].message.messageID == id
    decreases n
  {
    assert n > 0;
    AfterNext(requests, n - 1);
    if id in After(map[], requests[..n - 1]) {
      j := WhoEntered(requests, n - 1, id);
    } else {
      j := n - 1;
    }
  }
}
