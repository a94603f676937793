/** The duplicate-key validator of internal/protocol/json_validation.go, over the
    token stream a JSON lexer yields. */
module JsonValidation {
  import opened Wrappers

  // ------------------------------------------------------------------ trees and tokens

  datatype Token = ObjectOpen | ObjectClose | ArrayOpen | ArrayClose | Text(text: string) | Scalar(literal: string)

  datatype Json =
    | Literal(literal: string)
    | String(text: string)
    | Array(items: seq<Json>)
    | Object(members: seq<Member>)

  datatype Member = Member(key: string, value: Json)

  function Tokens(j: Json): (ts: seq<Token>)
    ensures ts != [] && ts[0] != ObjectClose && ts[0] != ArrayClose
    decreases j
  {
    match j
    case Literal(l) => [Scalar(l)]
    case String(s) => [Text(s)]
    case Array(items) => [ArrayOpen] + ItemTokens(items) + [ArrayClose]
    case Object(members) => [ObjectOpen] + MemberTokens(members) + [ObjectClose]
  }

  function ItemTokens(items: seq<Json>): seq<Token>
    decreases items
  {
    if items == [] then [] else Tokens(items[0]) + ItemTokens(items[1..])
  }

  function MemberTokens(members: seq<Member>): seq<Token>
    decreases members
  {
    if members == [] then [] else [Text(members[0].key)] + Tokens(members[0].value) + MemberTokens(members[1..])
  }

  predicate DistinctMembers(members: seq<Member>) {
    forall i, j :: 0 <= i < j < |members| ==> members[i].key != members[j].key
  }

  /** No object, at any depth, has two members of one name. */
  predicate UniqueKeys(j: Json) {
    match j
    case Literal(_) => true
    case String(_) => true
    case Array(items) => forall i | 0 <= i < |items| :: UniqueKeys(items[i])
    case Object(members) => DistinctMembers(members) && forall i | 0 <= i < |members| :: UniqueKeys(members[i].value)
  }

  // ----------------------------------------------------------------- what is consumed

  datatype JsonError = NoToken | KeyNotString | DuplicateField(key: string) | NotClosed | UnexpectedDelimiter

  /** json.Decoder.More: something other than a closing delimiter comes next. */
  predicate HasMore(ts: seq<Token>) {
    ts != [] && ts[0] != ObjectClose && ts[0] != ArrayClose
  }

  /** The tokens left after one value. */
  function Consume(ts: seq<Token>): (r: Result<seq<Token>, JsonError>)
    ensures r.Ok? ==> |r.value| < |ts|
    decreases |ts|, 0
  {
    if ts == [] then Err(NoToken)
    else if ts[0] == ObjectOpen then ConsumeMembers(ts[1..], {})
    else if ts[0] == ArrayOpen then ConsumeItems(ts[1..])
    else if ts[0].Text? || ts[0].Scalar? then Ok(ts[1..])
    else Err(UnexpectedDelimiter)
  }

  function ConsumeItems(ts: seq<Token>): (r: Result<seq<Token>, JsonError>)
    ensures r.Ok? ==> |r.value| < |ts|
    decreases |ts|, 1
  {
    if HasMore(ts) then
      var r := Consume(ts);
      if r.Err? then r else ConsumeItems(r.value)
    else Close(ts, ArrayClose)
  }

  function ConsumeMembers(ts: seq<Token>, keys: set<string>): (r: Result<seq<Token>, JsonError>)
    ensures r.Ok? ==> |r.value| < |ts|
    decreases |ts|, 1
  {
    if HasMore(ts) then
      if !ts[0].Text? then Err(KeyNotString)
      else if ts[0].text in keys then Err(DuplicateField(ts[0].text))
      else
        var r := Consume(ts[1..]);
        if r.Err? then r else ConsumeMembers(r.value, keys + {ts[0].text})
    else Close(ts, ObjectClose)
  }

  function Close(ts: seq<Token>, delimiter: Token): Result<seq<Token>, JsonError> {
    if ts == [] then Err(NoToken) else if ts[0] != delimiter then Err(NotClosed) else Ok(ts[1..])
  }

  // --------------------------------------------------------------------- the program

  /** json.Decoder over a text: its tokens, and whether after them comes the end
      of the text or something that is not JSON. */
  class Decoder {
    var tokens: seq<Token>
    const endsCleanly: bool

    constructor (tokens: seq<Token>, endsCleanly: bool)
      ensures this.tokens == tokens && this.endsCleanly == endsCleanly
    {
      this.tokens, this.endsCleanly := tokens, endsCleanly;
    }

    method Token() returns (t: Option<Token>)
      modifies this
      ensures old(tokens) == [] ==> t.None? && tokens == []
      ensures old(tokens) != [] ==> t == Some(old(tokens)[0]) && tokens == old(tokens)[1..]
    {
      if tokens == [] {
        return None;
      }
      t := Some(tokens[0]);
      tokens := tokens[1..];
    }

    method More() returns (more: bool)
      ensures more == HasMore(tokens)
    {
      more := tokens != [] && tokens[0] != ObjectClose && tokens[0] != ArrayClose;
    }
  }

  /** The method did to the decoder what the function says. */
  predicate Did(e: Option<JsonError>, after: seq<Token>, r: Result<seq<Token>, JsonError>) {
    if r.Ok? then e.None? && after == r.value else e == Some(r.error)
  }

  method ConsumeJSONValue(decoder: Decoder) returns (e: Option<JsonError>)
    modifies decoder
    ensures Did(e, decoder.tokens, Consume(old(decoder.tokens)))
    ensures e.None? ==> |decoder.tokens| < |old(decoder.tokens)|
    decreases |decoder.tokens|
  {
    var token := decoder.Token();
    if token.None? {
      return Some(NoToken);
    }
    if token.value == ObjectOpen {
      var keys: set<string> := {};
      var more := decoder.More();
      while more
        invariant more == HasMore(decoder.tokens) && |decoder.tokens| < |old(decoder.tokens)|
        invariant ConsumeMembers(decoder.tokens, keys) == Consume(old(decoder.tokens))
        decreases |decoder.tokens|
      {
        var keyToken := decoder.Token();
        if !keyToken.value.Text? {
          return Some(KeyNotString);
        }
        var key := keyToken.value.text;
        if key in keys {
          return Some(DuplicateField(key));
        }
        keys := keys + {key};
        e := ConsumeJSONValue(decoder);
        if e.Some? {
          return;
        }
        more := decoder.More();
      }
      var end := decoder.Token();
      if end.None? {
        return Some(NoToken);
      }
      if end.value != ObjectClose {
        return Some(NotClosed);
      }
    } else if token.value == ArrayOpen {
      var more := decoder.More();
      while more
        invariant more == HasMore(decoder.tokens) && |decoder.tokens| < |old(decoder.tokens)|
        invariant ConsumeItems(decoder.tokens) == Consume(old(decoder.tokens))
        decreases |decoder.tokens|
      {
        e := ConsumeJSONValue(decoder);
        if e.Some? {
          return;
        }
        more := decoder.More();
      }
      var end := decoder.Token();
      if end.None? {
        return Some(NoToken);
      }
      if end.value != ArrayClose {
        return Some(NotClosed);
      }
    } else if token.value == ObjectClose || token.value == ArrayClose {
      return Some(UnexpectedDelimiter);
    }
    return None;
  }

  /** validateUniqueJSONKeys accepts exactly the texts that are one JSON tree
      without duplicate keys and nothing more. */
  method ValidateUniqueJSONKeys(decoder: Decoder) returns (ok: bool)
    modifies decoder
    ensures ok <==> decoder.endsCleanly && exists j :: UniqueKeys(j) && old(decoder.tokens) == Tokens(j)
  {
    ghost var ts := decoder.tokens;
    var e := ConsumeJSONValue(decoder);
    Accepted(ts);
    if e.Some? {
      return false;
    }
    var trailing := decoder.Token();
    return trailing.None? && decoder.endsCleanly;
  }

  // ------------------------------------------------------------------------ exactness

  /** What the loop over the members of an object checks, in its own order. */
  predicate MembersUnique(members: seq<Member>, keys: set<string>) {
    members == [] ||
    (members[0].key !in keys && UniqueKeys(members[0].value) && MembersUnique(members[1..], keys + {members[0].key}))
  }

  lemma {:induction false} MembersUniqueMeans(members: seq<Member>, keys: set<string>)
    ensures MembersUnique(members, keys) <==>
              && DistinctMembers(members)
              && (forall i | 0 <= i < |members| :: UniqueKeys(members[i].value))
              && (forall i | 0 <= i < |members| :: members[i].key !in keys)
  {
    if members != [] {
      var rest := members[1..];
      MembersUniqueMeans(rest, keys + {members[0].key});
      assert forall i | 0 <= i < |rest| :: rest[i] == members[i + 1];
      assert forall i | 0 < i < |members| :: members[i] == rest[i - 1];
    }
  }

  ghost predicate Exact(r: Result<seq<Token>, JsonError>, unique: bool, rest: seq<Token>) {
    if unique then r == Ok(rest) else r.Err? && r.error.DuplicateField?
  }

  /** On the tokens of any tree, whatever follows: success exactly when no object
      repeats a key, and then exactly the tree's tokens are gone. */
  lemma {:induction false} ConsumeTree(j: Json, rest: seq<Token>)
    ensures Exact(Consume(Tokens(j) + rest), UniqueKeys(j), rest)
    decreases j
  {
    var ts := Tokens(j) + rest;
    match j
    case Literal(_) => assert ts[1..] == rest;
    case String(_) => assert ts[1..] == rest;
    case Array(items) =>
      assert ts[1..] == ItemTokens(items) + ([ArrayClose] + rest);
      ConsumeTreeItems(items, rest);
    case Object(members) =>
      assert ts[1..] == MemberTokens(members) + ([ObjectClose] + rest);
      MembersUniqueMeans(members, {});
      ConsumeTreeMembers(members, {}, rest);
  }

  lemma {:induction false} ConsumeTreeItems(items: seq<Json>, rest: seq<Token>)
    ensures Exact(ConsumeItems(ItemTokens(items) + ([ArrayClose] + rest)), forall i | 0 <= i < |items| :: UniqueKeys(items[i]), rest)
    decreases items
  {
    var ts := ItemTokens(items) + ([ArrayClose] + rest);
    if items == [] {
      assert ts[1..] == rest;
    } else {
      var more := ItemTokens(items[1..]) + ([ArrayClose] + rest);
      assert ts == Tokens(items[0]) + more;
      ConsumeTree(items[0], more);
      ConsumeTreeItems(items[1..], rest);
      assert forall i | 0 < i < |items| :: items[i] == items[1..][i - 1];
    }
  }

  lemma {:induction false} ConsumeTreeMembers(members: seq<Member>, keys: set<string>, rest: seq<Token>)
    ensures Exact(ConsumeMembers(MemberTokens(members) + ([ObjectClose] + rest), keys), MembersUnique(members, keys), rest)
    decreases members
  {
    var ts := MemberTokens(members) + ([ObjectClose] + rest);
    if members == [] {
      assert ts[1..] == rest;
    } else {
      var more := MemberTokens(members[1..]) + ([ObjectClose] + rest);
      assert ts == [Text(members[0].key)] + (Tokens(members[0].value) + more);
      assert ts[1..] == Tokens(members[0].value) + more;
      ConsumeTree(members[0].value, more);
      ConsumeTreeMembers(members[1..], keys + {members[0].key}, rest);
    }
  }

  // ------------------------------------------------------------------------ soundness

  /** Whatever tokens were accepted, they are those of some tree without
      duplicate keys. */
  lemma {:induction false} ConsumedIsTree(ts: seq<Token>) returns (j: Json)
    requires Consume(ts).Ok?
    ensures UniqueKeys(j) && ts == Tokens(j) + Consume(ts).value
    decreases |ts|, 0
  {
    if ts[0] == ObjectOpen {
      var members := ConsumedIsMembers(ts[1..], {});
      j := Object(members);
      MembersUniqueMeans(members, {});
      assert ts == [ObjectOpen] + ts[1..];
      assert ts == Tokens(j) + Consume(ts).value;
    } else if ts[0] == ArrayOpen {
      var items := ConsumedIsItems(ts[1..]);
      j := Array(items);
      assert ts == [ArrayOpen] + ts[1..];
      assert ts == Tokens(j) + Consume(ts).value;
    } else {
      j := if ts[0].Text? then String(ts[0].text) else Literal(ts[0].literal);
      assert ts == [ts[0]] + ts[1..];
    }
  }

  lemma {:induction false} ConsumedIsItems(ts: seq<Token>) returns (items: seq<Json>)
    requires ConsumeItems(ts).Ok?
    ensures forall i | 0 <= i < |items| :: UniqueKeys(items[i])
    ensures ts == ItemTokens(items) + [ArrayClose] + ConsumeItems(ts).value
    decreases |ts|, 1
  {
    if HasMore(ts) {
      var j := ConsumedIsTree(ts);
      var more := ConsumedIsItems(Consume(ts).value);
      items := [j] + more;
      assert items[1..] == more;
    } else {
      items := [];
      assert ts == [ts[0]] + ts[1..];
    }
  }

  lemma {:induction false} ConsumedIsMembers(ts: seq<Token>, keys: set<string>) returns (members: seq<Member>)
    requires ConsumeMembers(ts, keys).Ok?
    ensures MembersUnique(members, keys)
    ensures ts == MemberTokens(members) + [ObjectClose] + ConsumeMembers(ts, keys).value
    decreases |ts|, 1
  {
    hide Consume, UniqueKeys, Tokens, MembersUnique, MemberTokens;
    if HasMore(ts) {
      var j := ConsumedIsTree(ts[1..]);
      var more := ConsumedIsMembers(Consume(ts[1..]).value, keys + {ts[0].text});
      members := [Member(ts[0].text, j)] + more;
      MemberInFront(Member(ts[0].text, j), more);
      assert ts == [Text(ts[0].text)] + ts[1..];
    } else {
      members := [];
      NoMembers(keys);
      assert ts == [ts[0]] + ts[1..];
    }
  }

  lemma NoMembers(keys: set<string>)
    ensures MembersUnique([], keys) && MemberTokens([]) == []
  {
  }

  lemma MemberInFront(member: Member, more: seq<Member>)
    ensures MemberTokens([member] + more) == [Text(member.key)] + Tokens(member.value) + MemberTokens(more)
    ensures forall keys :: member.key !in keys && UniqueKeys(member.value) && MembersUnique(more, keys + {member.key})
                           ==> MembersUnique([member] + more, keys)
  {
    assert ([member] + more)[1..] == more;
    hide Tokens, UniqueKeys;
  }

  lemma Accepted(ts: seq<Token>)
    ensures Consume(ts) == Ok([]) <==> exists j :: UniqueKeys(j) && ts == Tokens(j)
  {
    if Consume(ts) == Ok([]) {
      var j := ConsumedIsTree(ts);
      assert ts == Tokens(j);
    }
    forall j | UniqueKeys(j) && ts == Tokens(j) ensures Consume(ts) == Ok([]) {
      ConsumeTree(j, []);
      assert Tokens(j) + [] == ts;
    }
  }

  // --------------------------------------------------------------- unique readability

  /** Tokens determine the tree and where it ends. */
  lemma {:induction false} TreesReadOnce(a: Json, b: Json, after: seq<Token>, rest: seq<Token>)
    requires Tokens(a) + after == Tokens(b) + rest
    ensures a == b && after == rest
    decreases a
  {
    var ts := Tokens(a) + after;
    assert ts[0] == Tokens(a)[0] == Tokens(b)[0];
    if a.Array? {
      assert ts[1..] == ItemTokens(a.items) + ([ArrayClose] + after);
      assert ts[1..] == ItemTokens(b.items) + ([ArrayClose] + rest);
      ItemsReadOnce(a.items, b.items, after, rest);
    } else if a.Object? {
      assert ts[1..] == MemberTokens(a.members) + ([ObjectClose] + after);
      assert ts[1..] == MemberTokens(b.members) + ([ObjectClose] + rest);
      MembersReadOnce(a.members, b.members, after, rest);
    } else {
      assert ts[1..] == after && ts[1..] == rest;
    }
  }

  lemma FirstOfItems(items: seq<Json>, more: seq<Token>)
    ensures (ItemTokens(items) + ([ArrayClose] + more))[0] == ArrayClose <==> items == []
  {
  }

  lemma FirstOfMembers(members: seq<Member>, more: seq<Token>)
    ensures (MemberTokens(members) + ([ObjectClose] + more))[0] == ObjectClose <==> members == []
  {
  }

  lemma {:induction false} ItemsReadOnce(a: seq<Json>, b: seq<Json>, after: seq<Token>, rest: seq<Token>)
    requires ItemTokens(a) + ([ArrayClose] + after) == ItemTokens(b) + ([ArrayClose] + rest)
    ensures a == b && after == rest
    decreases a
  {
    var ts := ItemTokens(a) + ([ArrayClose] + after);
    if a == [] || b == [] {
      FirstOfItems(a, after);
      FirstOfItems(b, rest);
      assert ts[1..] == after && ts[1..] == rest;
    } else {
      var (x, y) := (ItemTokens(a[1..]) + ([ArrayClose] + after), ItemTokens(b[1..]) + ([ArrayClose] + rest));
      assert ts == Tokens(a[0]) + x && ts == Tokens(b[0]) + y;
      TreesReadOnce(a[0], b[0], x, y);
      ItemsReadOnce(a[1..], b[1..], after, rest);
      assert a == [a[0]] + a[1..] && b == [b[0]] + b[1..];
    }
  }

  lemma {:induction false} MembersReadOnce(a: seq<Member>, b: seq<Member>, after: seq<Token>, rest: seq<Token>)
    requires MemberTokens(a) + ([ObjectClose] + after) == MemberTokens(b) + ([ObjectClose] + rest)
    ensures a == b && after == rest
    decreases a
  {
    var ts := MemberTokens(a) + ([ObjectClose] + after);
    if a == [] || b == [] {
      FirstOfMembers(a, after);
      FirstOfMembers(b, rest);
      assert ts[1..] == after && ts[1..] == rest;
    } else {
      var (x, y) := (MemberTokens(a[1..]) + ([ObjectClose] + after), MemberTokens(b[1..]) + ([ObjectClose] + rest));
      assert ts == [Text(a[0].key)] + (Tokens(a[0].value) + x) && ts == [Text(b[0].key)] + (Tokens(b[0].value) + y);
      assert ts[1..] == Tokens(a[0].value) + x && ts[1..] == Tokens(b[0].value) + y;
      assert a[0].key == b[0].key by {
        assert ts[0] == Text(a[0].key) && ts[0] == Text(b[0].key);
      }
      TreesReadOnce(a[0].value, b[0].value, x, y);
      MembersReadOnce(a[1..], b[1..], after, rest);
      assert a == [a[0]] + a[1..] && b == [b[0]] + b[1..];
    }
  }
}
