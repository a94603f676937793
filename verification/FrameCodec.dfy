/** The service's side of the framing: Encoder, writeFull and the byte layer of
    Decoder (internal/protocol/codec.go), and the connection writer's loop
    (internal/ipc/server.go). */
module FrameCodec {
  import opened Wrappers
  import opened Framing

  /** Any io.Writer: it takes some part of what it is given, possibly nothing
      and possibly with an error. */
  class Writer {
    var written: Bytes

    constructor ()
      ensures written == []
    {
      written := [];
    }

    method Write(p: Bytes) returns (n: nat, failed: bool)
      modifies this
      ensures n <= |p| && written == old(written) + p[..n]
    {
      n :| 0 <= n <= |p|;
      failed := *;
      written := written + p[..n];
    }
  }

  /** `after` is `before` followed by some part of `p`. */
  ghost predicate Partly(before: Bytes, after: Bytes, p: Bytes) {
    exists k :: 0 <= k <= |p| && after == before + p[..k]
  }

  method WriteFull(w: Writer, p: Bytes) returns (ok: bool)
    modifies w
    ensures ok ==> w.written == old(w.written) + p
    ensures !ok ==> Partly(old(w.written), w.written, p)
  {
    var rest := p;
    ghost var k := 0;
    assert p[..0] == [] && w.written == w.written + p[..0];
    while |rest| > 0
      invariant 0 <= k <= |p| && rest == p[k..] && w.written == old(w.written) + p[..k]
      decreases |rest|
    {
      var n, failed := w.Write(rest);
      assert p[..k] + rest[..n] == p[..k + n];
      k := k + n;
      if failed {
        return false;
      }
      if n == 0 {
        return false;
      }
      rest := rest[n..];
    }
    assert p[..k] == p;
    return true;
  }

  datatype EncodeError = NotMarshalled | EmptyPayload | TooLarge(size: nat) | HeaderNotWritten | PayloadNotWritten

  /** `marshalled` is the message's JSON, or None when it has none. Illegal sizes
      are refused before a byte is written; a failing writer has taken a part
      of the frame. */
  method Encode(w: Writer, marshalled: Option<Bytes>) returns (e: Option<EncodeError>)
    modifies w
    ensures e.None? ==> marshalled.Some? && Fits(marshalled.value) && w.written == old(w.written) + Frame(marshalled.value)
    ensures e.None? ==>
              var added := w.written[|old(w.written)|..];
              && 0 < |marshalled.value| <= 4194304 && |added| == 4 + |marshalled.value| && added[4..] == marshalled.value
              && added[0] as int * 16777216 + added[1] as int * 65536 + added[2] as int * 256 + added[3] as int
                 == |marshalled.value|
    ensures marshalled.None? ==> e == Some(NotMarshalled)
    ensures marshalled.Some? && marshalled.value == [] ==> e == Some(EmptyPayload)
    ensures marshalled.Some? && |marshalled.value| > 4194304 ==> e == Some(TooLarge(|marshalled.value|))
    ensures marshalled.None? || !Fits(marshalled.value) ==> e.Some? && w.written == old(w.written)
    ensures marshalled.Some? && Fits(marshalled.value) && e.Some? ==>
              Partly(old(w.written), w.written, Frame(marshalled.value))
  {
    if marshalled.None? {
      return Some(NotMarshalled);
    }
    var payload := marshalled.value;
    if |payload| == 0 {
      return Some(EmptyPayload);
    }
    if |payload| > MAX_PAYLOAD {
      return Some(TooLarge(|payload|));
    }
    var header := Header(|payload|);
    var ok := WriteFull(w, header);
    if !ok {
      assert old(w.written) + [] == old(w.written);
      PartOfPart(old(w.written), w.written, [], header, payload);
      assert [] + header + payload == Frame(payload);
      return Some(HeaderNotWritten);
    }
    ghost var middle := w.written;
    ok := WriteFull(w, payload);
    if !ok {
      PartOfPart(old(w.written), w.written, header, payload, []);
      assert header + payload + [] == Frame(payload);
      return Some(PayloadNotWritten);
    }
    assert old(w.written) + header + payload == old(w.written) + Frame(payload);
    HeaderPlaces(|payload|);
    assert w.written[|old(w.written)|..] == header + payload;
    return None;
  }

  lemma PartOfPart(before: Bytes, after: Bytes, front: Bytes, part: Bytes, back: Bytes)
    requires Partly(before + front, after, part)
    ensures Partly(before, after, front + part + back)
  {
    var k :| 0 <= k <= |part| && after == before + front + part[..k];
    assert (front + part + back)[..|front| + k] == front + part[..k];
  }

  /** writeConnection: one message after another until the writer fails. The
      wire then carries the first `sent` frames and a part of the next. */
  method WriteConnection(w: Writer, outbound: seq<Bytes>) returns (sent: nat, ok: bool)
    requires forall p <- outbound :: Fits(p)
    modifies w
    ensures sent <= |outbound| && (ok <==> sent == |outbound|)
    ensures ok ==> w.written == old(w.written) + Stream(outbound)
    ensures !ok ==> Partly(old(w.written) + Stream(outbound[..sent]), w.written, Frame(outbound[sent]))
  {
    sent := 0;
    assert w.written == w.written + Stream(outbound[..0]);
    while sent < |outbound|
      invariant sent <= |outbound| && w.written == old(w.written) + Stream(outbound[..sent])
    {
      var e := Encode(w, Some(outbound[sent]));
      if e.Some? {
        return sent, false;
      }
      StreamAppend(outbound[..sent], outbound[sent]);
      assert outbound[..sent] + [outbound[sent]] == outbound[..sent + 1];
      sent := sent + 1;
    }
    assert outbound[..sent] == outbound;
    return sent, true;
  }

  lemma {:induction false} StreamAppend(payloads: seq<Bytes>, p: Bytes)
    requires Fits(p) && forall q <- payloads :: Fits(q)
    ensures Stream(payloads + [p]) == Stream(payloads) + Frame(p)
  {
    if payloads == [] {
      assert payloads + [p] == [p];
      StreamOne(p);
    } else {
      StreamAppend(payloads[1..], p);
      assert (payloads + [p])[1..] == payloads[1..] + [p];
    }
  }

  // --------------------------------------------------------------------- the decoder

  datatype DecodeError =
    | EndOfInput
    | ShortHeader
    | ZeroLength
    | LengthTooLarge(length: nat)
    | ShortPayload
    | Refused(reason: PayloadError)

  /** The bytes a connection will still yield before it ends. */
  class Reader {
    var input: Bytes

    constructor (input: Bytes)
      ensures this.input == input
    {
      this.input := input;
    }

    /** io.ReadFull: all or, at the end of the input, what there was. */
    method ReadFull(n: nat) returns (p: Bytes)
      modifies this
      ensures old(input) == p + input && (|p| == n || (|p| < n && input == []))
    {
      var k := if n <= |input| then n else |input|;
      p := input[..k];
      input := input[k..];
    }
  }

  function DecodeOne<E>(parse: Parser<E>, input: Bytes): (Result<E, DecodeError>, Bytes) {
    if input == [] then (Err(EndOfInput), [])
    else if |input| < HEADER_SIZE then (Err(ShortHeader), [])
    else
      var n := Length(input);
      var after := input[HEADER_SIZE..];
      if n == 0 then (Err(ZeroLength), after)
      else if n > MAX_PAYLOAD then (Err(LengthTooLarge(n)), after)
      else if |after| < n then (Err(ShortPayload), [])
      else
        var r := parse(after[..n]);
        (if r.Ok? then Ok(r.value) else Err(Refused(r.error)), after[n..])
  }

  method Decode<E>(r: Reader, parse: Parser<E>) returns (e: Result<E, DecodeError>)
    modifies r
    ensures (e, r.input) == DecodeOne(parse, old(r.input))
    ensures var input := old(r.input);
            |input| >= 4 ==>
              var n := input[0] as int * 16777216 + input[1] as int * 65536 + input[2] as int * 256 + input[3] as int;
              && (n == 0 ==> e == Err(ZeroLength)) && (n > 4194304 ==> e == Err(LengthTooLarge(n)))
              && (0 < n <= 4194304 && |input| < 4 + n ==> e == Err(ShortPayload))
              && (0 < n <= 4194304 && |input| >= 4 + n ==>
                    && r.input == input[4 + n..]
                    && e == match parse(input[4..4 + n]) { case Ok(v) => Ok(v) case Err(x) => Err(Refused(x)) })
  {
    ghost var input := r.input;
    var header := r.ReadFull(HEADER_SIZE);
    if |header| < HEADER_SIZE {
      assert input == header;
      return Err(if header == [] then EndOfInput else ShortHeader);
    }
    LengthAppend(header, r.input);
    ghost var after := r.input;
    assert input[HEADER_SIZE..] == after;
    var length := Length(header);
    if length == 0 {
      return Err(ZeroLength);
    }
    if length > MAX_PAYLOAD {
      return Err(LengthTooLarge(length));
    }
    var payload := r.ReadFull(length);
    if |payload| < length {
      assert |after| == |payload|;
      return Err(ShortPayload);
    }
    assert after[..length] == payload && after[length..] == r.input;
    assert input[4..4 + length] == payload && input[4 + length..] == r.input;
    var parsed := parse(payload);
    if parsed.Err? {
      return Err(Refused(parsed.error));
    }
    return Ok(parsed.value);
  }

  /** serveConnection's loop: decode until the first error. */
  function DecodeAll<E>(parse: Parser<E>, input: Bytes): (seq<E>, DecodeError)
    decreases |input|
  {
    var (r, rest) := DecodeOne(parse, input);
    if r.Err? || |rest| >= |input| then ([], if r.Err? then r.error else EndOfInput)
    else
      var (values, e) := DecodeAll(parse, rest);
      ([r.value] + values, e)
  }

  /** How the service's reasons for stopping correspond to the browser's. */
  predicate SameEnd<E>(d: Drained<E>, e: DecodeError) {
    match e
    case EndOfInput => d.error.None? && d.rest == []
    case ShortHeader => d.error.None? && 0 < |d.rest| < HEADER_SIZE
    case ShortPayload => d.error.None? && |d.rest| >= HEADER_SIZE
    case ZeroLength => d.error == Some(BadLength(0))
    case LengthTooLarge(n) => n > MAX_PAYLOAD && d.error == Some(BadLength(n))
    case Refused(reason) => d.error == Some(BadPayload(reason))
  }

  lemma DecodeWhole<E>(parse: Parser<E>, input: Bytes)
    requires Whole(input)
    ensures var (r, rest) := (parse(First(input)), AfterFirst(input));
            && |rest| < |input|
            && DecodeAll(parse, input) == if r.Ok? then ([r.value] + DecodeAll(parse, rest).0, DecodeAll(parse, rest).1)
                                          else ([], Refused(r.error))
  {
    assert input[HEADER_SIZE..][..Length(input)] == First(input);
    assert input[HEADER_SIZE..][Length(input)..] == AfterFirst(input);
    hide Length;
    assert DecodeOne(parse, input)
           == (if parse(First(input)).Ok? then Ok(parse(First(input)).value) else Err(Refused(parse(First(input)).error)),
               AfterFirst(input));
  }

  lemma NotWhole<E>(parse: Parser<E>, input: Bytes)
    requires !Whole(input)
    ensures DecodeAll(parse, input).0 == [] && Drain(parse, input).frames == [] && Consumed(parse, input) == []
    ensures SameEnd(Drain(parse, input), DecodeAll(parse, input).1)
  {
    hide Length;
  }

  /** Without a whole frame the payloads' meaning does not come into it. */
  lemma NotWholeSame<E>(a: Parser<E>, b: Parser<E>, input: Bytes)
    requires !Whole(input)
    ensures DecodeAll(a, input) == DecodeAll(b, input) && Drain(a, input) == Drain(b, input)
  {
    hide Length;
  }

  // --------------------------------------------------------- two meanings of payloads

  /** The two ends read every payload that the browser consumes alike. */
  ghost predicate ReadAlike<E(!new)>(service: Parser<E>, browser: Parser<E>, input: Bytes) {
    forall p <- Consumed(browser, input) :: service(p) == browser(p)
  }

  lemma FirstReadAlike<E(!new)>(service: Parser<E>, browser: Parser<E>, input: Bytes)
    requires Whole(input)
    ensures ReadAlike(service, browser, input)
            <==> service(First(input)) == browser(First(input))
                 && (browser(First(input)).Ok? ==> ReadAlike(service, browser, AfterFirst(input)))
  {
    DrainWhole(browser, input);
    var (p, more) := (First(input), if browser(First(input)).Ok? then Consumed(browser, AfterFirst(input)) else []);
    hide Length, Consumed;
    assert p in [p] + more && forall q <- more :: q in [p] + more;
  }

  lemma ConsEqual<E>(v: E, a: seq<E>, w: E, b: seq<E>)
    ensures [v] + a == [w] + b <==> v == w && a == b
  {
    assert ([v] + a)[1..] == a && ([w] + b)[1..] == b;
  }

  /** The service refuses unknown fields and repeated keys where the browser does
      not, so the two ends have parsers of their own. They make the same of a
      byte stream (frames, and reason for stopping) if and only if there is no
      consumed payload on which the parsers differ. */
  lemma {:induction false} DecodersAgree<E(!new)>(service: Parser<E>, browser: Parser<E>, input: Bytes)
    ensures var ((values, end), d) := (DecodeAll(service, input), Drain(browser, input));
            (values == d.frames && SameEnd(d, end)) <==> ReadAlike(service, browser, input)
    decreases |input|
  {
    hide Length, DecodeAll, Drain, Consumed, Whole, First, AfterFirst;
    if Whole(input) {
      var (p, rest) := (First(input), AfterFirst(input));
      DecodeWhole(service, input);
      DrainWhole(browser, input);
      FirstReadAlike(service, browser, input);
      hide ReadAlike;
      if service(p).Ok? && browser(p).Ok? {
        DecodersAgree(service, browser, rest);
        ConsEqual(service(p).value, DecodeAll(service, rest).0, browser(p).value, Drain(browser, rest).frames);
      }
    } else {
      NotWhole(browser, input);
      NotWholeSame(service, browser, input);
    }
  }

  /** How many payloads at the front both ends read alike and deliver. */
  function CommonFrames<E(==)>(service: Parser<E>, browser: Parser<E>, input: Bytes): nat
    decreases |input|
  {
    if Whole(input) && service(First(input)).Ok? && browser(First(input)) == service(First(input)) then
      1 + CommonFrames(service, browser, AfterFirst(input))
    else 0
  }

  /** Up to the first payload on which the parsers differ both ends deliver the
      same frames; at that payload they part. */
  lemma {:induction false} DecodersPart<E>(service: Parser<E>, browser: Parser<E>, input: Bytes)
    ensures var n := CommonFrames(service, browser, input);
            var ((values, _), d) := (DecodeAll(service, input), Drain(browser, input));
            var (ours, theirs) := (Consumed(service, input), Consumed(browser, input));
            && n <= |values| && n <= |d.frames| && values[..n] == d.frames[..n]
            && n <= |ours| && n <= |theirs| && ours[..n] == theirs[..n]
            && (|ours| > n <==> |theirs| > n)
            && (|ours| > n ==> ours[n] == theirs[n] && (service(ours[n]) != browser(ours[n]) || service(ours[n]).Err?))
    decreases |input|
  {
    hide Length, DecodeAll, Drain, Consumed, Whole, First, AfterFirst;
    if Whole(input) {
      DecodeWhole(service, input);
      DrainWhole(service, input);
      DrainWhole(browser, input);
      if service(First(input)).Ok? && browser(First(input)) == service(First(input)) {
        DecodersPart(service, browser, AfterFirst(input));
      }
    } else {
      NotWhole(service, input);
      NotWhole(browser, input);
    }
  }

  /** What a stricter service delivers, the browser would deliver too. */
  lemma {:induction false} StricterDeliversPrefix<E(!new)>(service: Parser<E>, browser: Parser<E>, input: Bytes)
    requires forall p :: service(p).Ok? ==> browser(p) == service(p)
    ensures DecodeAll(service, input).0 <= Drain(browser, input).frames
    decreases |input|
  {
    hide Length, DecodeAll, Drain, Consumed, Whole, First, AfterFirst;
    if Whole(input) {
      DecodeWhole(service, input);
      DrainWhole(browser, input);
      if service(First(input)).Ok? {
        StricterDeliversPrefix(service, browser, AfterFirst(input));
      }
    } else {
      NotWhole(service, input);
    }
  }
}
