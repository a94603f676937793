/** The length-prefixed frame format both ends share, and what an incremental
    decoder makes of a byte stream. */
module Framing {
  import opened Wrappers

  type byte = b: int | 0 <= b < 256

  type Bytes = seq<byte>

  const HEADER_SIZE: nat := 4
  const MAX_PAYLOAD: nat := 4194304

  /** Big-endian uint32. */
  function Header(n: nat): (h: Bytes)
    requires n < 0x1_0000_0000
    ensures |h| == HEADER_SIZE && Length(h) == n
  {
    assert n / 0x1_0000 == n / 256 / 256 && n / 0x100_0000 == n / 0x1_0000 / 256;
    [n / 0x100_0000, n / 0x1_0000 % 256, n / 256 % 256, n % 256]
  }

  function Length(data: Bytes): nat
    requires |data| >= HEADER_SIZE
  {
    data[0] as int * 0x100_0000 + data[1] as int * 0x1_0000 + data[2] as int * 256 + data[3]
  }

  predicate Fits(payload: Bytes) {
    0 < |payload| <= MAX_PAYLOAD
  }

  function Frame(payload: Bytes): Bytes
    requires Fits(payload)
  {
    Header(|payload|) + payload
  }

  function Stream(payloads: seq<Bytes>): Bytes
    requires forall p <- payloads :: Fits(p)
  {
    if payloads == [] then [] else Frame(payloads[0]) + Stream(payloads[1..])
  }

  // ----------------------------------------------------------------- what is decoded

  datatype PayloadError = BadJson | BadEnvelope

  datatype FrameError = BadLength(length: nat) | BadPayload(reason: PayloadError)

  /** What a payload means to its reader. */
  type Parser<!E> = Bytes -> Result<E, PayloadError>

  /** The frames in front, what is left in the buffer, and why decoding stopped
      if not for want of bytes. */
  datatype Drained<E> = Drained(frames: seq<E>, rest: Bytes, error: Option<FrameError>)

  function Drain<E>(parse: Parser<E>, data: Bytes): Drained<E>
    decreases |data|
  {
    if |data| < HEADER_SIZE then Drained([], data, None)
    else
      var n := Length(data);
      if n == 0 || n > MAX_PAYLOAD then Drained([], data, Some(BadLength(n)))
      else if |data| < HEADER_SIZE + n then Drained([], data, None)
      else
        var r := parse(data[HEADER_SIZE..HEADER_SIZE + n]);
        var rest := data[HEADER_SIZE + n..];
        if r.Err? then Drained([], rest, Some(BadPayload(r.error)))
        else
          var d := Drain(parse, rest);
          Drained([r.value] + d.frames, d.rest, d.error)
  }

  /** The payloads taken off the front of the buffer, the refused one included. */
  function Consumed<E>(parse: Parser<E>, data: Bytes): (payloads: seq<Bytes>)
    ensures forall p <- payloads :: Fits(p)
    decreases |data|
  {
    if |data| < HEADER_SIZE then []
    else
      var n := Length(data);
      if n == 0 || n > MAX_PAYLOAD || |data| < HEADER_SIZE + n then []
      else
        var p := data[HEADER_SIZE..HEADER_SIZE + n];
        if parse(p).Err? then [p] else [p] + Consumed(parse, data[HEADER_SIZE + n..])
  }

  // ---------------------------------------------------------------- basic properties

  lemma HeaderOfLength(data: Bytes)
    requires |data| >= HEADER_SIZE
    ensures Length(data) < 0x1_0000_0000 && Header(Length(data)) == data[..HEADER_SIZE]
  {
    var (a, b, c, d) := (data[0] as int, data[1] as int, data[2] as int, data[3] as int);
    var n := Length(data);
    assert n % 256 == d && n / 256 == a * 0x1_0000 + b * 256 + c;
    assert n / 256 % 256 == c && n / 0x1_0000 == a * 256 + b;
    assert n / 0x1_0000 % 256 == b && n / 0x100_0000 == a;
  }

  /** The byte order, place by place. */
  lemma HeaderPlaces(n: nat)
    requires n < 0x1_0000_0000
    ensures var h := Header(n);
            |h| == 4 && h[0] as int * 16777216 + h[1] as int * 65536 + h[2] as int * 256 + h[3] as int == n
  {
  }

  /** What a buffer that starts with a header, and holds no more than one frame,
      is decoded to: the length is read highest byte first, an illegal one stays
      in front, and a whole frame gives its payload's meaning. */
  ghost predicate OneFrame<E>(parse: Parser<E>, data: Bytes, d: Drained<E>) {
    |data| >= 4 ==>
      var n := data[0] as int * 16777216 + data[1] as int * 65536 + data[2] as int * 256 + data[3] as int;
      && (n == 0 || n > 4194304 ==> d == Drained([], data, Some(BadLength(n))))
      && (0 < n <= 4194304 && |data| < 4 + n ==> d == Drained([], data, None))
      && (0 < n <= 4194304 && |data| == 4 + n ==>
            d == match parse(data[4..])
                 case Ok(v) => Drained([v], [], None)
                 case Err(e) => Drained([], [], Some(BadPayload(e))))
  }

  lemma DrainOne<E>(parse: Parser<E>, data: Bytes)
    ensures OneFrame(parse, data, Drain(parse, data))
  {
    if |data| >= HEADER_SIZE && 0 < Length(data) <= MAX_PAYLOAD && |data| == HEADER_SIZE + Length(data) {
      DrainWhole(parse, data);
      assert First(data) == data[4..] && AfterFirst(data) == [];
      assert Drain(parse, []) == Drained([], [], None);
      hide Drain;
    }
  }

  /** The buffer holds a whole frame. */
  predicate Whole(data: Bytes) {
    && |data| >= HEADER_SIZE && 0 < Length(data) <= MAX_PAYLOAD
    && |data| >= HEADER_SIZE + Length(data)
  }

  function First(data: Bytes): (p: Bytes)
    requires Whole(data)
    ensures Fits(p) && |p| == Length(data)
  {
    data[HEADER_SIZE..HEADER_SIZE + Length(data)]
  }

  function AfterFirst(data: Bytes): Bytes
    requires Whole(data)
  {
    data[HEADER_SIZE + Length(data)..]
  }

  lemma FirstFrame(data: Bytes)
    requires Whole(data)
    ensures data == Frame(First(data)) + AfterFirst(data)
  {
    HeaderOfLength(data);
    assert data == data[..HEADER_SIZE] + First(data) + AfterFirst(data);
  }

  lemma FrameIsFirst(payload: Bytes, more: Bytes)
    requires Fits(payload)
    ensures Whole(Frame(payload) + more) && First(Frame(payload) + more) == payload
    ensures AfterFirst(Frame(payload) + more) == more
  {
    var data := Frame(payload) + more;
    assert data[..HEADER_SIZE] == Header(|payload|);
    assert forall i :: 0 <= i < HEADER_SIZE ==> data[i] == Header(|payload|)[i];
  }

  lemma StreamOne(p: Bytes)
    requires Fits(p)
    ensures Stream([p]) == Frame(p)
  {
    var one := [p];
    assert one[1..] == [] && Stream(one) == Frame(p) + [];
  }

  /** No byte is lost: what was pushed is the consumed frames and then what is
      left in the buffer. */
  lemma {:induction false} Conservation<E>(parse: Parser<E>, data: Bytes)
    ensures data == Stream(Consumed(parse, data)) + Drain(parse, data).rest
    decreases |data|
  {
    if Whole(data) {
      hide Drain, Consumed, Length, Whole, First, AfterFirst, Frame, Stream;
      DrainWhole(parse, data);
      FirstFrame(data);
      if parse(First(data)).Ok? {
        Conservation(parse, AfterFirst(data));
        StreamFront(data, First(data), AfterFirst(data), Consumed(parse, AfterFirst(data)), Drain(parse, AfterFirst(data)).rest);
      } else {
        StreamOne(First(data));
      }
    } else {
      NothingConsumed(parse, data);
    }
  }

  lemma NothingConsumed<E>(parse: Parser<E>, data: Bytes)
    requires !Whole(data)
    ensures Consumed(parse, data) == [] && Drain(parse, data).rest == data && Stream([]) == []
  {
    hide Length, Frame;
  }

  lemma StreamFront(data: Bytes, p: Bytes, after: Bytes, more: seq<Bytes>, rest: Bytes)
    requires Fits(p) && (forall q <- more :: Fits(q)) && data == Frame(p) + after && after == Stream(more) + rest
    ensures data == Stream([p] + more) + rest
  {
    hide Frame;
    assert ([p] + more)[0] == p && ([p] + more)[1..] == more;
    assert Frame(p) + (Stream(more) + rest) == (Frame(p) + Stream(more)) + rest;
  }

  /** Each delivered frame is the meaning of its payload, and the reason for
      stopping is the next payload's, or the length in front of the buffer. */
  lemma {:induction false} Meanings<E>(parse: Parser<E>, data: Bytes)
    ensures var (d, ps) := (Drain(parse, data), Consumed(parse, data));
            && |ps| == |d.frames| + (if d.error.Some? && d.error.value.BadPayload? then 1 else 0)
            && (forall i :: 0 <= i < |d.frames| ==> parse(ps[i]) == Ok(d.frames[i]))
            && (d.error.Some? ==>
                  match d.error.value
                  case BadPayload(e) => parse(ps[|d.frames|]) == Err(e)
                  case BadLength(n) => |d.rest| >= HEADER_SIZE && n == Length(d.rest) && (n == 0 || n > MAX_PAYLOAD))
    decreases |data|
  {
    hide Length;
    if Whole(data) && parse(First(data)).Ok? {
      Meanings(parse, AfterFirst(data));
    }
  }

  /** Without an error less than one whole frame stays in the buffer. */
  lemma {:induction false} Carry<E>(parse: Parser<E>, data: Bytes)
    requires Drain(parse, data).error.None?
    ensures var rest := Drain(parse, data).rest;
            && |rest| <= MAX_PAYLOAD + 3 && !Whole(rest)
            && (|rest| >= HEADER_SIZE ==> 0 < Length(rest) <= MAX_PAYLOAD)
    decreases |data|
  {
    hide Length;
    if Whole(data) {
      Carry(parse, AfterFirst(data));
    }
  }

  lemma DrainWhole<E>(parse: Parser<E>, input: Bytes)
    requires Whole(input)
    ensures var (r, d) := (parse(First(input)), Drain(parse, AfterFirst(input)));
            Drain(parse, input) == if r.Ok? then Drained([r.value] + d.frames, d.rest, d.error)
                                   else Drained([], AfterFirst(input), Some(BadPayload(r.error)))
    ensures Consumed(parse, input)
            == [First(input)] + if parse(First(input)).Ok? then Consumed(parse, AfterFirst(input)) else []
  {
    hide Length;
  }

  // -------------------------------------------------------------- chunking invariance

  /** Decoding in two goes: the carry of the first goes in front of the second;
      an error already decided stays decided. */
  function Then<E>(parse: Parser<E>, d: Drained<E>, more: Bytes): Drained<E> {
    if d.error.Some? then Drained(d.frames, d.rest + more, d.error)
    else
      var e := Drain(parse, d.rest + more);
      Drained(d.frames + e.frames, e.rest, e.error)
  }

  lemma LengthAppend(data: Bytes, more: Bytes)
    requires |data| >= HEADER_SIZE
    ensures Length(data + more) == Length(data)
  {
  }

  lemma FirstAppend(data: Bytes, more: Bytes)
    requires Whole(data)
    ensures Whole(data + more) && First(data + more) == First(data) && AfterFirst(data + more) == AfterFirst(data) + more
  {
    LengthAppend(data, more);
    hide Length;
  }

  lemma {:induction false} DrainAppend<E>(parse: Parser<E>, data: Bytes, more: Bytes)
    ensures Drain(parse, data + more) == Then(parse, Drain(parse, data), more)
    decreases |data|
  {
    if Whole(data) {
      hide Drain, Length, Whole, First, AfterFirst, Then;
      FirstAppend(data, more);
      DrainWhole(parse, data);
      DrainWhole(parse, data + more);
      if parse(First(data)).Ok? {
        DrainAppend(parse, AfterFirst(data), more);
        ThenInFront(parse, parse(First(data)).value, Drain(parse, AfterFirst(data)), more);
      } else {
        ThenStopped(parse, Drain(parse, data), more);
      }
    } else {
      DrainPart(parse, data, more);
    }
  }

  lemma ThenInFront<E>(parse: Parser<E>, v: E, d: Drained<E>, more: Bytes)
    ensures var e := Then(parse, d, more);
            Then(parse, Drained([v] + d.frames, d.rest, d.error), more) == Drained([v] + e.frames, e.rest, e.error)
  {
    hide Drain;
    var e := Drain(parse, d.rest + more);
    assert ([v] + d.frames) + e.frames == [v] + (d.frames + e.frames);
  }

  lemma ThenStopped<E>(parse: Parser<E>, d: Drained<E>, more: Bytes)
    requires d.error.Some?
    ensures Then(parse, d, more) == Drained(d.frames, d.rest + more, d.error)
  {
  }

  lemma DrainPart<E>(parse: Parser<E>, data: Bytes, more: Bytes)
    requires !Whole(data)
    ensures Drain(parse, data + more) == Then(parse, Drain(parse, data), more)
  {
    if |data| >= HEADER_SIZE {
      LengthAppend(data, more);
    }
    hide Length;
  }

  // -------------------------------------------------------------------- whole sessions

  /** A decoder fed chunk by chunk until a push throws: what the pushes before
      that returned, what is in the buffer, and the error. */
  function PushAll<E>(parse: Parser<E>, buffer: Bytes, chunks: seq<Bytes>): Drained<E>
    decreases |chunks|
  {
    if chunks == [] then Drained([], buffer, None)
    else
      var d := Drain(parse, buffer + chunks[0]);
      if d.error.Some? then Drained([], d.rest, d.error)
      else
        var e := PushAll(parse, d.rest, chunks[1..]);
        Drained(d.frames + e.frames, e.rest, e.error)
  }

  function Concat(chunks: seq<Bytes>): Bytes {
    if chunks == [] then [] else chunks[0] + Concat(chunks[1..])
  }

  /** However a stream is cut into chunks: some push throws exactly when pushing
      the whole stream would, with the same error; without a throw the frames
      and the carry are those of the whole; with one, the frames delivered are
      a prefix. */
  lemma {:induction false} ChunkingInvariance<E>(parse: Parser<E>, buffer: Bytes, chunks: seq<Bytes>)
    requires Drain(parse, buffer) == Drained([], buffer, None)
    ensures var (whole, cut) := (Drain(parse, buffer + Concat(chunks)), PushAll(parse, buffer, chunks));
            && cut.error == whole.error
            && (whole.error.None? ==> cut == whole)
            && cut.frames <= whole.frames
    decreases |chunks|
  {
    if chunks == [] {
      assert buffer + Concat(chunks) == buffer;
    } else {
      var first := buffer + chunks[0];
      var more := Concat(chunks[1..]);
      assert buffer + Concat(chunks) == first + more;
      var d := Drain(parse, first);
      DrainAppend(parse, first, more);
      if d.error.None? {
        CarryDrains(parse, first);
        ChunkingInvariance(parse, d.rest, chunks[1..]);
      }
    }
  }

  lemma {:induction false} CarryDrains<E>(parse: Parser<E>, data: Bytes)
    requires Drain(parse, data).error.None?
    ensures var rest := Drain(parse, data).rest; Drain(parse, rest) == Drained([], rest, None)
    decreases |data|
  {
    if Whole(data) {
      CarryDrains(parse, AfterFirst(data));
    }
  }

  /** The frames lost by a throwing push are those decoded earlier in that same
      push: exactly what the chunks before it amount to is delivered. */
  lemma {:induction false} ThrowLosesOnlyItsPush<E>(parse: Parser<E>, buffer: Bytes, chunks: seq<Bytes>)
    requires PushAll(parse, buffer, chunks).error.Some? && Drain(parse, buffer) == Drained([], buffer, None)
    ensures exists n ::
              && 0 <= n < |chunks|
              && Drain(parse, buffer + Concat(chunks[..n])).error.None?
              && PushAll(parse, buffer, chunks).frames == Drain(parse, buffer + Concat(chunks[..n])).frames
              && Drain(parse, buffer + Concat(chunks[..n + 1])).error.Some?
    decreases |chunks|
  {
    var d := Drain(parse, buffer + chunks[0]);
    assert Concat(chunks[..1]) == chunks[0] by {
      var one := chunks[..1];
      assert one == [chunks[0]] && one[1..] == [] && Concat(one) == chunks[0] + [];
    }
    if d.error.Some? {
      assert buffer + Concat(chunks[..0]) == buffer;
    } else {
      CarryDrains(parse, buffer + chunks[0]);
      ThrowLosesOnlyItsPush(parse, d.rest, chunks[1..]);
      var n :| 0 <= n < |chunks[1..]|
               && Drain(parse, d.rest + Concat(chunks[1..][..n])).error.None?
               && PushAll(parse, d.rest, chunks[1..]).frames == Drain(parse, d.rest + Concat(chunks[1..][..n])).frames
               && Drain(parse, d.rest + Concat(chunks[1..][..n + 1])).error.Some?;
      OneMoreChunk(parse, buffer, chunks, n);
      OneMoreChunk(parse, buffer, chunks, n + 1);
    }
  }

  lemma OneMoreChunk<E>(parse: Parser<E>, buffer: Bytes, chunks: seq<Bytes>, n: nat)
    requires n < |chunks|
    ensures Drain(parse, buffer + Concat(chunks[..n + 1]))
            == Then(parse, Drain(parse, buffer + chunks[0]), Concat(chunks[1..][..n]))
  {
    assert chunks[..n + 1][1..] == chunks[1..][..n];
    assert buffer + Concat(chunks[..n + 1]) == buffer + chunks[0] + Concat(chunks[1..][..n]);
    DrainAppend(parse, buffer + chunks[0], Concat(chunks[1..][..n]));
  }

  // ------------------------------------------------------------------------ round trip

  function Values<E>(parse: Parser<E>, payloads: seq<Bytes>): seq<E>
    requires forall p <- payloads :: parse(p).Ok?
  {
    seq(|payloads|, i requires 0 <= i < |payloads| => parse(payloads[i]).value)
  }

  /** Whole frames and then the beginning of another one. */
  lemma {:induction false} DrainStream<E>(parse: Parser<E>, payloads: seq<Bytes>, tail: Bytes)
    requires forall p <- payloads :: Fits(p) && parse(p).Ok?
    requires Drain(parse, tail) == Drained([], tail, None)
    ensures Drain(parse, Stream(payloads) + tail) == Drained(Values(parse, payloads), tail, None)
  {
    if payloads == [] {
      assert [] + tail == tail;
    } else {
      var more := Stream(payloads[1..]) + tail;
      assert Stream(payloads) + tail == Frame(payloads[0]) + more;
      FrameIsFirst(payloads[0], more);
      DrainStream(parse, payloads[1..], tail);
      hide Length, Header;
      assert Values(parse, payloads) == [parse(payloads[0]).value] + Values(parse, payloads[1..]);
    }
  }

  /** A frame that is cut short does not throw; it waits. */
  lemma CutFrameWaits<E>(parse: Parser<E>, payload: Bytes, k: nat)
    requires Fits(payload) && k < |Frame(payload)|
    ensures Drain(parse, Frame(payload)[..k]) == Drained([], Frame(payload)[..k], None)
  {
    if k >= HEADER_SIZE {
      FrameIsFirst(payload, []);
      assert Frame(payload)[..k] + Frame(payload)[k..] == Frame(payload) + [];
      LengthAppend(Frame(payload)[..k], Frame(payload)[k..]);
    }
  }

  /** The round trip: frames of valid payloads, and possibly part of one more,
      come out as their values whatever the chunks. */
  lemma RoundTrip<E>(parse: Parser<E>, payloads: seq<Bytes>, next: Bytes, k: nat, chunks: seq<Bytes>)
    requires forall p <- payloads :: Fits(p) && parse(p).Ok?
    requires Fits(next) && k < |Frame(next)|
    requires Concat(chunks) == Stream(payloads) + Frame(next)[..k]
    ensures PushAll(parse, [], chunks) == Drained(Values(parse, payloads), Frame(next)[..k], None)
  {
    CutFrameWaits(parse, next, k);
    DrainStream(parse, payloads, Frame(next)[..k]);
    ChunkingInvariance(parse, [], chunks);
    assert [] + Concat(chunks) == Concat(chunks);
  }
}
