/** The browser's side of the framing: encodeFrame and FrameDecoder of
    src/ipc/framing.ts. */
module FrameDecoder {
  import opened Wrappers
  import opened Framing

  /** None when the message did not serialize to a frame of legal size. The
      first four bytes give the payload's length, the highest first. */
  method EncodeFrame(payload: Bytes) returns (r: Option<array<byte>>)
    ensures r.Some? <==> 0 < |payload| <= 4194304
    ensures r.Some? ==> fresh(r.value) && r.value[..] == Frame(payload)
    ensures r.Some? ==>
              && r.value.Length == 4 + |payload| && r.value[4..] == payload
              && r.value[0] as int * 16777216 + r.value[1] as int * 65536 + r.value[2] as int * 256 + r.value[3] as int == |payload|
  {
    if |payload| == 0 || |payload| > MAX_PAYLOAD {
      return None;
    }
    var frame := new byte[HEADER_SIZE + |payload|];
    var header := Header(|payload|);
    for i := 0 to HEADER_SIZE
      invariant frame[..i] == header[..i]
    {
      frame[i] := header[i];
    }
    for i := 0 to |payload|
      invariant frame[..HEADER_SIZE + i] == header + payload[..i]
    {
      frame[HEADER_SIZE + i] := payload[i];
      assert frame[..HEADER_SIZE + i + 1] == frame[..HEADER_SIZE + i] + [payload[i]];
    }
    assert frame[..] == frame[..HEADER_SIZE + |payload|] && payload[..|payload|] == payload;
    assert frame[..] == Frame(payload);
    HeaderPlaces(|payload|);
    assert frame[..][..4] == header && frame[..][4..] == payload;
    return Some(frame);
  }

  class Decoder<!E> {
    const parse: Parser<E>
    var buffer: Bytes

    constructor (parse: Parser<E>)
      ensures this.parse == parse && buffer == []
    {
      this.parse, buffer := parse, [];
    }

    /** A push that throws returns no frames: those it had decoded are lost. A
        bad length stays in the buffer; a refused payload is gone from it. */
    method Push(chunk: Bytes) returns (r: Result<seq<E>, FrameError>)
      modifies this
      ensures var d := Drain(parse, old(buffer) + chunk);
              && buffer == d.rest
              && r == if d.error.Some? then Err(d.error.value) else Ok(d.frames)
      ensures r.Ok? ==> |buffer| <= 4194307
      ensures OneFrame(parse, old(buffer) + chunk, Drain(parse, old(buffer) + chunk))
      ensures old(buffer) + chunk == Stream(Consumed(parse, old(buffer) + chunk)) + buffer
    {
      hide Length, Header, Stream, Consumed, OneFrame;
      buffer := buffer + chunk;
      ghost var whole := buffer;
      var frames: seq<E> := [];
      Conservation(parse, whole);
      DrainOne(parse, whole);
      while |buffer| >= HEADER_SIZE
        invariant var d := Drain(parse, buffer);
                  Drain(parse, whole) == Drained(frames + d.frames, d.rest, d.error)
        decreases |buffer|
      {
        ghost var before := buffer;
        var length := Length(buffer);
        if length == 0 || length > MAX_PAYLOAD {
          return Err(BadLength(length));
        }
        var totalLength := HEADER_SIZE + length;
        if |buffer| < totalLength {
          break;
        }
        var payload := buffer[HEADER_SIZE..totalLength];
        buffer := buffer[totalLength..];
        assert payload == First(before) && buffer == AfterFirst(before);
        DrainWhole(parse, before);
        hide Drain, Whole, First, AfterFirst;
        var parsed := parse(payload);
        if parsed.Err? {
          return Err(BadPayload(parsed.error));
        }
        ghost var d := Drain(parse, buffer);
        assert frames + ([parsed.value] + d.frames) == frames + [parsed.value] + d.frames;
        frames := frames + [parsed.value];
      }
      assert Drain(parse, buffer) == Drained([], buffer, None);
      assert frames + [] == frames;
      Carry(parse, whole);
      return Ok(frames);
    }

    method Remaining() returns (r: Bytes)
      ensures r == buffer
    {
      r := buffer;
    }
  }
}
