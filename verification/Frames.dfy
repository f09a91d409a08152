/** The batch framing of `splitBedrockFrames`: a decrypted batch is a sequence of
    length-prefixed packets, and one bad length rejects the whole batch. */
module Frames {
  import opened VarInt
  import opened Wrappers

  /** Why a batch is refused. */
  datatype FrameError = BadLength | IncompletePacket

  /** A payload occupies `buffer[start..end]`. */
  datatype Span = Span(start: nat, end: nat)

  function SpansFrom(buffer: seq<Byte>, offset: nat): (r: Result<seq<Span>, FrameError>)
    requires offset <= |buffer|
    decreases |buffer| - offset
  {
    if offset == |buffer| then Ok([])
    else
      var header := Strict(buffer, offset);
      if !header.Value? then Err(BadLength)
      else
        var start := offset + header.size;
        if header.value < 0 || header.value > |buffer| - start then Err(IncompletePacket)
        else Prepend([Span(start, start + header.value)], SpansFrom(buffer, start + header.value))
  }

  function Payloads(buffer: seq<Byte>, spans: seq<Span>): seq<seq<Byte>>
    requires forall i :: 0 <= i < |spans| ==> spans[i].start <= spans[i].end <= |buffer|
  {
    seq(|spans|, i requires 0 <= i < |spans| => buffer[spans[i].start..spans[i].end])
  }

  /** Where the `i`-th header starts: behind the previous payload. */
  function HeaderStart(spans: seq<Span>, from: nat, i: nat): nat
    requires i <= |spans|
  {
    if i == 0 then from else spans[i - 1].end
  }

  /** `spans` cuts `buffer[from..]` without gap or overlap into headers that announce
      exactly the payload behind them. */
  ghost predicate Tiles(buffer: seq<Byte>, spans: seq<Span>, from: nat) {
    && from <= |buffer|
    && HeaderStart(spans, from, |spans|) == |buffer|
    && forall i {:trigger HeaderStart(spans, from, i)} :: 0 <= i < |spans| ==>
         IsFrame(buffer, HeaderStart(spans, from, i), spans[i])
  }

  ghost predicate IsFrame(buffer: seq<Byte>, header: nat, span: Span) {
    && header < span.start <= span.end <= |buffer|
    && Strict(buffer, header) == Value(span.end - span.start, span.start - header)
  }

  lemma NextFrame(buffer: seq<Byte>, offset: nat, first: Span)
    requires IsFrame(buffer, offset, first)
    ensures SpansFrom(buffer, offset) == Prepend([first], SpansFrom(buffer, first.end))
  {
  }

  lemma {:induction false} AcceptedIsTiled(buffer: seq<Byte>, offset: nat, spans: seq<Span>)
    requires offset <= |buffer|
    requires SpansFrom(buffer, offset) == Ok(spans)
    ensures Tiles(buffer, spans, offset)
    decreases |spans|
  {
    if offset < |buffer| {
      var first, rest := spans[0], spans[1..];
      assert SpansFrom(buffer, first.end) == Ok(rest);
      StrictIsU32(buffer, offset);
      AcceptedIsTiled(buffer, first.end, rest);
      forall i | 0 <= i < |spans|
        ensures IsFrame(buffer, HeaderStart(spans, offset, i), spans[i])
      {
        if i > 0 {
          assert IsFrame(buffer, HeaderStart(rest, first.end, i - 1), rest[i - 1]);
        }
      }
      assert HeaderStart(rest, first.end, |rest|) == HeaderStart(spans, offset, |spans|);
    }
  }

  lemma {:induction false} TiledIsAccepted(buffer: seq<Byte>, offset: nat, spans: seq<Span>)
    requires Tiles(buffer, spans, offset)
    ensures SpansFrom(buffer, offset) == Ok(spans)
    decreases |spans|
  {
    hide Strict;
    if spans != [] {
      var first, rest := spans[0], spans[1..];
      assert IsFrame(buffer, HeaderStart(spans, offset, 0), first);
      forall i | 0 <= i < |rest|
        ensures IsFrame(buffer, HeaderStart(rest, first.end, i), rest[i])
      {
        assert IsFrame(buffer, HeaderStart(spans, offset, i + 1), spans[i + 1]);
      }
      assert HeaderStart(rest, first.end, |rest|) == HeaderStart(spans, offset, |spans|);
      EndsInside(buffer, rest, first.end);
      TiledIsAccepted(buffer, first.end, rest);
      NextFrame(buffer, offset, first);
      assert [first] + rest == spans;
    }
  }

  lemma {:induction false} EndsInside(buffer: seq<Byte>, spans: seq<Span>, from: nat)
    requires HeaderStart(spans, from, |spans|) == |buffer|
    requires forall i {:trigger HeaderStart(spans, from, i)} :: 0 <= i < |spans| ==>
         IsFrame(buffer, HeaderStart(spans, from, i), spans[i])
    ensures from <= |buffer|
  {
    if spans != [] {
      assert IsFrame(buffer, HeaderStart(spans, from, 0), spans[0]);
    }
  }

  /** A batch is accepted exactly when it can be tiled, and the tiling is the answer. */
  lemma AcceptedIffTiled(buffer: seq<Byte>, spans: seq<Span>)
    ensures SpansFrom(buffer, 0) == Ok(spans) <==> Tiles(buffer, spans, 0)
  {
    if SpansFrom(buffer, 0) == Ok(spans) {
      AcceptedIsTiled(buffer, 0, spans);
    }
    if Tiles(buffer, spans, 0) {
      TiledIsAccepted(buffer, 0, spans);
    }
  }

  lemma SpansAreInside(buffer: seq<Byte>, offset: nat)
    requires offset <= |buffer|
    ensures var r := SpansFrom(buffer, offset);
            r.Ok? ==> forall i :: 0 <= i < |r.value| ==> r.value[i].start <= r.value[i].end <= |buffer|
  {
    var r := SpansFrom(buffer, offset);
    if r.Ok? {
      AcceptedIsTiled(buffer, offset, r.value);
      forall i | 0 <= i < |r.value| ensures r.value[i].start <= r.value[i].end <= |buffer| {
        assert IsFrame(buffer, HeaderStart(r.value, offset, i), r.value[i]);
      }
    }
  }

  /** What the loop below computes. */
  function Split(buffer: seq<Byte>): Result<seq<seq<Byte>>, FrameError> {
    SpansAreInside(buffer, 0);
    match SpansFrom(buffer, 0)
    case Ok(spans) => Ok(Payloads(buffer, spans))
    case Err(error) => Err(error)
  }

  // ---------------------------------------------------------------- the inverse

  /** The sender's side: every payload behind its length. */
  function Join(payloads: seq<seq<Byte>>): seq<Byte> {
    if payloads == [] then []
    else Encode(|payloads[0]|) + payloads[0] + Join(payloads[1..])
  }

  /** A buffer that goes on with a framed payload goes on with that frame. */
  lemma FirstFrame(buffer: seq<Byte>, offset: nat, payload: seq<Byte>, after: seq<Byte>) returns (span: Span)
    requires |payload| < U32_SIZE
    requires offset <= |buffer|
    requires buffer[offset..] == Encode(|payload|) + payload + after
    ensures IsFrame(buffer, offset, span)
    ensures buffer[span.start..span.end] == payload
    ensures buffer[span.end..] == after
  {
    var header := Encode(|payload|);
    span := Span(offset + |header|, offset + |header| + |payload|);
    var tail := buffer[offset..];
    assert buffer[span.start..span.end] == tail[|header|..|header| + |payload|] == payload;
    assert buffer[span.end..] == tail[|header| + |payload|..] == after;
    forall k | 0 <= k < |header| ensures buffer[offset + k] == header[k] {
      assert tail[k] == header[k];
    }
    StrictReadsEncoding(buffer, offset, 0, |payload|);
  }

  lemma EmptyBatch(buffer: seq<Byte>)
    ensures SpansFrom(buffer, |buffer|) == Ok([])
  {
  }

  lemma {:induction false} SpansOfJoin(buffer: seq<Byte>, offset: nat, payloads: seq<seq<Byte>>)
        returns (spans: seq<Span>)
    requires forall p :: p in payloads ==> |p| < U32_SIZE
    requires offset <= |buffer|
    requires buffer[offset..] == Join(payloads)
    ensures SpansFrom(buffer, offset) == Ok(spans)
    ensures |spans| == |payloads|
    ensures forall i :: 0 <= i < |spans| ==>
              && spans[i].start <= spans[i].end <= |buffer|
              && buffer[spans[i].start..spans[i].end] == payloads[i]
    decreases |payloads|
  {
    hide Strict, Encode, IsFrame, SpansFrom;
    EmptyBatch(buffer);
    if payloads == [] {
      spans := [];
    } else {
      var first := FirstFrame(buffer, offset, payloads[0], Join(payloads[1..]));
      NextFrame(buffer, offset, first);
      var rest := SpansOfJoin(buffer, first.end, payloads[1..]);
      spans := [first] + rest;
      forall i | 0 <= i < |spans|
        ensures spans[i].start <= spans[i].end <= |buffer|
        ensures buffer[spans[i].start..spans[i].end] == payloads[i]
      {
        if i > 0 {
          assert spans[i] == rest[i - 1] && payloads[i] == payloads[1..][i - 1];
        }
      }
    }
  }

  /** Splitting the concatenation of length-prefixed payloads returns those payloads. */
  lemma SplitInvertsJoin(payloads: seq<seq<Byte>>)
    requires forall p :: p in payloads ==> |p| < U32_SIZE
    ensures Split(Join(payloads)) == Ok(payloads)
  {
    var spans := SpansOfJoin(Join(payloads), 0, payloads);
    assert Payloads(Join(payloads), spans) == payloads;
  }

  // ---------------------------------------------------------------- the loop of the source

  /** `splitBedrockFrames`: collect all spans first, copy afterwards. */
  method SplitBedrockFrames(buffer: seq<Byte>) returns (r: Result<seq<seq<Byte>>, FrameError>)
    ensures r == Split(buffer)
  {
    hide Strict;
    var spans: seq<Span> := [];
    var offset := 0;
    PrependTwice([], [], SpansFrom(buffer, 0));
    while offset < |buffer|
      invariant offset <= |buffer|
      invariant forall i :: 0 <= i < |spans| ==> spans[i].start <= spans[i].end <= |buffer|
      invariant SpansFrom(buffer, 0) == Prepend(spans, SpansFrom(buffer, offset))
      decreases |buffer| - offset
    {
      var header := UnsignedVarint(buffer, offset);
      if !header.Value? {
        return Err(BadLength);
      }
      StrictIsU32(buffer, offset);
      offset := offset + header.size;
      if header.value > |buffer| - offset {
        return Err(IncompletePacket);
      }
      var span := Span(offset, offset + header.value);
      PrependTwice(spans, [span], SpansFrom(buffer, span.end));
      spans := spans + [span];
      offset := offset + header.value;
    }
    assert spans + [] == spans;
    return Ok(Payloads(buffer, spans));
  }
}
