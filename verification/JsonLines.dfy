/**
  Newline-delimited JSON framing: the incremental decoder against the decoding of the
  whole stream, and the writer's frames against the decoder.

  `parse` stands for UTF-8 decoding, `JSON.parse` and the envelope schema on one line.
 */
module JsonLines {
  import opened Results

  type Byte = b: int | 0 <= b < 256
  type Bytes = seq<Byte>

  const LINE_FEED: Byte := 0x0A
  const CARRIAGE_RETURN: Byte := 0x0D

  datatype TransportError = InvalidFrame | FrameTooLarge | BufferOverflow | TransportClosed

  /** Messages decoded so far and the bytes of the line not yet ended. */
  datatype Fed<+M> = Fed(messages: seq<M>, pending: Bytes)

  // ----- specification -----

  /** Where the first line feed is, or the length if there is none. */
  function LineEnd(bytes: Bytes): (i: nat)
    ensures i <= |bytes| && LINE_FEED !in bytes[..i]
    ensures i < |bytes| ==> bytes[i] == LINE_FEED
  {
    if bytes == [] || bytes[0] == LINE_FEED then 0 else 1 + LineEnd(bytes[1..])
  }

  /** One line without its line feed: nothing, a message, or a failure. */
  function Line<M>(line: Bytes, parse: Bytes -> Option<M>): Result<seq<M>, TransportError> {
    var text := if line != [] && line[|line| - 1] == CARRIAGE_RETURN then line[..|line| - 1] else line;
    if text == [] then Ok([])
    else
      match parse(text)
      case Some(m) => Ok([m])
      case None => Err(InvalidFrame)
  }

  function Append(pending: Bytes, segment: Bytes, maxFrame: nat): Result<Bytes, TransportError> {
    if |pending| + |segment| > maxFrame && segment != [] then Err(FrameTooLarge) else Ok(pending + segment)
  }

  /** What `push` does to the pending bytes. */
  function Feed<M>(pending: Bytes, chunk: Bytes, maxFrame: nat, parse: Bytes -> Option<M>):
    Result<Fed<M>, TransportError>
    decreases |chunk|
  {
    var i := LineEnd(chunk);
    match Append(pending, chunk[..i], maxFrame)
    case Err(e) => Err(e)
    case Ok(line) =>
      if i == |chunk| then Ok(Fed([], line))
      else AfterLine(Ok(line), Feed([], chunk[i + 1..], maxFrame, parse), parse)
  }

  /** A line, if it was short enough, decoded before what follows it. */
  function AfterLine<M>(line: Result<Bytes, TransportError>, left: Result<Fed<M>, TransportError>,
                        parse: Bytes -> Option<M>): Result<Fed<M>, TransportError> {
    match line
    case Err(e) => Err(e)
    case Ok(bytes) =>
      match Line(bytes, parse)
      case Err(e) => Err(e)
      case Ok(first) =>
        if left.Err? then left else Ok(Fed(first + left.value.messages, left.value.pending))
  }

  /** What `finish` adds. */
  function Finish<M>(pending: Bytes, parse: Bytes -> Option<M>): Result<seq<M>, TransportError> {
    Line(pending, parse)
  }

  /** A stream decoded in one piece: every line at most `maxFrame` bytes, every line parsed. */
  function Decode<M>(stream: Bytes, maxFrame: nat, parse: Bytes -> Option<M>): Result<seq<M>, TransportError>
    decreases |stream|
  {
    var i := LineEnd(stream);
    if i > maxFrame then Err(FrameTooLarge)
    else
      match Line(stream[..i], parse)
      case Err(e) => Err(e)
      case Ok(first) =>
        if i == |stream| then Ok(first)
        else
          match Decode(stream[i + 1..], maxFrame, parse)
          case Err(e) => Err(e)
          case Ok(rest) => Ok(first + rest)
  }

  /** A decoder fed the chunks one after the other, then finished. */
  function Run<M>(pending: Bytes, chunks: seq<Bytes>, maxFrame: nat, parse: Bytes -> Option<M>):
    Result<seq<M>, TransportError>
    decreases |chunks|
  {
    if chunks == [] then Finish(pending, parse)
    else
      match Feed(pending, chunks[0], maxFrame, parse)
      case Err(e) => Err(e)
      case Ok(fed) =>
        match Run(fed.pending, chunks[1..], maxFrame, parse)
        case Err(e) => Err(e)
        case Ok(rest) => Ok(fed.messages + rest)
  }

  function Concat(chunks: seq<Bytes>): Bytes {
    if chunks == [] then [] else chunks[0] + Concat(chunks[1..])
  }

  lemma {:induction false} LineEndAppend(a: Bytes, b: Bytes)
    ensures LineEnd(a + b) == if LineEnd(a) < |a| then LineEnd(a) else |a| + LineEnd(b)
    decreases |a|
  {
    if a == [] {
      assert a + b == b;
    } else {
      assert (a + b)[1..] == a[1..] + b;
      LineEndAppend(a[1..], b);
    }
  }

  /** Feeding after feeding: the outcome of both, in order, or the first failure. */
  function Then<M>(first: Result<Fed<M>, TransportError>, second: Result<Fed<M>, TransportError>):
    Result<Fed<M>, TransportError>
  {
    if first.Err? then first
    else if second.Err? then second
    else Ok(Fed(first.value.messages + second.value.messages, second.value.pending))
  }

  /** Going on with `b` after an outcome. */
  function Onward<M>(first: Result<Fed<M>, TransportError>, b: Bytes, maxFrame: nat, parse: Bytes -> Option<M>):
    Result<Fed<M>, TransportError>
  {
    if first.Err? then first else Then(first, Feed(first.value.pending, b, maxFrame, parse))
  }

  lemma AfterLineOnward<M>(line: Result<Bytes, TransportError>, tail: Result<Fed<M>, TransportError>, b: Bytes,
                           maxFrame: nat, parse: Bytes -> Option<M>)
    ensures AfterLine(line, Onward(tail, b, maxFrame, parse), parse) ==
            Onward(AfterLine(line, tail, parse), b, maxFrame, parse)
  {
    hide Line, Feed;
    if line.Ok? && tail.Ok? {
      var head, after := Line(line.value, parse), Feed(tail.value.pending, b, maxFrame, parse);
      if head.Ok? && after.Ok? {
        assert head.value + (tail.value.messages + after.value.messages) ==
               (head.value + tail.value.messages) + after.value.messages;
      }
    }
  }

  lemma UnfoldFeed<M>(pending: Bytes, chunk: Bytes, maxFrame: nat, parse: Bytes -> Option<M>)
    requires LineEnd(chunk) < |chunk|
    ensures Feed(pending, chunk, maxFrame, parse) ==
            AfterLine(Append(pending, chunk[..LineEnd(chunk)], maxFrame),
                      Feed([], chunk[LineEnd(chunk) + 1..], maxFrame, parse), parse)
  {
    hide Line, LineEnd;
  }

  lemma FeedShort<M>(pending: Bytes, a: Bytes, b: Bytes, maxFrame: nat, parse: Bytes -> Option<M>)
    requires |pending| <= maxFrame && LineEnd(a) == |a| && LineEnd(a + b) == |a| + LineEnd(b)
    requires a[..|a|] == a && (a + b)[..|a| + LineEnd(b)] == a + b[..LineEnd(b)]
    requires pending + (a + b[..LineEnd(b)]) == (pending + a) + b[..LineEnd(b)]
    requires LineEnd(b) < |b| ==> (a + b)[|a| + LineEnd(b) + 1..] == b[LineEnd(b) + 1..]
    ensures Feed(pending, a + b, maxFrame, parse) == Onward(Feed(pending, a, maxFrame, parse), b, maxFrame, parse)
  {
    hide Line, LineEnd;
    var first := Feed(pending, a, maxFrame, parse);
    if first.Ok? {
      assert first.value == Fed([], pending + a);
      var after := Feed(pending + a, b, maxFrame, parse);
      if after.Ok? {
        assert [] + after.value.messages == after.value.messages;
      }
    }
  }

  /** Splitting a chunk anywhere changes nothing. */
  lemma {:induction false} FeedSplit<M>(pending: Bytes, a: Bytes, b: Bytes, maxFrame: nat, parse: Bytes -> Option<M>)
    requires |pending| <= maxFrame
    ensures Feed(pending, a + b, maxFrame, parse) == Onward(Feed(pending, a, maxFrame, parse), b, maxFrame, parse)
    decreases |a|
  {
    hide Line, Feed, Onward, AfterLine, LineEnd;
    LineEndAppend(a, b);
    var i := LineEnd(a);
    if i < |a| {
      FeedSplit([], a[i + 1..], b, maxFrame, parse);
      assert (a + b)[..i] == a[..i] && (a + b)[i + 1..] == a[i + 1..] + b;
      UnfoldFeed(pending, a, maxFrame, parse);
      UnfoldFeed(pending, a + b, maxFrame, parse);
      AfterLineOnward(Append(pending, a[..i], maxFrame), Feed([], a[i + 1..], maxFrame, parse), b, maxFrame, parse);
    } else {
      var j := LineEnd(b);
      assert a[..i] == a && (a + b)[..i + j] == a + b[..j] && pending + (a + b[..j]) == (pending + a) + b[..j];
      if j < |b| {
        assert (a + b)[i + j + 1..] == b[j + 1..];
      }
      FeedShort(pending, a, b, maxFrame, parse);
    }
  }

  lemma {:induction false} FeedPendingBound<M>(pending: Bytes, chunk: Bytes, maxFrame: nat, parse: Bytes -> Option<M>)
    requires |pending| <= maxFrame && LINE_FEED !in pending && Feed(pending, chunk, maxFrame, parse).Ok?
    ensures |Feed(pending, chunk, maxFrame, parse).value.pending| <= maxFrame
    ensures LINE_FEED !in Feed(pending, chunk, maxFrame, parse).value.pending
    decreases |chunk|
  {
    var i := LineEnd(chunk);
    if i < |chunk| {
      FeedPendingBound([], chunk[i + 1..], maxFrame, parse);
    }
  }

  /** Chunks one by one are the concatenation in one piece. */
  lemma {:induction false} RunConcat<M>(pending: Bytes, chunks: seq<Bytes>, maxFrame: nat, parse: Bytes -> Option<M>)
    requires |pending| <= maxFrame && LINE_FEED !in pending
    ensures Run(pending, chunks, maxFrame, parse) == Run(pending, [Concat(chunks)], maxFrame, parse)
    decreases |chunks|
  {
    hide Feed, Finish;
    if chunks == [] {
      FeedNothing(pending, maxFrame, parse);
      assert Concat(chunks) == [];
      Single(Concat(chunks));
      var rest := Finish(pending, parse);
      if rest.Ok? {
        assert [] + rest.value == rest.value;
      }
    } else {
      var a, b := chunks[0], Concat(chunks[1..]);
      FeedSplit(pending, a, b, maxFrame, parse);
      var first := Feed(pending, a, maxFrame, parse);
      Single(Concat(chunks));
      Single(b);
      if first.Ok? {
        FeedPendingBound(pending, a, maxFrame, parse);
        RunConcat(first.value.pending, chunks[1..], maxFrame, parse);
        var second := Feed(first.value.pending, b, maxFrame, parse);
        if second.Ok? {
          var last := Finish(second.value.pending, parse);
          if last.Ok? {
            assert first.value.messages + (second.value.messages + last.value) ==
                   (first.value.messages + second.value.messages) + last.value;
          }
        }
      }
    }
  }

  lemma Single(bytes: Bytes)
    ensures [bytes][1..] == []
  {
  }

  lemma FeedNothing<M>(pending: Bytes, maxFrame: nat, parse: Bytes -> Option<M>)
    ensures Feed(pending, [], maxFrame, parse) == Ok(Fed([], pending))
  {
    assert pending + [] == pending;
  }

  lemma {:induction false} RunDecodes<M>(stream: Bytes, maxFrame: nat, parse: Bytes -> Option<M>)
    ensures Run([], [stream], maxFrame, parse) == Decode(stream, maxFrame, parse)
    decreases |stream|
  {
    hide Line;
    var i := LineEnd(stream);
    Single(stream);
    assert [] + stream[..i] == stream[..i];
    if i < |stream| {
      var tail := stream[i + 1..];
      RunDecodes(tail, maxFrame, parse);
      Single(tail);
      var first, rest := Line(stream[..i], parse), Feed([], tail, maxFrame, parse);
      if i <= maxFrame && first.Ok? && rest.Ok? {
        var last := Finish(rest.value.pending, parse);
        if last.Ok? {
          assert (first.value + rest.value.messages) + last.value == first.value + (rest.value.messages + last.value);
        }
      }
    } else {
      assert stream[..i] == stream;
      var last := Line(stream, parse);
      if last.Ok? {
        assert [] + last.value == last.value;
      }
    }
  }

  /**
    Decoding depends on the bytes alone: however the stream is cut, the decoder returns
    the messages of the whole stream, or fails with the error of the whole stream.
   */
  lemma ChunkingIrrelevant<M>(chunks: seq<Bytes>, maxFrame: nat, parse: Bytes -> Option<M>)
    ensures Run([], chunks, maxFrame, parse) == Decode(Concat(chunks), maxFrame, parse)
  {
    RunConcat([], chunks, maxFrame, parse);
    RunDecodes(Concat(chunks), maxFrame, parse);
  }

  // ----- the writer's frames -----

  function Frame<M>(m: M, encode: M -> Bytes): Bytes {
    encode(m) + [LINE_FEED]
  }

  function Frames<M>(ms: seq<M>, encode: M -> Bytes): Bytes {
    if ms == [] then [] else Frame(ms[0], encode) + Frames(ms[1..], encode)
  }

  /** What `JSON.stringify` guarantees of a message it prints, and `JSON.parse` of the print. */
  predicate Faithful<M(==)>(m: M, encode: M -> Bytes, parse: Bytes -> Option<M>) {
    var text := encode(m);
    && text != [] && LINE_FEED !in text && text[|text| - 1] != CARRIAGE_RETURN
    && parse(text) == Some(m)
  }

  lemma {:induction false} LineEndOf(line: Bytes, rest: Bytes)
    requires LINE_FEED !in line
    ensures LineEnd(line + [LINE_FEED] + rest) == |line|
    decreases |line|
  {
    var s := line + [LINE_FEED] + rest;
    if line != [] {
      assert s[1..] == line[1..] + [LINE_FEED] + rest && s[0] == line[0] && line[0] in line;
      LineEndOf(line[1..], rest);
    }
  }

  /** Every list of frames the writer accepts decodes to the messages written, under the same limit. */
  lemma {:induction false} FramesDecode<M>(ms: seq<M>, maxFrame: nat, encode: M -> Bytes, parse: Bytes -> Option<M>)
    requires forall i :: 0 <= i < |ms| ==> Faithful(ms[i], encode, parse) && |Frame(ms[i], encode)| - 1 <= maxFrame
    ensures Decode(Frames(ms, encode), maxFrame, parse) == Ok(ms)
    decreases |ms|
  {
    if ms != [] {
      var line, rest := encode(ms[0]), Frames(ms[1..], encode);
      var stream := Frames(ms, encode);
      assert Faithful(ms[0], encode, parse);
      LineEndOf(line, rest);
      assert stream == line + [LINE_FEED] + rest && stream[..|line|] == line && stream[|line| + 1..] == rest;
      FramesDecode(ms[1..], maxFrame, encode, parse);
      assert ms == [ms[0]] + ms[1..];
    }
  }

  // ----- the decoder object -----

  class AppServerJsonLineDecoder<M> {
    const maxBufferedBytes: nat
    const maxFrameBytes: nat
    const parse: Bytes -> Option<M>
    var failed: bool
    var pending: seq<Bytes>
    var pendingBytes: nat

    ghost predicate Valid()
      reads this
    {
      && maxFrameBytes <= maxBufferedBytes
      && pendingBytes == |Concat(pending)| <= maxFrameBytes && LINE_FEED !in Concat(pending)
      && (failed ==> pending == [])
    }

    constructor (maxBufferedBytes: nat, maxFrameBytes: nat, parse: Bytes -> Option<M>)
      requires 1 <= maxFrameBytes <= maxBufferedBytes
      ensures Valid() && !failed && pending == []
      ensures this.maxFrameBytes == maxFrameBytes && this.parse == parse
    {
      this.maxBufferedBytes, this.maxFrameBytes, this.parse := maxBufferedBytes, maxFrameBytes, parse;
      failed, pending, pendingBytes := false, [], 0;
    }

    /** A failed decoder stays closed; otherwise the outcome and the new pending bytes are `Feed`'s. */
    method Push(chunk: Bytes) returns (r: Result<seq<M>, TransportError>)
      requires Valid()
      modifies this
      ensures Valid()
      ensures old(failed) ==> r == Err(TransportClosed) && failed
      ensures !old(failed) ==>
                match Feed(old(Concat(pending)), chunk, maxFrameBytes, parse)
                case Ok(fed) => r == Ok(fed.messages) && !failed && Concat(pending) == fed.pending
                case Err(e) => r == Err(e) && failed
    {
      hide Feed, Line, LineEnd;
      if failed {
        return Err(TransportClosed);
      }
      ghost var whole := Feed(Concat(pending), chunk, maxFrameBytes, parse);
      var messages: seq<M> := [];
      var segmentStart, index := 0, 0;
      FeedResumesStart(whole);
      assert chunk[0..] == chunk;
      while index < |chunk|
        invariant segmentStart <= index <= |chunk| && Valid() && !failed
        invariant LINE_FEED !in chunk[segmentStart..index]
        invariant FeedResumes(whole, messages, Feed(Concat(pending), chunk[segmentStart..], maxFrameBytes, parse))
      {
        if chunk[index] == LINE_FEED {
          FeedLine(Concat(pending), chunk[segmentStart..index], chunk[index + 1..], maxFrameBytes, parse);
          assert chunk[segmentStart..] == chunk[segmentStart..index] + [LINE_FEED] + chunk[index + 1..];
          var appended := AppendSegment(chunk[segmentStart..index]);
          if appended.Fail? {
            failed, pending, pendingBytes := true, [], 0;
            return Err(appended.error);
          }
          var message := ConsumeLine();
          if message.Err? {
            failed, pending, pendingBytes := true, [], 0;
            return Err(message.error);
          }
          FeedResumesStep(whole, messages, message.value, Feed([], chunk[index + 1..], maxFrameBytes, parse));
          messages := messages + message.value;
          segmentStart := index + 1;
        }
        index := index + 1;
      }
      assert chunk[segmentStart..index] == chunk[segmentStart..];
      FeedPart(Concat(pending), chunk[segmentStart..], maxFrameBytes, parse);
      var appended := AppendSegment(chunk[segmentStart..]);
      if appended.Fail? {
        failed, pending, pendingBytes := true, [], 0;
        return Err(appended.error);
      }
      assert messages + [] == messages;
      return Ok(messages);
    }

    method FinishStream() returns (r: Result<seq<M>, TransportError>)
      requires Valid()
      modifies this
      ensures Valid()
      ensures old(failed) ==> r == Err(TransportClosed) && failed
      ensures !old(failed) ==> r == Finish(old(Concat(pending)), parse) && failed == r.Err? && Concat(pending) == []
    {
      if failed {
        return Err(TransportClosed);
      }
      if pendingBytes == 0 {
        return Ok([]);
      }
      r := ConsumeLine();
      if r.Err? {
        failed, pending, pendingBytes := true, [], 0;
      }
    }

    /** Never overflows the buffer: the frame limit is met first. */
    method AppendSegment(segment: Bytes) returns (r: Outcome<TransportError>)
      requires Valid() && !failed && LINE_FEED !in segment
      modifies this`pending, this`pendingBytes
      ensures r != Fail(BufferOverflow)
      ensures match Append(old(Concat(pending)), segment, maxFrameBytes)
              case Ok(bytes) => r.Pass? && Valid() && Concat(pending) == bytes
              case Err(e) => r == Fail(e)
    {
      assert Concat(pending) + [] == Concat(pending);
      if segment == [] {
        return Pass;
      }
      var nextBytes := pendingBytes + |segment|;
      if nextBytes > maxFrameBytes {
        return Fail(FrameTooLarge);
      }
      if nextBytes > maxBufferedBytes {
        return Fail(BufferOverflow);
      }
      ConcatPush(pending, segment);
      pending := pending + [segment];
      pendingBytes := nextBytes;
      return Pass;
    }

    method ConsumeLine() returns (r: Result<seq<M>, TransportError>)
      requires Valid() && !failed
      modifies this`pending, this`pendingBytes
      ensures Valid() && pending == [] && r == Line(old(Concat(pending)), parse)
    {
      var line := Concat(pending);
      pending, pendingBytes := [], 0;
      if line != [] && line[|line| - 1] == CARRIAGE_RETURN {
        line := line[..|line| - 1];
      }
      if line == [] {
        return Ok([]);
      }
      var message := parse(line);
      return if message.Some? then Ok([message.value]) else Err(InvalidFrame);
    }
  }

  lemma {:induction false} ConcatPush(chunks: seq<Bytes>, last: Bytes)
    ensures Concat(chunks + [last]) == Concat(chunks) + last
    decreases |chunks|
  {
    if chunks == [] {
      Single(last);
      assert chunks + [last] == [last];
    } else {
      assert (chunks + [last])[1..] == chunks[1..] + [last];
      ConcatPush(chunks[1..], last);
    }
  }

  lemma {:induction false} NoLineEnd(bytes: Bytes)
    requires LINE_FEED !in bytes
    ensures LineEnd(bytes) == |bytes|
    decreases |bytes|
  {
    if bytes != [] {
      assert bytes[0] in bytes;
      NoLineEnd(bytes[1..]);
    }
  }

  /** Feeding a whole line and what follows it. */
  lemma FeedLine<M>(pending: Bytes, line: Bytes, rest: Bytes, maxFrame: nat, parse: Bytes -> Option<M>)
    requires LINE_FEED !in line
    ensures Feed(pending, line + [LINE_FEED] + rest, maxFrame, parse) ==
            AfterLine(Append(pending, line, maxFrame), Feed([], rest, maxFrame, parse), parse)
  {
    hide Line, LineEnd;
    LineEndOf(line, rest);
    var chunk := line + [LINE_FEED] + rest;
    assert chunk[..|line|] == line && chunk[|line| + 1..] == rest;
  }

  /** Feeding part of a line. */
  lemma FeedPart<M>(pending: Bytes, part: Bytes, maxFrame: nat, parse: Bytes -> Option<M>)
    requires LINE_FEED !in part
    ensures Feed(pending, part, maxFrame, parse) ==
            match Append(pending, part, maxFrame)
            case Ok(line) => Ok(Fed([], line))
            case Err(e) => Err(e)
  {
    hide Line, LineEnd;
    NoLineEnd(part);
    assert part[..|part|] == part;
  }

  /** A push that has returned `done` so far ends as the feeding of what is left does. */
  predicate FeedResumes<M(==)>(whole: Result<Fed<M>, TransportError>, done: seq<M>,
                               left: Result<Fed<M>, TransportError>) {
    match left
    case Ok(fed) => whole == Ok(Fed(done + fed.messages, fed.pending))
    case Err(e) => whole == Err(e)
  }

  lemma FeedResumesStart<M>(whole: Result<Fed<M>, TransportError>)
    ensures FeedResumes(whole, [], whole)
  {
    if whole.Ok? {
      assert [] + whole.value.messages == whole.value.messages;
    }
  }

  lemma FeedResumesStep<M>(whole: Result<Fed<M>, TransportError>, done: seq<M>, line: seq<M>,
                           left: Result<Fed<M>, TransportError>)
    requires FeedResumes(whole, done,
                         if left.Err? then left else Ok(Fed(line + left.value.messages, left.value.pending)))
    ensures FeedResumes(whole, done + line, left)
  {
    if left.Ok? {
      assert done + (line + left.value.messages) == (done + line) + left.value.messages;
    }
  }
}
