/** The handler's reads.  The connection hands out octets in pieces of its own choosing and may fail
    at any read; every reader is proved to do what the functions of ChunkDecoder say about the whole
    of what the connection still holds. */
module BodyReader {
  import opened Options
  import opened Octets
  import opened ChunkGrammar
  import opened ChunkExtensions
  import opened ChunkDecoder
  import opened Numerals

  // The deadline passing (or the socket timing out), and any other read error.
  datatype Fault = TimedOut | Broken

  // What the connection does at one read: it has so many octets ready, or it fails.
  datatype Event = Ready(octets: nat) | Fails(fault: Fault)

  datatype Reading<+T> = Got(value: T) | Failed(fault: Fault) {
    predicate IsFailure() {
      Failed?
    }
    function PropagateFailure<U>(): Reading<U>
      requires Failed?
    {
      Failed(fault)
    }
    function Extract(): T
      requires Got?
    {
      value
    }
  }

  datatype RequestError =
    InvalidFraming | JsonTooLarge | BodyTooLarge | InvalidChunkedBody | IncompleteBody | BodyTimeout

  datatype Reply = Body(octets: bytes) | Refused(error: RequestError)

  function ReplyOf(o: Outcome): Reply {
    match o
    case Accepted(body, _) => Body(body)
    case Malformed(_) => Refused(InvalidChunkedBody)
    case TooLarge(_) => Refused(BodyTooLarge)
  }

  // ---- framing

  datatype Framing = Chunked | Length(octets: nat) | NoFraming(error: RequestError)

  const MAX_JSON := 1024 * 1024

  // The headers come as the lists of their trimmed values, Transfer-Encoding in lower case.
  function FramingOf(preview: bool, lengths: seq<string>, encodings: seq<string>): Framing {
    if |lengths| > 1 || |encodings| > 1 then NoFraming(InvalidFraming)
    else if encodings != [] then
      if !preview || lengths != [] || encodings[0] != "chunked" then NoFraming(InvalidFraming) else Chunked
    else if lengths == [] then Length(0)
    else if |lengths[0]| > 20 || lengths[0] == "" || !AreDecimal(lengths[0]) then NoFraming(InvalidFraming)
    else
      var length := DecimalValue(lengths[0]);
      if length > (if preview then MAX_BODY else MAX_JSON)
      then NoFraming(if preview then BodyTooLarge else JsonTooLarge)
      else Length(length)
  }

  // What a framing makes of the octets ahead, and how many of them it takes.
  function BodyOf(framing: Framing, s: bytes): (Reply, nat) {
    match framing
    case NoFraming(error) => (Refused(error), 0)
    case Chunked => (ReplyOf(Decode(s)), Decode(s).used)
    case Length(n) =>
      if n == 0 then (Body([123, 125]), 0)
      else if |s| < n then (Refused(IncompleteBody), |s|)
      else (Body(s[..n]), n)
  }

  // A request is read under one framing only: a body is never cut by a length when a transfer coding
  // was declared, and two declarations of either kind, or one of each, are refused with nothing read.
  lemma OneFraming(preview: bool, lengths: seq<string>, encodings: seq<string>, s: bytes)
    ensures var f := FramingOf(preview, lengths, encodings);
      && (|lengths| + |encodings| > 1 ==> BodyOf(f, s) == (Refused(InvalidFraming), 0))
      && (f.Chunked? <==> preview && lengths == [] && encodings == ["chunked"])
      && (f.Length? && f.octets > 0 ==> encodings == [] && |lengths| == 1 && DecimalValue(lengths[0]) == f.octets)
      && (BodyOf(f, s).0.Body? ==> |BodyOf(f, s).0.octets| <= MAX_BODY)
      && BodyOf(f, s).1 <= |s| && BodyOf(f, s).1 <= MAX_READ
  {
    hide Decode, DecimalValue;
    ReadBound(s);
  }

  // ---- what a request is answered, said of its headers and octets alone

  // The octets up to `used` are a message within the caps that carries `body`.
  ghost predicate Carries(s: bytes, body: bytes, used: nat) {
    exists m :: IsMessage(m) && WithinCaps(m) && used <= |s| && PrintMessage(m) == s[..used] && Payload(m.chunks) == body
  }

  ghost predicate ChunkedAnswer(s: bytes, r: Reply, used: nat) {
    && (forall body :: r == Body(body) <==> exists n :: Carries(s, body, n))
    && (r.Body? ==> Carries(s, r.octets, used))
    && (r == Refused(BodyTooLarge) <==> exists cs, digits, es :: Oversize(s, cs, digits, es, 0, 0))
    && (r.Body? || r == Refused(BodyTooLarge) || r == Refused(InvalidChunkedBody))
  }

  ghost predicate LengthAnswer(preview: bool, n: nat, s: bytes, r: Reply, used: nat) {
    if n == 0 then r == Body([123, 125]) && used == 0
    else if n > (if preview then MAX_BODY else MAX_JSON) then
      r == Refused(if preview then BodyTooLarge else JsonTooLarge) && used == 0
    else if n <= |s| then r == Body(s[..n]) && used == n
    else r == Refused(IncompleteBody) && used == |s|
  }

  ghost predicate Answers(preview: bool, lengths: seq<string>, encodings: seq<string>, s: bytes, r: Reply, used: nat) {
    if encodings == [] && lengths == [] then r == Body([123, 125]) && used == 0
    else if preview && encodings == ["chunked"] && lengths == [] then ChunkedAnswer(s, r, used)
    else if encodings == [] && |lengths| == 1 && |lengths[0]| <= 20 && (exists n :: IsNumeral(lengths[0], n, 10)) then
      forall n :: IsNumeral(lengths[0], n, 10) ==> LengthAnswer(preview, n, s, r, used)
    else r == Refused(InvalidFraming) && used == 0
  }

  lemma DecodedAnswers(s: bytes)
    ensures ChunkedAnswer(s, ReplyOf(Decode(s)), Decode(s).used)
  {
    hide Decode, Oversize, Carries;
    TooLargeExact(s);
    forall body, n: nat
      ensures Decode(s) == Accepted(body, n) <==> Carries(s, body, n)
    {
      DecodedCarries(s, body, n);
    }
  }

  lemma DecodedCarries(s: bytes, body: bytes, n: nat)
    ensures Decode(s) == Accepted(body, n) <==> Carries(s, body, n)
  {
    hide Decode, IsMessage, WithinCaps, PrintMessage, Payload;
    AcceptedExact(s, body, n);
  }

  lemma NumeralRead(text: string)
    ensures (exists n :: IsNumeral(text, n, 10)) <==> text != "" && AreDecimal(text)
    ensures forall n :: IsNumeral(text, n, 10) ==> text != "" && AreDecimal(text) && DecimalValue(text) == n
  {
    hide AreDecimal, DecimalValue, IsNumeral;
    forall n
      ensures IsNumeral(text, n, 10) <==> text != "" && AreDecimal(text) && DecimalValue(text) == n
    {
      DecimalExact(text, n);
    }
    if text != "" && AreDecimal(text) {
      assert IsNumeral(text, DecimalValue(text), 10);
    }
  }

  lemma BodyAnswers(preview: bool, lengths: seq<string>, encodings: seq<string>, s: bytes)
    ensures var spec := BodyOf(FramingOf(preview, lengths, encodings), s);
            Answers(preview, lengths, encodings, s, spec.0, spec.1)
  {
    hide Decode, DecimalValue, ChunkedAnswer, IsNumeral, AreDecimal;
    DecodedAnswers(s);
    if |lengths| == 1 {
      NumeralRead(lengths[0]);
    }
  }

  // A stream is answered in one way only.
  lemma AnsweredOnce(preview: bool, lengths: seq<string>, encodings: seq<string>, s: bytes, r: Reply, used: nat,
                     r': Reply, used': nat)
    requires Answers(preview, lengths, encodings, s, r, used) && Answers(preview, lengths, encodings, s, r', used')
    ensures r == r' && (r.Body? ==> used == used')
  {
    hide ChunkedAnswer, LengthAnswer, IsNumeral;
    if preview && encodings == ["chunked"] && lengths == [] {
      ChunkedOnce(s, r, used, r', used');
    } else if encodings == [] && |lengths| == 1 && |lengths[0]| <= 20 && (exists n :: IsNumeral(lengths[0], n, 10)) {
      var n :| IsNumeral(lengths[0], n, 10);
      assert LengthAnswer(preview, n, s, r, used) && LengthAnswer(preview, n, s, r', used');
      LengthOnce(preview, n, s, r, used, r', used');
    }
  }

  lemma LengthOnce(preview: bool, n: nat, s: bytes, r: Reply, used: nat, r': Reply, used': nat)
    requires LengthAnswer(preview, n, s, r, used) && LengthAnswer(preview, n, s, r', used')
    ensures r == r' && used == used'
  {
  }

  lemma ChunkedOnce(s: bytes, r: Reply, used: nat, r': Reply, used': nat)
    requires ChunkedAnswer(s, r, used) && ChunkedAnswer(s, r', used')
    ensures r == r' && (r.Body? ==> used == used')
  {
    hide Carries, Oversize;
    if r.Body? && r'.Body? {
      CarriedOnce(s, r.octets, used, r'.octets, used');
    }
  }

  lemma CarriedOnce(s: bytes, body: bytes, used: nat, body': bytes, used': nat)
    requires Carries(s, body, used) && Carries(s, body', used')
    ensures body == body' && used == used'
  {
    hide Decode, IsMessage, WithinCaps, PrintMessage, Payload;
    AcceptedExact(s, body, used);
    AcceptedExact(s, body', used');
  }

  // ---- the readers

  // `after` is what is left of `before` once n octets are taken.
  ghost predicate Took(before: bytes, after: bytes, n: nat): (r: bool)
    ensures r ==> |before| == |after| + n
  {
    n <= |before| && after == before[n..]
  }

  lemma TookNothing(s: bytes)
    ensures Took(s, s, 0)
  {
  }

  lemma TookTwice(a: bytes, b: bytes, c: bytes, n: nat, k: nat)
    requires Took(a, b, n) && Took(b, c, k)
    ensures Took(a, c, n + k) && Took(a, c, |a| - |c|) && |a| - |c| == n + k
  {
  }

  // `seen` is what has been read of `start`, `rest` what is left of it.
  ghost predicate Seen(start: bytes, seen: bytes, rest: bytes): (r: bool)
    ensures r ==> |start| == |seen| + |rest|
  {
    start == seen + rest
  }

  lemma SeenNothing(start: bytes)
    ensures Seen(start, [], start)
  {
  }

  lemma SeenMore(start: bytes, seen: bytes, before: bytes, part: bytes, after: bytes)
    requires Seen(start, seen, before) && Seen(before, part, after)
    ensures Seen(start, seen + part, after)
  {
    Regroup(seen, part, after);
  }

  lemma SeenTook(start: bytes, seen: bytes, rest: bytes)
    requires Seen(start, seen, rest)
    ensures Took(start, rest, |seen|) && Took(start, rest, |start| - |rest|) && seen == start[..|seen|]
  {
  }

  // A line read has stopped: nothing more came, the line is full, or it has its LF.
  lemma LineDone(start: bytes, seen: bytes, rest: bytes, budget: nat)
    requires Seen(start, seen, rest) && LF !in seen && |seen| <= budget
    requires rest == [] || |seen| == budget
    ensures LineLen(start, budget) == |seen|
  {
    LineLenStep(seen, rest, budget);
  }

  lemma LineBroken(start: bytes, seen: bytes, rest: bytes, budget: nat)
    requires Seen(start, seen + [LF], rest) && LF !in seen && |seen| < budget
    ensures LineLen(start, budget) == |seen| + 1
  {
    Regroup(seen, [LF], rest);
    LineLenStep(seen, [LF] + rest, budget);
  }

  // One turn of the trailer loop, from the line it has just read.
  lemma TrailerTurn(s: bytes, after: bytes, line: bytes, count: nat, total: nat)
    requires line == s[..LineLen(s, MAX_TRAILER_LINE + 1)] && Took(s, after, |line|)
    ensures DecodeTrailers(s, count, total) ==
            if line == [] || |line| > MAX_TRAILER_LINE || total + |line| > MAX_TRAILER_BYTES || !EndsLine(line)
            then Malformed(|line|)
            else if line == CRLF then Accepted([], |line|)
            else if count + 1 > MAX_TRAILERS || !FieldOk(line[..|line| - 2]) then Malformed(|line|)
            else DecodeTrailers(after, count + 1, total + |line|).After(|line|)
  {
    hide FieldOk;
  }

  // One turn of the chunk loop, up to the size it has just parsed.
  lemma SizeTurn(s: bytes, count: nat, body: bytes)
    ensures var size, n := SizeLine(s), LineLen(s, MAX_SIZE_LINE + 1);
      && (size.None? || (size.value > 0 && count == MAX_CHUNKS) ==> DecodeFrom(s, count, body) == Malformed(n))
      && (size.Some? && size.value > 0 && count < MAX_CHUNKS && |body| + size.value > MAX_BODY ==>
            DecodeFrom(s, count, body) == TooLarge(n))
  {
    hide SizeLine, LineLen, DecodeTrailers;
  }

  lemma LastTurn(s: bytes, after: bytes, count: nat, body: bytes)
    requires SizeLine(s) == Some(0) && Took(s, after, LineLen(s, MAX_SIZE_LINE + 1))
    ensures var t := DecodeTrailers(after, 0, 0);
            var n := LineLen(s, MAX_SIZE_LINE + 1);
            DecodeFrom(s, count, body) == if t.Accepted? then Accepted(body, n + t.used) else t.After(n)
  {
    hide SizeLine, LineLen, DecodeTrailers;
  }

  // The chunk and the terminator are the next k octets and the two after them, as far as they go.
  ghost predicate ChunkRead(data: bytes, after: bytes, k: nat, chunk: bytes, terminator: bytes): (r: bool)
    ensures r ==> |data| == |after| + |chunk| + |terminator|
  {
    && chunk == data[..Min(k, |data|)]
    && terminator == data[|chunk|..][..Min(2, |data| - |chunk|)]
    && Took(data, after, |chunk| + |terminator|)
  }

  // The rest of the turn, from the chunk and the terminator as they were read.
  lemma DataTurn(s: bytes, data: bytes, after: bytes, n: nat, k: nat, chunk: bytes, terminator: bytes,
                 count: nat, body: bytes)
    requires n == LineLen(s, MAX_SIZE_LINE + 1) && SizeLine(s) == Some(k) && k > 0
    requires count < MAX_CHUNKS && |body| + k <= MAX_BODY
    requires Took(s, data, n) && ChunkRead(data, after, k, chunk, terminator)
    ensures DecodeFrom(s, count, body) ==
            if |chunk| != k || terminator != CRLF then Malformed(n + |chunk| + |terminator|)
            else DecodeFrom(after, count + 1, body + chunk).After(n + k + 2)
  {
    hide SizeLine, LineLen, DecodeTrailers;
    if n + k + 2 <= |s| {
      assert terminator == s[n + k..n + k + 2];
      assert chunk == s[n..n + k];
      assert after == s[n + k + 2..];
    }
  }

  lemma {:induction false} LineLenStep(seen: bytes, rest: bytes, budget: nat)
    requires LF !in seen && |seen| <= budget
    ensures LineLen(seen + rest, budget) == |seen| + LineLen(rest, budget - |seen|)
  {
    if seen == [] {
      assert seen + rest == rest;
    } else {
      assert (seen + rest)[1..] == seen[1..] + rest;
      LineLenStep(seen[1..], rest, budget - 1);
    }
  }

  // The chunked reader went from `before` to `after`: with the verdict of Decode and exactly the
  // octets it takes, or stopped by a fault within the read bound.
  ghost predicate DecodedFrom(before: bytes, after: bytes, r: Reading<Reply>) {
    && (r.Got? ==> r.value == ReplyOf(Decode(before)) && Took(before, after, Decode(before).used))
    && |after| <= |before| <= |after| + MAX_READ && Took(before, after, |before| - |after|)
  }

  // What holds between the turns of the chunk loop: `count` chunks have been taken off `start`.
  ghost predicate Progress(start: bytes, rest: bytes, count: nat, body: bytes, used: nat) {
    && count <= MAX_CHUNKS && |body| <= MAX_BODY
    && Took(start, rest, used) && used <= count * 131 + |body|
    && Decode(start) == DecodeFrom(rest, count, body).After(used)
  }

  lemma Begin(start: bytes)
    ensures Progress(start, start, 0, [], 0)
  {
    hide DecodeFrom;
  }

  // The loop ends n octets into a turn: with the verdict of the turn, or on a fault.
  lemma Stop(start: bytes, before: bytes, count: nat, body: bytes, used: nat, after: bytes, n: nat, r: Reading<Reply>)
    requires Progress(start, before, count, body, used) && Took(before, after, n)
    requires r.Got? ==> r.value == ReplyOf(DecodeFrom(before, count, body)) && n == DecodeFrom(before, count, body).used
    requires r.Failed? ==> count * 131 + |body| + n <= MAX_READ
    ensures DecodedFrom(start, after, r)
  {
    hide DecodeFrom, Decode;
    TookTwice(start, before, after, used, n);
    ReadBound(start);
  }

  lemma Advance(start: bytes, before: bytes, count: nat, body: bytes, used: nat, after: bytes, n: nat, chunk: bytes)
    requires Progress(start, before, count, body, used) && Took(before, after, n)
    requires count < MAX_CHUNKS && |body| + |chunk| <= MAX_BODY && n <= |chunk| + 131
    requires DecodeFrom(before, count, body) == DecodeFrom(after, count + 1, body + chunk).After(n)
    ensures Progress(start, after, count + 1, body + chunk, used + n)
  {
    hide DecodeFrom, Decode;
    TookTwice(start, before, after, used, n);
    DecodeFrom(after, count + 1, body + chunk).AfterTwice(n, used);
  }

  class RequestReader {
    const script: nat -> Event
    var readCount: nat
    var rest: bytes           // the octets the connection has yet to deliver
    ghost var held: nat       // the most body octets buffered at any time

    constructor (script: nat -> Event, stream: bytes)
      ensures rest == stream && readCount == 0 && held == 0
    {
      this.script := script;
      readCount, rest := 0, stream;
      held := 0;
    }

    // The last read, made since the count was `since`, failed so.
    ghost predicate StoppedBy(fault: Fault, since: nat)
      reads this`readCount
    {
      since < readCount && script(readCount - 1) == Fails(fault)
    }

    // No read since the count was `since` has failed.
    ghost predicate AllReady(since: nat)
      reads this`readCount
    {
      since <= readCount && forall k :: since <= k < readCount ==> script(k).Ready?
    }

    // At most `size` octets, at least one unless the stream has ended.
    method ReadOnce(size: nat) returns (r: Reading<bytes>)
      requires size > 0
      modifies this`readCount, this`rest
      ensures old(readCount) <= readCount && (r.Failed? ==> StoppedBy(r.fault, old(readCount)))
      ensures r.Got? ==> AllReady(old(readCount))
      ensures r.Failed? ==> rest == old(rest)
      ensures r.Got? ==>
                && |r.value| <= size && (r.value == [] <==> old(rest) == [])
                && Seen(old(rest), r.value, rest)
    {
      var event := script(readCount);
      readCount := readCount + 1;
      if event.Fails? {
        return Failed(event.fault);
      }
      var k := Min(Min(size, |rest|), if event.octets == 0 then 1 else event.octets);
      r := Got(rest[..k]);
      rest := rest[k..];
    }

    method ReadExact(size: nat) returns (r: Reading<bytes>)
      modifies this`readCount, this`rest
      ensures old(readCount) <= readCount && (r.Failed? ==> StoppedBy(r.fault, old(readCount)))
      ensures r.Got? ==> AllReady(old(readCount))
      ensures r.Got? ==>
                && r.value == old(rest)[..Min(size, |old(rest)|)]
                && Took(old(rest), rest, |r.value|)
      ensures |rest| <= |old(rest)| <= |rest| + size && Took(old(rest), rest, |old(rest)| - |rest|)
    {
      hide Took, Seen;
      ghost var start := rest;
      var content := [];
      SeenNothing(start);
      while |content| < size
        invariant AllReady(old(readCount))
        invariant |content| <= size && Seen(start, content, rest)
        decreases size - |content|
      {
        SeenTook(start, content, rest);
        ghost var before := rest;
        var part :- ReadOnce(size - |content|);
        if part == [] {
          break;
        }
        SeenMore(start, content, before, part, rest);
        content := content + part;
      }
      SeenTook(start, content, rest);
      return Got(content);
    }

    method ReadLine(limit: nat) returns (r: Reading<bytes>)
      modifies this`readCount, this`rest
      ensures old(readCount) <= readCount && (r.Failed? ==> StoppedBy(r.fault, old(readCount)))
      ensures r.Got? ==> AllReady(old(readCount))
      ensures r.Got? ==>
                && r.value == old(rest)[..LineLen(old(rest), limit + 1)]
                && Took(old(rest), rest, |r.value|)
      ensures |rest| <= |old(rest)| <= |rest| + limit + 1 && Took(old(rest), rest, |old(rest)| - |rest|)
    {
      hide Took, Seen, LineLen;
      ghost var start := rest;
      var line := [];
      SeenNothing(start);
      while |line| <= limit
        invariant AllReady(old(readCount))
        invariant |line| <= limit + 1 && LF !in line && Seen(start, line, rest)
        decreases limit + 1 - |line|
      {
        SeenTook(start, line, rest);
        ghost var before, seen := rest, line;
        var part :- ReadOnce(1);
        if part == [] {
          break;
        }
        SeenMore(start, seen, before, part, rest);
        line := line + part;
        if part == [LF] {
          LineBroken(start, seen, rest, limit + 1);
          SeenTook(start, line, rest);
          return Got(line);
        }
        assert part == [part[0]];
      }
      LineDone(start, line, rest, limit + 1);
      SeenTook(start, line, rest);
      return Got(line);
    }

    method ReadTrailers(body: bytes) returns (r: Reading<Reply>)
      modifies this`readCount, this`rest
      ensures old(readCount) <= readCount && (r.Failed? ==> StoppedBy(r.fault, old(readCount)))
      ensures r.Got? ==> AllReady(old(readCount))
      ensures r.Got? ==>
                && Took(old(rest), rest, DecodeTrailers(old(rest), 0, 0).used)
                && r.value == if DecodeTrailers(old(rest), 0, 0).Accepted? then Body(body)
                              else Refused(InvalidChunkedBody)
      ensures |rest| <= |old(rest)| <= |rest| + MAX_TRAILER_BYTES + MAX_TRAILER_LINE + 1
      ensures Took(old(rest), rest, |old(rest)| - |rest|)
    {
      hide LineLen, FieldOk, Took, DecodeTrailers, EndsLine;
      ghost var start := rest;
      var trailerCount: nat, trailerBytes: nat := 0, 0;
      TookNothing(start);
      while true
        invariant AllReady(old(readCount))
        invariant trailerBytes <= MAX_TRAILER_BYTES && Took(start, rest, trailerBytes)
        invariant DecodeTrailers(start, 0, 0) == DecodeTrailers(rest, trailerCount, trailerBytes).After(trailerBytes)
        decreases |rest|
      {
        ghost var before, taken := rest, trailerBytes;
        var outcome := ReadLine(MAX_TRAILER_LINE);
        TookTwice(start, before, rest, taken, |before| - |rest|);
        var trailer :- outcome;
        TrailerTurn(before, rest, trailer, trailerCount, taken);
        if trailer == [] {
          return Got(Refused(InvalidChunkedBody));
        }
        trailerBytes := trailerBytes + |trailer|;
        if |trailer| > MAX_TRAILER_LINE || trailerBytes > MAX_TRAILER_BYTES || !EndsLine(trailer) {
          return Got(Refused(InvalidChunkedBody));
        }
        if trailer == CRLF {
          return Got(Body(body));
        }
        trailerCount := trailerCount + 1;
        if trailerCount > MAX_TRAILERS {
          return Got(Refused(InvalidChunkedBody));
        }
        if !FieldOk(trailer[..|trailer| - 2]) {
          return Got(Refused(InvalidChunkedBody));
        }
      }
    }

    // The size line of a turn: nothing when it is absent, too long, unterminated or not a size.
    method ReadSize() returns (r: Reading<Option<nat>>)
      modifies this`readCount, this`rest
      ensures old(readCount) <= readCount && (r.Failed? ==> StoppedBy(r.fault, old(readCount)))
      ensures r.Got? ==> AllReady(old(readCount))
      ensures r.Got? ==> r.value == SizeLine(old(rest)) && Took(old(rest), rest, LineLen(old(rest), MAX_SIZE_LINE + 1))
      ensures r.Got? && r.value.Some? ==> |old(rest)| <= |rest| + MAX_SIZE_LINE
      ensures |rest| <= |old(rest)| <= |rest| + MAX_SIZE_LINE + 1 && Took(old(rest), rest, |old(rest)| - |rest|)
    {
      hide LineLen, ParseSize, EndsLine;
      ghost var start := rest;
      var sizeLine :- ReadLine(MAX_SIZE_LINE);
      if sizeLine == [] || |sizeLine| > MAX_SIZE_LINE || !EndsLine(sizeLine) {
        return Got(None);
      }
      assert sizeLine[..|sizeLine| - 2] == start[..|sizeLine| - 2];
      var size := ParseWritingPolicyChunkSize(sizeLine[..|sizeLine| - 2]);
      return Got(size);
    }

    // The two exact reads of a turn: the chunk, with `buffered` octets of body already held, and what
    // should be its closing CRLF.
    method ReadChunk(size: nat, buffered: nat) returns (r: Reading<(bytes, bytes)>)
      modifies this
      ensures old(readCount) <= readCount && (r.Failed? ==> StoppedBy(r.fault, old(readCount)))
      ensures r.Got? ==> AllReady(old(readCount))
      ensures r.Got? ==> ChunkRead(old(rest), rest, size, r.value.0, r.value.1)
      ensures |rest| <= |old(rest)| <= |rest| + size + 2 && Took(old(rest), rest, |old(rest)| - |rest|)
      ensures old(held) <= held && (held == old(held) || held <= buffered + size)
    {
      ghost var start := rest;
      var chunk :- ReadExact(size);
      held := if held < buffered + |chunk| then buffered + |chunk| else held;
      ghost var ending := rest;
      var terminatorRead := ReadExact(2);
      TookTwice(start, ending, rest, |chunk|, |ending| - |rest|);
      var terminator :- terminatorRead;
      return Got((chunk, terminator));
    }

    // Whatever pieces the connection deals in, the reply and the octets taken are those of Decode;
    // a failing read still leaves within the bound, and no more than the cap is ever buffered.
    method ReadChunkedBody() returns (r: Reading<Reply>)
      modifies this
      ensures old(readCount) <= readCount && (r.Failed? ==> StoppedBy(r.fault, old(readCount)))
      ensures r.Got? ==> AllReady(old(readCount))
      ensures DecodedFrom(old(rest), rest, r)
      ensures old(held) <= held && (held == old(held) || held <= MAX_BODY)
    {
      hide LineLen, SizeLine, DecodeTrailers, DecodeFrom, Took, ChunkRead, Outcome.After, DecodedFrom, Progress;
      ghost var start := rest;
      ghost var used: nat := 0;
      var body: bytes, chunkCount: nat := [], 0;
      Begin(start);
      while true
        invariant AllReady(old(readCount))
        invariant chunkCount <= MAX_CHUNKS && |body| <= MAX_BODY
        invariant Progress(start, rest, chunkCount, body, used)
        invariant old(held) <= held && (held == old(held) || held <= MAX_BODY)
        decreases |rest|
      {
        ghost var before := rest;
        SizeTurn(before, chunkCount, body);
        var sizeRead := ReadSize();
        ghost var data, n := rest, |before| - |rest|;
        if sizeRead.Failed? {
          r := Failed(sizeRead.fault);
          Stop(start, before, chunkCount, body, used, rest, n, r);
          return;
        }
        var chunkSize := sizeRead.value;
        if chunkSize.None? {
          r := Got(Refused(InvalidChunkedBody));
          Stop(start, before, chunkCount, body, used, rest, n, r);
          return;
        }
        if chunkSize.value == 0 {
          LastTurn(before, data, chunkCount, body);
          TrailersNeverTooLarge(data, 0, 0);
          r := ReadTrailers(body);
          TookTwice(before, data, rest, n, |data| - |rest|);
          Stop(start, before, chunkCount, body, used, rest, |before| - |rest|, r);
          return;
        }
        if chunkCount + 1 > MAX_CHUNKS {
          r := Got(Refused(InvalidChunkedBody));
          Stop(start, before, chunkCount, body, used, rest, n, r);
          return;
        }
        if |body| + chunkSize.value > MAX_BODY {
          r := Got(Refused(BodyTooLarge));
          Stop(start, before, chunkCount, body, used, rest, n, r);
          return;
        }
        var chunkRead := ReadChunk(chunkSize.value, |body|);
        TookTwice(before, data, rest, n, |data| - |rest|);
        if chunkRead.Failed? {
          r := Failed(chunkRead.fault);
          Stop(start, before, chunkCount, body, used, rest, |before| - |rest|, r);
          return;
        }
        var (chunk, terminator) := chunkRead.value;
        DataTurn(before, data, rest, n, chunkSize.value, chunk, terminator, chunkCount, body);
        if |chunk| != chunkSize.value || terminator != CRLF {
          r := Got(Refused(InvalidChunkedBody));
          Stop(start, before, chunkCount, body, used, rest, |before| - |rest|, r);
          return;
        }
        Advance(start, before, chunkCount, body, used, rest, n + chunkSize.value + 2, chunk);
        used := used + n + chunkSize.value + 2;
        chunkCount := chunkCount + 1;
        body := body + chunk;
      }
    }

    // The whole body, under the framing the headers declare.
    method ReadBody(preview: bool, lengths: seq<string>, encodings: seq<string>) returns (r: Reply)
      modifies this
      ensures var spec := BodyOf(FramingOf(preview, lengths, encodings), old(rest));
        || (r == spec.0 && Took(old(rest), rest, spec.1))
        || (r == Refused(BodyTimeout) && StoppedBy(TimedOut, old(readCount)))
        || (r == Refused(IncompleteBody) && StoppedBy(Broken, old(readCount)))
      ensures |rest| <= |old(rest)|
      ensures var used := |old(rest)| - |rest|;
        || (Answers(preview, lengths, encodings, old(rest), r, used) && AllReady(old(readCount)))
        || (r == Refused(BodyTimeout) && StoppedBy(TimedOut, old(readCount)))
        || (r == Refused(IncompleteBody) && StoppedBy(Broken, old(readCount)))
      ensures |old(rest)| <= |rest| + MAX_READ
    {
      hide Answers, Decode, AreDecimal, DecimalValue;
      BodyAnswers(preview, lengths, encodings, rest);
      var framing := FramingOf(preview, lengths, encodings);
      if framing.NoFraming? {
        return Refused(framing.error);
      }
      if framing.Chunked? {
        var outcome := ReadChunkedBody();
        match outcome
        case Got(reply) => return reply;
        case Failed(TimedOut) => return Refused(BodyTimeout);
        case Failed(Broken) => return Refused(IncompleteBody);
      }
      if framing.octets == 0 {
        return Body([123, 125]);
      }
      var outcome := ReadExact(framing.octets);
      match outcome
      case Got(body) =>
        if |body| != framing.octets {
          return Refused(IncompleteBody);
        }
        return Body(body);
      case Failed(TimedOut) => return Refused(BodyTimeout);
      case Failed(Broken) => return Refused(IncompleteBody);
    }
  }
}
