/** What the chunked-body reader does with a stream, as one function of all the octets ahead of it,
    and what that amounts to: the reader accepts exactly the printed messages within the caps. */
module ChunkDecoder {
  import opened Options
  import opened Octets
  import opened ChunkGrammar
  import opened ChunkExtensions

  // `used` is how many octets have been taken off the stream when the reader stops.
  datatype Outcome =
    | Accepted(body: bytes, used: nat)
    | Malformed(used: nat)
    | TooLarge(used: nat)
  {
    // The same verdict for a stream with n more octets in front.
    function After(n: nat): (r: Outcome)
      ensures r.used == n + used
      ensures r.Accepted? == Accepted? && r.TooLarge? == TooLarge? && r.Malformed? == Malformed?
      ensures Accepted? ==> r.body == body
    {
      this.(used := n + used)
    }

    lemma AfterTwice(n: nat, k: nat)
      ensures After(n).After(k) == After(k + n)
    {
    }
  }

  // ---- lines

  // How much of s a bounded line read takes: up to and including the first LF, at most `budget`.
  function LineLen(s: bytes, budget: nat): (n: nat)
    ensures n <= |s| && n <= budget
    ensures s != [] && budget > 0 ==> n > 0
  {
    if s == [] || budget == 0 then 0
    else if s[0] == LF then 1
    else 1 + LineLen(s[1..], budget - 1)
  }

  predicate EndsLine(line: bytes): (r: bool)
    ensures r ==> |line| >= 2
  {
    |line| >= 2 && line[|line| - 2..] == CRLF
  }

  // ---- trailers

  function ColonAt(w: bytes): (c: nat)
    ensures c <= |w|
    ensures c < |w| ==> w[c] == COLON
    ensures COLON !in w[..c]
  {
    if w == [] || w[0] == COLON then 0 else 1 + ColonAt(w[1..])
  }

  predicate IsFieldOctet(b: byte) {
    IsBlank(b) || IsFieldVchar(b)
  }

  predicate FieldOk(w: bytes) {
    var c := ColonAt(w);
    && 0 < c < |w| && AreTchars(w[..c])
    && forall i :: c < i < |w| ==> IsFieldOctet(w[i])
  }

  function DecodeTrailers(s: bytes, count: nat, total: nat): (r: Outcome)
    ensures r.Accepted? ==> r.used <= |s|
    decreases |s|
  {
    var n := LineLen(s, MAX_TRAILER_LINE + 1);
    var line := s[..n];
    if n == 0 || n > MAX_TRAILER_LINE || total + n > MAX_TRAILER_BYTES || !EndsLine(line) then Malformed(n)
    else if line == CRLF then Accepted([], n)
    else if count + 1 > MAX_TRAILERS || !FieldOk(line[..n - 2]) then Malformed(n)
    else DecodeTrailers(s[n..], count + 1, total + n).After(n)
  }

  // ---- chunks

  function Min(a: nat, b: nat): nat {
    if a < b then a else b
  }

  // The size line at the front of s, when it is short enough and well formed.
  function SizeLine(s: bytes): (size: Option<nat>)
    ensures size.Some? ==> 2 <= LineLen(s, MAX_SIZE_LINE + 1) <= MAX_SIZE_LINE
  {
    var n := LineLen(s, MAX_SIZE_LINE + 1);
    if n == 0 || n > MAX_SIZE_LINE || !EndsLine(s[..n]) then None else ParseSize(s[..n - 2])
  }

  function DecodeFrom(s: bytes, count: nat, body: bytes): Outcome
    decreases |s|
  {
    var n := LineLen(s, MAX_SIZE_LINE + 1);
    var size := SizeLine(s);
    if size.None? then Malformed(n)
    else if size.value == 0 then
      var t := DecodeTrailers(s[n..], 0, 0).After(n);
      if t.Accepted? then t.(body := body) else t
    else if count + 1 > MAX_CHUNKS then Malformed(n)
    else if |body| + size.value > MAX_BODY then TooLarge(n)
    else
      var k := size.value;
      var got := Min(n + k + 2, |s|);
      if got < n + k + 2 || s[n + k..got] != CRLF then Malformed(got)
      else DecodeFrom(s[got..], count + 1, body + s[n..n + k]).After(got)
  }

  function Decode(s: bytes): Outcome {
    DecodeFrom(s, 0, [])
  }

  // ---- the whole input is never needed: a resource bound

  // 1025 size lines of at most 129 octets, the body, 1024 chunk terminators, the trailer budget,
  // and one trailer line read past it.
  const MAX_READ := 1025 * 129 + MAX_BODY + 2 * 1024 + MAX_TRAILER_BYTES + 2049

  lemma {:induction false} TrailerReadBound(s: bytes, count: nat, total: nat)
    requires total <= MAX_TRAILER_BYTES
    ensures DecodeTrailers(s, count, total).used <= |s|
    ensures DecodeTrailers(s, count, total).used <= MAX_TRAILER_BYTES - total + MAX_TRAILER_LINE + 1
    decreases |s|
  {
    hide EndsLine, FieldOk;
    var n := LineLen(s, MAX_TRAILER_LINE + 1);
    if n > 0 && total + n <= MAX_TRAILER_BYTES {
      TrailerReadBound(s[n..], count + 1, total + n);
    }
  }

  lemma {:induction false} ChunkReadBound(s: bytes, count: nat, body: bytes)
    requires count <= MAX_CHUNKS && |body| <= MAX_BODY
    ensures DecodeFrom(s, count, body).used <= |s|
    ensures DecodeFrom(s, count, body).used <=
            (1025 - count) * 129 + (MAX_BODY - |body|) + 2 * (1024 - count) + MAX_TRAILER_BYTES + 2049
    ensures DecodeFrom(s, count, body).Accepted? ==> |DecodeFrom(s, count, body).body| <= MAX_BODY
    decreases |s|
  {
    hide SizeLine, DecodeTrailers, LineLen, Outcome.After;
    var n, size := LineLen(s, MAX_SIZE_LINE + 1), SizeLine(s);
    if size.Some? {
      var k := size.value;
      TrailerReadBound(s[n..], 0, 0);
      if k > 0 && count + 1 <= MAX_CHUNKS && |body| + k <= MAX_BODY && n + k + 2 <= |s| {
        ChunkReadBound(s[n + k + 2..], count + 1, body + s[n..n + k]);
      }
    }
  }

  lemma ReadBound(s: bytes)
    ensures Decode(s).used <= |s| && Decode(s).used <= MAX_READ
    ensures Decode(s).Accepted? ==> |Decode(s).body| <= MAX_BODY
  {
    hide DecodeFrom;
    ChunkReadBound(s, 0, []);
  }

  // ---- printed lines are read whole

  lemma {:induction false} LineOf(w: bytes, rest: bytes, budget: nat)
    requires LF !in w && |w| + 2 <= budget
    ensures LineLen(w + CRLF + rest, budget) == |w| + 2
    ensures EndsLine((w + CRLF + rest)[..|w| + 2]) && (w + CRLF + rest)[..|w|] == w
    ensures (w + CRLF + rest)[|w| + 2..] == rest
  {
    var s := w + CRLF + rest;
    if w == [] {
      assert s[0] == CR && s[1..][0] == LF;
    } else {
      assert s[1..] == w[1..] + CRLF + rest;
      LineOf(w[1..], rest, budget - 1);
    }
    assert s[..|w| + 2] == w + CRLF;
  }

  lemma SizeLineOf(digits: bytes, es: seq<Extension>, rest: bytes)
    requires digits != [] && AreHexDigits(digits) && AreExtensions(es)
    requires |PrintSizeLine(digits, es)| <= MAX_SIZE_LINE
    ensures var s := PrintSizeLine(digits, es) + rest;
            && LineLen(s, MAX_SIZE_LINE + 1) == |PrintSizeLine(digits, es)|
            && SizeLine(s) == Some(HexValue(digits))
            && s[|PrintSizeLine(digits, es)|..] == rest
  {
    hide ParseSize, PrintExtensions;
    var w := digits + PrintExtensions(es);
    ExtensionsNoLineBreak(es);
    assert LF !in digits;
    LineOf(w, rest, MAX_SIZE_LINE + 1);
    SizeComplete(digits, es);
    assert (w + CRLF + rest)[..|w| + 2][..|w|] == w;
  }

  lemma {:induction false} ColonOf(name: bytes, rest: bytes)
    requires AreTchars(name)
    ensures ColonAt(name + [COLON] + rest) == |name|
  {
    if name != [] {
      assert (name + [COLON] + rest)[1..] == name[1..] + [COLON] + rest;
      ColonOf(name[1..], rest);
    }
  }

  lemma FieldValueOctets(f: Field)
    requires IsField(f)
    ensures forall i :: 0 <= i < |FieldValue(f)| ==> IsFieldOctet(FieldValue(f)[i])
  {
  }

  lemma FieldComplete(f: Field)
    requires IsField(f)
    ensures FieldOk(f.name + [COLON] + FieldValue(f))
    ensures LF !in f.name + [COLON] + FieldValue(f)
  {
    hide FieldValue;
    var w := f.name + [COLON] + FieldValue(f);
    ColonOf(f.name, FieldValue(f));
    FieldValueOctets(f);
    assert forall i :: |f.name| < i < |w| ==> w[i] == FieldValue(f)[i - |f.name| - 1];
    assert w[..|f.name|] == f.name;
  }

  lemma {:induction false} TrailersComplete(fs: seq<Field>, rest: bytes, count: nat, total: nat)
    requires forall i :: 0 <= i < |fs| ==> IsField(fs[i]) && |PrintField(fs[i])| <= MAX_TRAILER_LINE
    requires count + |fs| <= MAX_TRAILERS && total + |PrintTrailers(fs)| <= MAX_TRAILER_BYTES
    ensures DecodeTrailers(PrintTrailers(fs) + rest, count, total) == Accepted([], |PrintTrailers(fs)|)
    decreases |fs|
  {
    hide FieldOk, LineLen, EndsLine, FieldValue;
    var s := PrintTrailers(fs) + rest;
    if fs == [] {
      LineOf([], rest, MAX_TRAILER_LINE + 1);
      assert [] + CRLF == CRLF && s[..2] == CRLF;
    } else {
      var f, tail := fs[0], PrintTrailers(fs[1..]);
      var w := f.name + [COLON] + FieldValue(f);
      FieldComplete(f);
      Regroup(PrintField(f), tail, rest);
      LineOf(w, tail + rest, MAX_TRAILER_LINE + 1);
      assert s[..|w| + 2] != CRLF;
      assert s[..|w| + 2][..|w|] == w;
      TrailersComplete(fs[1..], rest, count + 1, total + |w| + 2);
    }
  }

  // ---- every message within the caps is decoded, whatever follows it

  function Tail(m: Message): Message
    requires m.chunks != []
  {
    m.(chunks := m.chunks[1..])
  }

  lemma {:induction false} ChunksComplete(m: Message, rest: bytes, count: nat, body: bytes)
    requires IsMessage(m) && ChunksFit(m.chunks) && TrailersFit(m.trailers)
    requires |PrintSizeLine(m.zeros, m.lastExtensions)| <= MAX_SIZE_LINE
    requires count + |m.chunks| <= MAX_CHUNKS && |body| + |Payload(m.chunks)| <= MAX_BODY
    ensures DecodeFrom(PrintMessage(m) + rest, count, body)
         == Accepted(body + Payload(m.chunks), |PrintMessage(m)|)
    decreases |m.chunks|
  {
    hide DecodeFrom, PrintMessage, PrintChunk, PrintSizeLine, IsMessage, ChunksFit, TrailersFit, IsChunk;
    if m.chunks == [] {
      LastChunkComplete(m, rest, count, body);
      assert body + [] == body;
    } else {
      var c := m.chunks[0];
      TailFits(m);
      TakeChunk(c, PrintMessage(Tail(m)) + rest, count, body);
      Regroup(PrintChunk(c), PrintMessage(Tail(m)), rest);
      ChunksComplete(Tail(m), rest, count + 1, body + c.data);
      assert body + c.data + Payload(Tail(m).chunks) == body + Payload(m.chunks);
      PrintMessageStep(m);
    }
  }

  lemma PrintMessageStep(m: Message)
    requires m.chunks != []
    ensures PrintMessage(m) == PrintChunk(m.chunks[0]) + PrintMessage(Tail(m))
  {
  }

  lemma TailFits(m: Message)
    requires IsMessage(m) && m.chunks != [] && ChunksFit(m.chunks)
    ensures IsMessage(Tail(m)) && ChunksFit(Tail(m).chunks) && IsChunk(m.chunks[0])
    ensures |PrintSizeLine(m.chunks[0].digits, m.chunks[0].extensions)| <= MAX_SIZE_LINE
    ensures Payload(m.chunks) == m.chunks[0].data + Payload(Tail(m).chunks)
  {
  }

  lemma LastChunkComplete(m: Message, rest: bytes, count: nat, body: bytes)
    requires IsMessage(m) && m.chunks == [] && TrailersFit(m.trailers)
    requires |PrintSizeLine(m.zeros, m.lastExtensions)| <= MAX_SIZE_LINE
    ensures DecodeFrom(PrintMessage(m) + rest, count, body) == Accepted(body, |PrintMessage(m)|)
  {
    hide SizeLine, LineLen, DecodeTrailers, PrintSizeLine, PrintTrailers;
    var line, tail := PrintSizeLine(m.zeros, m.lastExtensions), PrintTrailers(m.trailers);
    assert AreHexDigits(m.zeros);
    ZeroSize(m.zeros);
    SizeLineOf(m.zeros, m.lastExtensions, tail + rest);
    TrailersComplete(m.trailers, rest, 0, 0);
    assert PrintMessage(m) == line + tail;
    Regroup(line, tail, rest);
  }

  lemma TakeChunk(c: Chunk, next: bytes, count: nat, body: bytes)
    requires IsChunk(c) && |PrintSizeLine(c.digits, c.extensions)| <= MAX_SIZE_LINE
    requires count + 1 <= MAX_CHUNKS && |body| + |c.data| <= MAX_BODY
    ensures DecodeFrom(PrintChunk(c) + next, count, body)
         == DecodeFrom(next, count + 1, body + c.data).After(|PrintChunk(c)|)
  {
    hide SizeLine, LineLen, DecodeTrailers, PrintSizeLine, IsSize, HexValue;
    var line := PrintSizeLine(c.digits, c.extensions);
    var s := PrintChunk(c) + next;
    assert c.digits != [] && AreHexDigits(c.digits) && HexValue(c.digits) == |c.data| by { ChunkSize(c); }
    assert s == line + (c.data + CRLF + next);
    SizeLineOf(c.digits, c.extensions, c.data + CRLF + next);
    assert s[|line|..|line| + |c.data|] == c.data;
    assert s[|line| + |c.data|..|line| + |c.data| + 2] == CRLF;
    assert s[|line| + |c.data| + 2..] == next;
  }

  lemma ChunkSize(c: Chunk)
    requires IsChunk(c)
    ensures c.digits != [] && AreHexDigits(c.digits) && HexValue(c.digits) == |c.data|
  {
  }

  // The round trip: whatever the split into chunks, the extensions, the trailers and what follows.
  lemma RoundTrip(m: Message, rest: bytes)
    requires IsMessage(m) && WithinCaps(m)
    ensures Decode(PrintMessage(m) + rest) == Accepted(Payload(m.chunks), |PrintMessage(m)|)
  {
    hide DecodeFrom, PrintMessage;
    ChunksComplete(m, rest, 0, []);
    assert [] + Payload(m.chunks) == Payload(m.chunks);
  }

  // ---- whatever is accepted is a message within the caps

  lemma LineSplit(line: bytes)
    requires EndsLine(line)
    ensures line == line[..|line| - 2] + CRLF
  {
  }

  // How many blanks end a run.
  function TrailingBlanks(v: bytes): (n: nat)
    ensures n <= |v|
    ensures AreBlanks(v[|v| - n..])
    ensures n < |v| ==> !IsBlank(v[|v| - n - 1])
  {
    if v != [] && IsBlank(v[|v| - 1]) then 1 + TrailingBlanks(v[..|v| - 1]) else 0
  }

  lemma {:induction false} BlankLenStops(v: bytes)
    ensures BlankLen(v) < |v| ==> !IsBlank(v[BlankLen(v)])
  {
    if v != [] && IsBlank(v[0]) {
      BlankLenStops(v[1..]);
    }
  }

  // A raw field value is OWS field-value OWS.
  lemma FieldValueTree(name: bytes, raw: bytes) returns (f: Field)
    requires IsToken(name) && forall i :: 0 <= i < |raw| ==> IsFieldOctet(raw[i])
    ensures IsField(f) && f.name == name && FieldValue(f) == raw
  {
    hide BlankLen, TrailingBlanks, IsTchar;
    var a := BlankLen(raw);
    BlankLenAll(raw);
    BlankLenStops(raw);
    var rest := raw[a..];
    var b := |rest| - TrailingBlanks(rest);
    f := Field(name, raw[..a], rest[..b], rest[b..]);
    if b > 0 {
      assert !IsBlank(rest[0]);
    }
  }

  lemma FieldTree(w: bytes) returns (f: Field)
    requires FieldOk(w)
    ensures IsField(f) && PrintField(f) == w + CRLF
  {
    var c := ColonAt(w);
    f := FieldValueTree(w[..c], w[c + 1..]);
    assert w == w[..c] + [COLON] + w[c + 1..];
  }

  lemma NoTrailers()
    ensures PrintTrailers([]) == CRLF
  {
  }

  lemma PrintTrailersStep(f: Field, fs: seq<Field>)
    ensures PrintTrailers([f] + fs) == PrintField(f) + PrintTrailers(fs)
  {
    assert ([f] + fs)[1..] == fs;
  }

  lemma {:induction false} TrailersTree(s: bytes, count: nat, total: nat) returns (fs: seq<Field>)
    requires DecodeTrailers(s, count, total).Accepted?
    ensures forall i :: 0 <= i < |fs| ==> IsField(fs[i]) && |PrintField(fs[i])| <= MAX_TRAILER_LINE
    ensures count <= MAX_TRAILERS ==> count + |fs| <= MAX_TRAILERS
    ensures total + |PrintTrailers(fs)| <= MAX_TRAILER_BYTES
    ensures PrintTrailers(fs) == s[..DecodeTrailers(s, count, total).used]
    decreases |s|
  {
    hide LineLen, FieldOk, PrintField, IsField, EndsLine, PrintTrailers, Outcome.After;
    var n := LineLen(s, MAX_TRAILER_LINE + 1);
    var line := s[..n];
    if line == CRLF {
      fs := [];
      NoTrailers();
    } else {
      var f := FieldTree(line[..n - 2]);
      LineSplit(line);
      var tail := TrailersTree(s[n..], count + 1, total + n);
      fs := [f] + tail;
      PrintTrailersStep(f, tail);
      Prefix(s, n, |PrintTrailers(tail)|);
    }
  }

  lemma SizeLineTree(s: bytes) returns (digits: bytes, es: seq<Extension>)
    requires SizeLine(s).Some?
    ensures IsSize(digits, SizeLine(s).value) && AreExtensions(es)
    ensures PrintSizeLine(digits, es) == s[..LineLen(s, MAX_SIZE_LINE + 1)]
  {
    hide LineLen, ParseSize, IsSize, PrintExtensions;
    var n := LineLen(s, MAX_SIZE_LINE + 1);
    digits, es := SizeTree(s[..n - 2]);
    LineSplit(s[..n]);
    assert s[..n][..n - 2] == s[..n - 2];
  }

  lemma LastChunkTree(s: bytes, count: nat, body: bytes) returns (m: Message)
    requires SizeLine(s) == Some(0) && DecodeFrom(s, count, body).Accepted?
    ensures IsMessage(m) && m.chunks == [] && TrailersFit(m.trailers)
    ensures |PrintSizeLine(m.zeros, m.lastExtensions)| <= MAX_SIZE_LINE
    ensures DecodeFrom(s, count, body).body == body
    ensures PrintMessage(m) == s[..DecodeFrom(s, count, body).used]
  {
    hide LineLen, SizeLine, DecodeTrailers, PrintSizeLine, PrintField, IsField, PrintTrailers;
    var n := LineLen(s, MAX_SIZE_LINE + 1);
    var digits, es := SizeLineTree(s);
    ZeroSize(digits);
    var fs := TrailersTree(s[n..], 0, 0);
    m := Message([], digits, es, fs);
    Prefix(s, n, |PrintTrailers(fs)|);
  }

  // One data chunk at the front of s, taken by the reader.
  ghost predicate TakesChunk(s: bytes, c: Chunk, count: nat, body: bytes) {
    && IsChunk(c) && |PrintSizeLine(c.digits, c.extensions)| <= MAX_SIZE_LINE
    && PrintChunk(c) <= s && count + 1 <= MAX_CHUNKS && |body| + |c.data| <= MAX_BODY
    && DecodeFrom(s, count, body)
       == DecodeFrom(s[|PrintChunk(c)|..], count + 1, body + c.data).After(|PrintChunk(c)|)
  }

  // The reader stops at a size line, or takes a whole chunk, or is cut off inside one.
  lemma ChunkTree(s: bytes, count: nat, body: bytes) returns (c: Chunk)
    requires SizeLine(s).Some? && SizeLine(s).value > 0 && count + 1 <= MAX_CHUNKS
    requires |body| + SizeLine(s).value <= MAX_BODY
    requires !DecodeFrom(s, count, body).Malformed?
    ensures TakesChunk(s, c, count, body)
  {
    hide LineLen, SizeLine, DecodeTrailers, PrintSizeLine, IsSize;
    var n, k := LineLen(s, MAX_SIZE_LINE + 1), SizeLine(s).value;
    var digits, es := SizeLineTree(s);
    c := Chunk(digits, es, s[n..n + k]);
    ChunkText(s, n, k);
  }

  lemma ChunkText(s: bytes, n: nat, k: nat)
    requires n + k + 2 <= |s| && s[n + k..n + k + 2] == CRLF
    ensures s[..n] + s[n..n + k] + CRLF == s[..n + k + 2]
  {
  }

  lemma MessageStep(s: bytes, c: Chunk, m: Message, used: nat)
    requires IsMessage(m) && ChunksFit(m.chunks) && IsChunk(c) && PrintChunk(c) <= s
    requires |PrintSizeLine(c.digits, c.extensions)| <= MAX_SIZE_LINE
    requires |PrintChunk(c)| + used <= |s| && PrintMessage(m) == s[|PrintChunk(c)|..][..used]
    ensures var m' := m.(chunks := [c] + m.chunks);
      && IsMessage(m') && ChunksFit(m'.chunks)
      && PrintMessage(m') == s[..|PrintChunk(c)| + used]
      && Payload(m'.chunks) == c.data + Payload(m.chunks)
  {
    hide PrintChunk, PrintSizeLine, PrintMessage, IsChunk, IsZeros, AreExtensions, IsField;
    var m' := m.(chunks := [c] + m.chunks);
    assert Tail(m') == m by {
      assert m'.chunks[1..] == m.chunks;
    }
    PrintMessageStep(m');
    Prefix(s, |PrintChunk(c)|, used);
  }

  lemma {:induction false} ChunksTree(s: bytes, count: nat, body: bytes) returns (m: Message)
    requires DecodeFrom(s, count, body).Accepted? && count <= MAX_CHUNKS && |body| <= MAX_BODY
    ensures IsMessage(m) && ChunksFit(m.chunks) && TrailersFit(m.trailers)
    ensures |PrintSizeLine(m.zeros, m.lastExtensions)| <= MAX_SIZE_LINE
    ensures count + |m.chunks| <= MAX_CHUNKS && |body| + |Payload(m.chunks)| <= MAX_BODY
    ensures DecodeFrom(s, count, body).body == body + Payload(m.chunks)
    ensures DecodeFrom(s, count, body).used <= |s|
    ensures PrintMessage(m) == s[..DecodeFrom(s, count, body).used]
    decreases |s|
  {
    hide DecodeFrom, PrintChunk, PrintSizeLine, IsMessage, TrailersFit, PrintMessage, IsChunk, SizeLine;
    ChunkReadBound(s, count, body);
    if SizeLine(s) == Some(0) {
      m := LastChunkTree(s, count, body);
      assert body + [] == body;
    } else {
      NotLast(s, count, body);
      var c := ChunkTree(s, count, body);
      var p := |PrintChunk(c)|;
      ChunkNotEmpty(c);
      ChunkReadBound(s[p..], count + 1, body + c.data);
      var tail := ChunksTree(s[p..], count + 1, body + c.data);
      MessageStep(s, c, tail, DecodeFrom(s[p..], count + 1, body + c.data).used);
      m := tail.(chunks := [c] + tail.chunks);
      Regroup(body, c.data, Payload(tail.chunks));
    }
  }

  lemma ChunkNotEmpty(c: Chunk)
    ensures |PrintChunk(c)| > |c.data|
  {
  }

  lemma NotLast(s: bytes, count: nat, body: bytes)
    requires DecodeFrom(s, count, body).Accepted? && SizeLine(s) != Some(0)
    ensures SizeLine(s).Some? && SizeLine(s).value > 0 && count + 1 <= MAX_CHUNKS
    ensures |body| + SizeLine(s).value <= MAX_BODY
  {
    hide SizeLine;
  }

  // Soundness, exact consumption and the round trip in one: the reader accepts `body` after `used`
  // octets exactly when those octets are a message within the caps that carries `body`.
  lemma AcceptedExact(s: bytes, body: bytes, used: nat)
    ensures Decode(s) == Accepted(body, used) <==>
            exists m :: IsMessage(m) && WithinCaps(m) && used <= |s| && PrintMessage(m) == s[..used] &&
                        Payload(m.chunks) == body
  {
    hide DecodeFrom, PrintMessage, IsMessage;
    if Decode(s) == Accepted(body, used) {
      var m := ChunksTree(s, 0, []);
      assert [] + Payload(m.chunks) == Payload(m.chunks);
      assert WithinCaps(m);
    }
    forall m | IsMessage(m) && WithinCaps(m) && used <= |s| && PrintMessage(m) == s[..used] && Payload(m.chunks) == body
      ensures Decode(s) == Accepted(body, used)
    {
      RoundTrip(m, s[used..]);
      Split(s, used);
    }
  }

  // No stream begins with two readings: neither where the body ends nor what it carries can differ.
  lemma Unambiguous(m: Message, m': Message, s: bytes)
    requires IsMessage(m) && WithinCaps(m) && PrintMessage(m) <= s
    requires IsMessage(m') && WithinCaps(m') && PrintMessage(m') <= s
    ensures PrintMessage(m) == PrintMessage(m') && Payload(m.chunks) == Payload(m'.chunks)
  {
    hide Decode, PrintMessage, IsMessage, WithinCaps;
    RoundTrip(m, s[|PrintMessage(m)|..]);
    assert PrintMessage(m) + s[|PrintMessage(m)|..] == s;
    RoundTrip(m', s[|PrintMessage(m')|..]);
    assert PrintMessage(m') + s[|PrintMessage(m')|..] == s;
  }

  // ---- the one other verdict a well-formed prefix can get

  // s opens with whole chunks that fit the caps and then a size line that would take the body past
  // its cap.
  ghost predicate Oversize(s: bytes, cs: seq<Chunk>, digits: bytes, es: seq<Extension>, count: nat, size: nat) {
    && (forall i :: 0 <= i < |cs| ==> IsChunk(cs[i])) && ChunksFit(cs) && count + |cs| < MAX_CHUNKS
    && digits != [] && AreHexDigits(digits) && AreExtensions(es)
    && |PrintSizeLine(digits, es)| <= MAX_SIZE_LINE
    && size + |Payload(cs)| <= MAX_BODY < size + |Payload(cs)| + HexValue(digits)
    && PrintChunks(cs) + PrintSizeLine(digits, es) <= s
  }

  lemma OversizeHere(s: bytes, count: nat, body: bytes) returns (digits: bytes, es: seq<Extension>)
    requires SizeLine(s).Some? && SizeLine(s).value > 0 && count < MAX_CHUNKS
    requires |body| <= MAX_BODY < |body| + SizeLine(s).value
    ensures Oversize(s, [], digits, es, count, |body|)
  {
    hide SizeLine, HexValue, PrintSizeLine;
    digits, es := SizeLineTree(s);
    assert PrintChunks([]) + PrintSizeLine(digits, es) == PrintSizeLine(digits, es);
  }

  lemma OversizeStep(s: bytes, c: Chunk, cs: seq<Chunk>, digits: bytes, es: seq<Extension>, count: nat, size: nat)
    requires IsChunk(c) && |PrintSizeLine(c.digits, c.extensions)| <= MAX_SIZE_LINE && PrintChunk(c) <= s
    requires Oversize(s[|PrintChunk(c)|..], cs, digits, es, count + 1, size + |c.data|)
    ensures Oversize(s, [c] + cs, digits, es, count, size)
  {
    hide IsChunk, PrintChunk, PrintSizeLine, HexValue, AreExtensions;
    assert ([c] + cs)[1..] == cs;
    var text := PrintChunks(cs) + PrintSizeLine(digits, es);
    Regroup(PrintChunk(c), PrintChunks(cs), PrintSizeLine(digits, es));
    Prefix(s, |PrintChunk(c)|, |text|);
  }

  lemma {:induction false} OversizeTree(s: bytes, count: nat, body: bytes)
    returns (cs: seq<Chunk>, digits: bytes, es: seq<Extension>)
    requires DecodeFrom(s, count, body).TooLarge? && count <= MAX_CHUNKS && |body| <= MAX_BODY
    ensures Oversize(s, cs, digits, es, count, |body|)
    decreases |s|
  {
    SizeAhead(s, count, body);
    hide DecodeFrom, SizeLine, Oversize, PrintChunk, PrintSizeLine, IsChunk;
    if |body| + SizeLine(s).value > MAX_BODY {
      cs := [];
      digits, es := OversizeHere(s, count, body);
    } else {
      var c := ChunkTree(s, count, body);
      ChunkNotEmpty(c);
      cs, digits, es := OversizeTree(s[|PrintChunk(c)|..], count + 1, body + c.data);
      OversizeStep(s, c, cs, digits, es, count, |body|);
      cs := [c] + cs;
    }
  }

  lemma SizeAhead(s: bytes, count: nat, body: bytes)
    requires DecodeFrom(s, count, body).TooLarge?
    ensures SizeLine(s).Some? && SizeLine(s).value > 0 && count < MAX_CHUNKS
  {
    hide SizeLine;
    if SizeLine(s) == Some(0) {
      TrailersNeverTooLarge(s[LineLen(s, MAX_SIZE_LINE + 1)..], 0, 0);
    }
  }

  lemma {:induction false} TrailersNeverTooLarge(s: bytes, count: nat, total: nat)
    ensures !DecodeTrailers(s, count, total).TooLarge?
    decreases |s|
  {
    hide EndsLine, FieldOk;
    var n := LineLen(s, MAX_TRAILER_LINE + 1);
    if n > 0 {
      TrailersNeverTooLarge(s[n..], count + 1, total + n);
    }
  }

  lemma {:induction false} OversizeComplete(s: bytes, cs: seq<Chunk>, digits: bytes, es: seq<Extension>, count: nat,
                                            body: bytes)
    requires Oversize(s, cs, digits, es, count, |body|)
    ensures DecodeFrom(s, count, body) == TooLarge(|PrintChunks(cs) + PrintSizeLine(digits, es)|)
    decreases |cs|
  {
    hide Oversize, DecodeFrom, PrintChunk, PrintSizeLine, IsChunk;
    var line := PrintSizeLine(digits, es);
    if cs == [] {
      assert PrintChunks(cs) + line == line;
      OversizeNow(s, digits, es, count, body);
    } else {
      var c, p := cs[0], |PrintChunk(cs[0])|;
      OversizeTail(s, cs, digits, es, count, |body|);
      TakeChunk(c, s[p..], count, body);
      assert PrintChunk(c) + s[p..] == s;
      Regroup(PrintChunk(c), PrintChunks(cs[1..]), line);
      OversizeComplete(s[p..], cs[1..], digits, es, count + 1, body + c.data);
    }
  }

  lemma OversizeNow(s: bytes, digits: bytes, es: seq<Extension>, count: nat, body: bytes)
    requires Oversize(s, [], digits, es, count, |body|)
    ensures DecodeFrom(s, count, body) == TooLarge(|PrintSizeLine(digits, es)|)
  {
    hide SizeLine, LineLen, PrintSizeLine, HexValue;
    var line := PrintSizeLine(digits, es);
    assert PrintChunks([]) + line == line;
    SizeLineOf(digits, es, s[|line|..]);
    assert line + s[|line|..] == s;
  }

  lemma OversizeTail(s: bytes, cs: seq<Chunk>, digits: bytes, es: seq<Extension>, count: nat, size: nat)
    requires cs != [] && Oversize(s, cs, digits, es, count, size)
    ensures IsChunk(cs[0]) && |PrintSizeLine(cs[0].digits, cs[0].extensions)| <= MAX_SIZE_LINE
    ensures PrintChunk(cs[0]) <= s && size + |cs[0].data| <= MAX_BODY && count + 1 <= MAX_CHUNKS
    ensures s[..|PrintChunk(cs[0])|] == PrintChunk(cs[0])
    ensures Oversize(s[|PrintChunk(cs[0])|..], cs[1..], digits, es, count + 1, size + |cs[0].data|)
  {
    hide PrintChunk, PrintSizeLine, HexValue, AreExtensions;
    var c, text := cs[0], PrintChunks(cs[1..]) + PrintSizeLine(digits, es);
    Regroup(PrintChunk(c), PrintChunks(cs[1..]), PrintSizeLine(digits, es));
    assert PrintChunk(c) + text <= s;
    assert text <= s[|PrintChunk(c)|..];
  }

  // A body is turned away as too large exactly when the octets up to some size line are well formed
  // and within the caps, and that line announces more than the body cap has room for.
  lemma TooLargeExact(s: bytes)
    ensures Decode(s).TooLarge? <==> exists cs, digits, es :: Oversize(s, cs, digits, es, 0, 0)
  {
    hide DecodeFrom, Oversize;
    if Decode(s).TooLarge? {
      var cs, digits, es := OversizeTree(s, 0, []);
    }
    forall cs, digits, es | Oversize(s, cs, digits, es, 0, 0)
      ensures Decode(s).TooLarge?
    {
      OversizeComplete(s, cs, digits, es, 0, []);
    }
  }
}
