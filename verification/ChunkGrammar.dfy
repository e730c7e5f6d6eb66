/** The chunked transfer coding as derivation trees, each with the octets it stands for.

    A tree mirrors a production of section 7.1 of RFC 9112 (chunk-ext from section 7.1.1, token and
    quoted-string from sections 5.6.2 and 5.6.4 of RFC 9110); `Print*` writes the octets and `Is*`
    says the tree is one the grammar generates.  A language is then the set of printed trees. */
module ChunkGrammar {
  import opened Octets

  datatype QuotedItem = Plain(octet: byte) | Escaped(octet: byte)

  datatype ExtValue = Token(text: bytes) | Quoted(items: seq<QuotedItem>)

  datatype Assignment = Unassigned | Assigned(before: bytes, after: bytes, value: ExtValue)

  // BWS ";" BWS chunk-ext-name [ BWS "=" BWS chunk-ext-val ]
  datatype Extension = Extension(before: bytes, after: bytes, name: bytes, assignment: Assignment)

  datatype Chunk = Chunk(digits: bytes, extensions: seq<Extension>, data: bytes)

  // field-name ":" OWS field-value OWS
  datatype Field = Field(name: bytes, lead: bytes, content: bytes, trail: bytes)

  datatype Message =
    Message(chunks: seq<Chunk>, zeros: bytes, lastExtensions: seq<Extension>, trailers: seq<Field>)

  // ---- printing

  function PrintItem(q: QuotedItem): bytes {
    match q
    case Plain(b) => [b]
    case Escaped(b) => [BACKSLASH, b]
  }

  function PrintItems(items: seq<QuotedItem>): bytes {
    if items == [] then [] else PrintItem(items[0]) + PrintItems(items[1..])
  }

  function PrintValue(v: ExtValue): bytes {
    match v
    case Token(text) => text
    case Quoted(items) => [DQUOTE] + (PrintItems(items) + [DQUOTE])
  }

  function PrintAssignment(a: Assignment): bytes {
    match a
    case Unassigned => []
    case Assigned(before, after, value) => before + ([EQUALS] + (after + PrintValue(value)))
  }

  function PrintExtension(e: Extension): bytes {
    e.before + ([SEMICOLON] + (e.after + (e.name + PrintAssignment(e.assignment))))
  }

  function PrintExtensions(es: seq<Extension>): bytes {
    if es == [] then [] else PrintExtension(es[0]) + PrintExtensions(es[1..])
  }

  function PrintSizeLine(digits: bytes, es: seq<Extension>): bytes {
    digits + PrintExtensions(es) + CRLF
  }

  function PrintChunk(c: Chunk): bytes {
    PrintSizeLine(c.digits, c.extensions) + c.data + CRLF
  }

  function PrintChunks(cs: seq<Chunk>): bytes {
    if cs == [] then [] else PrintChunk(cs[0]) + PrintChunks(cs[1..])
  }

  function FieldValue(f: Field): bytes {
    f.lead + f.content + f.trail
  }

  function PrintField(f: Field): bytes {
    f.name + [COLON] + FieldValue(f) + CRLF
  }

  function PrintTrailers(fs: seq<Field>): bytes {
    if fs == [] then CRLF else PrintField(fs[0]) + PrintTrailers(fs[1..])
  }

  function PrintMessage(m: Message): bytes {
    PrintChunks(m.chunks) + PrintSizeLine(m.zeros, m.lastExtensions) + PrintTrailers(m.trailers)
  }

  // The payload a message carries.
  function Payload(cs: seq<Chunk>): bytes {
    if cs == [] then [] else cs[0].data + Payload(cs[1..])
  }

  // ---- well-formedness

  ghost predicate IsToken(s: bytes) {
    s != [] && AreTchars(s)
  }

  predicate IsItem(q: QuotedItem) {
    match q
    case Plain(b) => IsQdText(b)
    case Escaped(b) => IsEscapable(b)
  }

  ghost predicate IsValue(v: ExtValue) {
    match v
    case Token(text) => IsToken(text)
    case Quoted(items) => forall i :: 0 <= i < |items| ==> IsItem(items[i])
  }

  ghost predicate IsAssignment(a: Assignment) {
    match a
    case Unassigned => true
    case Assigned(before, after, value) =>
      AreBlanks(before) && AreBlanks(after) && IsValue(value)
  }

  ghost predicate IsExtension(e: Extension) {
    && AreBlanks(e.before) && AreBlanks(e.after)
    && IsToken(e.name) && IsAssignment(e.assignment)
  }

  ghost predicate AreExtensions(es: seq<Extension>) {
    forall i :: 0 <= i < |es| ==> IsExtension(es[i])
  }

  // The number written by a run of hexadecimal digits, most significant first.
  function HexValue(s: bytes): nat
    requires AreHexDigits(s)
  {
    if s == [] then 0 else 16 * HexValue(s[..|s| - 1]) + HexDigitValue(s[|s| - 1])
  }

  ghost predicate IsSize(digits: bytes, size: nat) {
    digits != [] && AreHexDigits(digits) && HexValue(digits) == size
  }

  ghost predicate IsChunk(c: Chunk) {
    |c.data| > 0 && IsSize(c.digits, |c.data|) && AreExtensions(c.extensions)
  }

  // field-value is empty, or begins and ends with field-vchar; blanks may stand inside.
  ghost predicate IsField(f: Field) {
    && IsToken(f.name) && AreBlanks(f.lead) && AreBlanks(f.trail)
    && (forall i :: 0 <= i < |f.content| ==> IsBlank(f.content[i]) || IsFieldVchar(f.content[i]))
    && (f.content != [] ==> IsFieldVchar(f.content[0]) && IsFieldVchar(f.content[|f.content| - 1]))
  }

  // last-chunk = 1*("0") [ chunk-ext ] CRLF
  ghost predicate IsZeros(s: bytes) {
    s != [] && forall i :: 0 <= i < |s| ==> s[i] == 48
  }

  ghost predicate IsMessage(m: Message) {
    && (forall i :: 0 <= i < |m.chunks| ==> IsChunk(m.chunks[i]))
    && IsZeros(m.zeros) && AreExtensions(m.lastExtensions)
    && (forall i :: 0 <= i < |m.trailers| ==> IsField(m.trailers[i]))
  }

  // ---- the adapter's own caps

  const MAX_BODY := 7 * 1024 * 1024
  const MAX_CHUNKS := 1024
  const MAX_SIZE_LINE := 128
  const MAX_TRAILERS := 64
  const MAX_TRAILER_BYTES := 16 * 1024
  const MAX_TRAILER_LINE := 2048

  ghost predicate ChunksFit(cs: seq<Chunk>) {
    forall i :: 0 <= i < |cs| ==> |PrintSizeLine(cs[i].digits, cs[i].extensions)| <= MAX_SIZE_LINE
  }

  ghost predicate TrailersFit(fs: seq<Field>) {
    && |fs| <= MAX_TRAILERS && |PrintTrailers(fs)| <= MAX_TRAILER_BYTES
    && forall i :: 0 <= i < |fs| ==> |PrintField(fs[i])| <= MAX_TRAILER_LINE
  }

  ghost predicate WithinCaps(m: Message) {
    && |m.chunks| <= MAX_CHUNKS && |Payload(m.chunks)| <= MAX_BODY && ChunksFit(m.chunks)
    && |PrintSizeLine(m.zeros, m.lastExtensions)| <= MAX_SIZE_LINE
    && TrailersFit(m.trailers)
  }

  // ---- facts about the productions

  // A hexadecimal size is zero exactly for the 1*("0") of last-chunk.
  lemma {:induction false} ZeroSize(s: bytes)
    requires s != [] && AreHexDigits(s)
    ensures HexValue(s) == 0 <==> IsZeros(s)
  {
    var init := s[..|s| - 1];
    if init != [] {
      ZeroSize(init);
      assert forall i :: 0 <= i < |init| ==> init[i] == s[i];
    }
  }

  // Appending one digit, as a left-to-right scan does.
  lemma HexAppend(s: bytes, b: byte)
    requires AreHexDigits(s) && IsHexDigit(b)
    ensures AreHexDigits(s + [b])
    ensures HexValue(s + [b]) == 16 * HexValue(s) + HexDigitValue(b)
  {
    assert (s + [b])[..|s + [b]| - 1] == s;
  }

  ghost predicate NoLineBreak(s: bytes) {
    LF !in s && CR !in s
  }

  lemma {:induction false} ItemsNoLineBreak(items: seq<QuotedItem>)
    requires forall i :: 0 <= i < |items| ==> IsItem(items[i])
    ensures NoLineBreak(PrintItems(items))
  {
    if items != [] {
      ItemsNoLineBreak(items[1..]);
      assert IsItem(items[0]);
    }
  }

  lemma ValueNoLineBreak(v: ExtValue)
    requires IsValue(v)
    ensures NoLineBreak(PrintValue(v))
  {
    if v.Quoted? {
      ItemsNoLineBreak(v.items);
    }
  }

  lemma ExtensionNoLineBreak(e: Extension)
    requires IsExtension(e)
    ensures NoLineBreak(PrintExtension(e))
  {
    hide PrintValue;
    if e.assignment.Assigned? {
      ValueNoLineBreak(e.assignment.value);
    }
  }

  lemma {:induction false} ExtensionsNoLineBreak(es: seq<Extension>)
    requires AreExtensions(es)
    ensures NoLineBreak(PrintExtensions(es))
  {
    if es != [] {
      ExtensionNoLineBreak(es[0]);
      ExtensionsNoLineBreak(es[1..]);
    }
  }
}
