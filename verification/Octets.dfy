/** Octets and the character classes of RFC 9110 and RFC 9112 that the chunked decoder tests. */
module Octets {
  newtype byte = i: int | 0 <= i < 256
  type bytes = seq<byte>

  const HTAB: byte := 9
  const LF: byte := 10
  const CR: byte := 13
  const SP: byte := 32
  const DQUOTE: byte := 34
  const COLON: byte := 58
  const SEMICOLON: byte := 59
  const EQUALS: byte := 61
  const BACKSLASH: byte := 92
  const CRLF: bytes := [CR, LF]

  predicate IsDigit(b: byte) {
    48 <= b <= 57
  }

  predicate IsHexDigit(b: byte) {
    IsDigit(b) || 65 <= b <= 70 || 97 <= b <= 102
  }

  function HexDigitValue(b: byte): nat
    requires IsHexDigit(b)
  {
    if IsDigit(b) then b as int - 48 else if b <= 70 then b as int - 55 else b as int - 87
  }

  // BWS and OWS are runs of this class: section 5.6.3 of RFC 9110.
  predicate IsBlank(b: byte) {
    b == HTAB || b == SP
  }

  // tchar: section 5.6.2 of RFC 9110.
  predicate IsTchar(b: byte) {
    || IsDigit(b) || 65 <= b <= 90 || 97 <= b <= 122
    || b == 33 || 35 <= b <= 39 || b == 42 || b == 43 || b == 45 || b == 46
    || 94 <= b <= 96 || b == 124 || b == 126
  }

  predicate IsVchar(b: byte) {
    33 <= b <= 126
  }

  predicate IsObsText(b: byte) {
    128 <= b
  }

  // qdtext: section 5.6.4 of RFC 9110.
  predicate IsQdText(b: byte) {
    IsBlank(b) || b == 33 || 35 <= b <= 91 || 93 <= b <= 126 || IsObsText(b)
  }

  // The octets that may follow the backslash of a quoted-pair.
  predicate IsEscapable(b: byte) {
    IsBlank(b) || IsVchar(b) || IsObsText(b)
  }

  // field-vchar: section 5.5 of RFC 9110.
  predicate IsFieldVchar(b: byte) {
    IsVchar(b) || IsObsText(b)
  }

  predicate AreBlanks(s: bytes) {
    forall i :: 0 <= i < |s| ==> IsBlank(s[i])
  }

  predicate AreTchars(s: bytes) {
    forall i :: 0 <= i < |s| ==> IsTchar(s[i])
  }

  predicate AreHexDigits(s: bytes) {
    forall i :: 0 <= i < |s| ==> IsHexDigit(s[i])
  }

  lemma Suffix(s: bytes, a: nat, b: nat)
    requires a + b <= |s|
    ensures s[a..][b..] == s[a + b..]
  {
  }

  // Reading past a is reading b.
  lemma Cut(a: bytes, b: bytes)
    ensures (a + b)[..|a|] == a && (a + b)[|a|..] == b
  {
  }

  lemma Regroup(a: bytes, b: bytes, c: bytes)
    ensures (a + b) + c == a + (b + c)
  {
  }

  lemma Split(s: bytes, a: nat)
    requires a <= |s|
    ensures s == s[..a] + s[a..]
  {
  }
}
