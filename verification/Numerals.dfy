/** How the numbers of a request are written: a Content-Length in decimal, a chunk size in hexadecimal.
    A numeral is given by the digits a number prints, apart from the readers of it. */
module Numerals {
  import opened Octets
  import opened ChunkGrammar
  import opened ChunkExtensions
  import opened Options

  const DECIMAL := "0123456789"
  const LOWER := "0123456789abcdef"
  const UPPER := "0123456789ABCDEF"

  predicate IsBase(base: nat) {
    base == 10 || base == 16
  }

  // The digits n prints, most significant first.
  function Digits(n: nat, base: nat): seq<nat>
    requires IsBase(base)
    decreases n
  {
    (if n < base then [] else Digits(n / base, base)) + [n % base]
  }

  // The same after k zeros.
  function Padded(k: nat, n: nat, base: nat): seq<nat>
    requires IsBase(base)
  {
    seq(k, _ => 0) + Digits(n, base)
  }

  predicate Spells(c: char, d: nat, base: nat)
    requires IsBase(base) && d < base
  {
    if base == 10 then c == DECIMAL[d] else c == LOWER[d] || c == UPPER[d]
  }

  // The text is n as printed in the base, in either case, after any zeros.
  ghost predicate IsNumeral(text: string, n: nat, base: nat)
    requires IsBase(base)
  {
    exists k :: IsPrinted(text, Padded(k, n, base), base)
  }

  predicate IsPrinted(text: string, ds: seq<nat>, base: nat)
    requires IsBase(base)
  {
    |text| == |ds| && forall i :: 0 <= i < |ds| ==> ds[i] < base && Spells(text[i], ds[i], base)
  }

  // ---- digits and the number they make

  function Value(ds: seq<nat>, base: nat): nat {
    if ds == [] then 0 else base * Value(ds[..|ds| - 1], base) + ds[|ds| - 1]
  }

  lemma ValueAppend(ds: seq<nat>, d: nat, base: nat)
    ensures Value(ds + [d], base) == base * Value(ds, base) + d
  {
    assert (ds + [d])[..|ds|] == ds;
  }

  lemma {:induction false} PaddedValue(k: nat, n: nat, base: nat)
    requires IsBase(base)
    ensures Value(Padded(k, n, base), base) == n
    decreases n, k
  {
    hide Value;
    if n >= base {
      PaddedValue(k, n / base, base);
      ValueAppend(Padded(k, n / base, base), n % base, base);
      assert Padded(k, n, base) == Padded(k, n / base, base) + [n % base];
    } else {
      PaddedZeros(k, n, base);
    }
  }

  lemma {:induction false} PaddedZeros(k: nat, n: nat, base: nat)
    requires IsBase(base) && n < base
    ensures Value(Padded(k, n, base), base) == n
  {
    var zeros := seq(k, _ => 0);
    assert Padded(k, n, base) == zeros + [n];
    ValueAppend(zeros, n, base);
    if k > 0 {
      PaddedZeros(k - 1, 0, base);
      assert zeros == Padded(k - 1, 0, base);
    }
  }

  lemma PaddedAppend(k: nat, v: nat, d: nat, base: nat)
    requires IsBase(base) && d < base
    ensures Padded(k, v, base) + [d] == Padded(if v == 0 then k + 1 else k, base * v + d, base)
  {
    LastDigit(v, d, base);
    if v == 0 {
      assert Digits(d, base) == [d] && Digits(0, base) == [0];
    } else {
      assert Digits(base * v + d, base) == Digits(v, base) + [d];
    }
  }

  // Every run of digits is the number it makes, printed after some zeros.
  lemma {:induction false} ValueIsPadded(ds: seq<nat>, base: nat) returns (k: nat)
    requires IsBase(base) && ds != [] && forall i :: 0 <= i < |ds| ==> ds[i] < base
    ensures ds == Padded(k, Value(ds, base), base)
    decreases |ds|
  {
    hide Padded;
    var init, d := ds[..|ds| - 1], ds[|ds| - 1];
    assert ds == init + [d];
    if init == [] {
      k := 0;
      OneDigit(d, base);
    } else {
      var v := Value(init, base);
      var zeros := ValueIsPadded(init, base);
      PaddedAppend(zeros, v, d, base);
      k := if v == 0 then zeros + 1 else zeros;
    }
  }

  lemma OneDigit(d: nat, base: nat)
    requires IsBase(base) && d < base
    ensures Padded(0, d, base) == [d]
  {
  }

  lemma LastDigit(v: nat, d: nat, base: nat)
    requires IsBase(base) && d < base
    ensures (base * v + d) / base == v && (base * v + d) % base == d
  {
    if base == 10 {
      assert (10 * v + d) / 10 == v;
    } else {
      assert (16 * v + d) / 16 == v;
    }
  }

  // ---- decimal

  predicate AreDecimal(s: string) {
    forall i :: 0 <= i < |s| ==> '0' <= s[i] <= '9'
  }

  function DecimalValue(s: string): nat
    requires AreDecimal(s)
  {
    if s == "" then 0 else 10 * DecimalValue(s[..|s| - 1]) + (s[|s| - 1] as int - '0' as int)
  }

  lemma DecimalDigit(d: nat)
    requires d < 10
    ensures DECIMAL[d] as int == '0' as int + d
  {
  }

  lemma {:induction false} DecimalIsValue(s: string, ds: seq<nat>)
    requires IsPrinted(s, ds, 10)
    ensures AreDecimal(s) && DecimalValue(s) == Value(ds, 10)
  {
    forall i | 0 <= i < |s|
      ensures '0' <= s[i] <= '9'
    {
      DecimalDigit(ds[i]);
    }
    if s != "" {
      DecimalDigit(ds[|s| - 1]);
      DecimalIsValue(s[..|s| - 1], ds[..|s| - 1]);
    }
  }

  lemma DecimalDigits(s: string) returns (ds: seq<nat>)
    requires AreDecimal(s)
    ensures IsPrinted(s, ds, 10)
  {
    ds := seq(|s|, i requires 0 <= i < |s| => s[i] as int - '0' as int);
    forall i | 0 <= i < |s|
      ensures ds[i] < 10 && Spells(s[i], ds[i], 10)
    {
      DecimalDigit(ds[i]);
    }
  }

  // A decimal text is read as n exactly when it is n as printed, zeros before it or not.
  lemma DecimalExact(s: string, n: nat)
    ensures IsNumeral(s, n, 10) <==> s != "" && AreDecimal(s) && DecimalValue(s) == n
  {
    hide Digits, DecimalValue, Value, Spells, AreDecimal;
    forall k | IsPrinted(s, Padded(k, n, 10), 10)
      ensures s != "" && AreDecimal(s) && DecimalValue(s) == n
    {
      PaddedValue(k, n, 10);
      DecimalIsValue(s, Padded(k, n, 10));
      PaddedLength(k, n, 10);
    }
    if s != "" && AreDecimal(s) && DecimalValue(s) == n {
      var ds := DecimalDigits(s);
      DecimalIsValue(s, ds);
      var k := ValueIsPadded(ds, 10);
    }
  }

  lemma PaddedLength(k: nat, n: nat, base: nat)
    requires IsBase(base)
    ensures |Padded(k, n, base)| > 0
  {
  }

  // ---- hexadecimal

  function Text(s: bytes): string {
    seq(|s|, i requires 0 <= i < |s| => s[i] as char)
  }

  lemma HexDigit(b: byte, d: nat)
    requires d < 16
    ensures Spells(b as char, d, 16) <==> IsHexDigit(b) && HexDigitValue(b) == d
  {
  }

  lemma {:induction false} HexIsValue(s: bytes, ds: seq<nat>)
    requires IsPrinted(Text(s), ds, 16)
    ensures AreHexDigits(s) && HexValue(s) == Value(ds, 16)
  {
    hide Spells, IsHexDigit, HexDigitValue;
    forall i | 0 <= i < |s|
      ensures IsHexDigit(s[i])
    {
      assert Text(s)[i] == s[i] as char;
      HexDigit(s[i], ds[i]);
    }
    if s != [] {
      var last := |s| - 1;
      assert Text(s)[last] == s[last] as char;
      HexDigit(s[last], ds[last]);
      assert Text(s[..last]) == Text(s)[..last];
      HexIsValue(s[..last], ds[..last]);
    }
  }

  lemma HexDigits(s: bytes) returns (ds: seq<nat>)
    requires AreHexDigits(s)
    ensures IsPrinted(Text(s), ds, 16)
  {
    hide Spells, HexDigitValue;
    ds := seq(|s|, i requires 0 <= i < |s| => HexDigitValue(s[i]));
    forall i | 0 <= i < |s|
      ensures ds[i] < 16 && Spells(Text(s)[i], ds[i], 16)
    {
      HexBelow(s[i]);
      HexDigit(s[i], ds[i]);
    }
  }

  lemma HexBelow(b: byte)
    requires IsHexDigit(b)
    ensures HexDigitValue(b) < 16
  {
  }

  // Octets are the size n exactly when they are n as printed in hexadecimal, in capitals or not,
  // zeros before it or not.
  lemma HexExact(s: bytes, n: nat)
    ensures IsNumeral(Text(s), n, 16) <==> IsSize(s, n)
  {
    hide Digits, HexValue, Value, Spells, AreHexDigits;
    forall k | IsPrinted(Text(s), Padded(k, n, 16), 16)
      ensures IsSize(s, n)
    {
      PaddedValue(k, n, 16);
      HexIsValue(s, Padded(k, n, 16));
      PaddedLength(k, n, 16);
    }
    if IsSize(s, n) {
      var ds := HexDigits(s);
      HexIsValue(s, ds);
      var k := ValueIsPadded(ds, 16);
    }
  }

  // A size line is parsed to n exactly when it begins with n as printed and goes on with extensions.
  lemma SizeLinePrinted(v: bytes, n: nat)
    ensures ParseSize(v) == Some(n) <==>
            exists digits, es :: IsNumeral(Text(digits), n, 16) && AreExtensions(es) && digits + PrintExtensions(es) == v
  {
    hide ParseSize, IsSize, IsNumeral, Text, PrintExtensions, AreExtensions;
    SizeExact(v, n);
    forall digits: bytes
      ensures IsNumeral(Text(digits), n, 16) <==> IsSize(digits, n)
    {
      HexExact(digits, n);
    }
  }
}
