/** The chunk-extension recogniser and the chunk-size parser.

    The functions say how far each greedy scan gets from the front of a run of octets; the methods
    are the index loops of the handler, proved against them; the lemmas show that greed is harmless:
    what is recognised is exactly the chunk-ext language. */
module ChunkExtensions {
  import opened Options
  import opened Octets
  import opened ChunkGrammar

  // ---- specification of the scans

  function Shift(n: Option<nat>, offset: nat): Option<nat> {
    if n.None? then None else Some(offset + n.value)
  }

  function BlankLen(v: bytes): (n: nat)
    ensures n <= |v|
  {
    if v != [] && IsBlank(v[0]) then 1 + BlankLen(v[1..]) else 0
  }

  function TokenLen(v: bytes): (n: nat)
    ensures n <= |v|
  {
    if v != [] && IsTchar(v[0]) then 1 + TokenLen(v[1..]) else 0
  }

  function HexLen(v: bytes): (n: nat)
    ensures n <= |v|
    ensures AreHexDigits(v[..n])
  {
    if v != [] && IsHexDigit(v[0]) then 1 + HexLen(v[1..]) else 0
  }

  // What is left of a quoted string after its opening quote, closing quote included.
  function QuotedRestLen(v: bytes): (n: Option<nat>)
    ensures n.Some? ==> n.value <= |v|
  {
    if v == [] then None
    else if v[0] == DQUOTE then Some(1)
    else if v[0] == BACKSLASH then
      if |v| < 2 || !IsEscapable(v[1]) then None
      else Shift(QuotedRestLen(v[2..]), 2)
    else if IsQdText(v[0]) then Shift(QuotedRestLen(v[1..]), 1)
    else None
  }

  function ValueLen(v: bytes): (n: Option<nat>)
    ensures n.Some? ==> n.value <= |v|
  {
    if v == [] then None
    else if v[0] == DQUOTE then Shift(QuotedRestLen(v[1..]), 1)
    else if TokenLen(v) == 0 then None else Some(TokenLen(v))
  }

  // BWS value, as it follows "=".
  function AssignedLen(v: bytes): (n: Option<nat>)
    ensures n.Some? ==> n.value <= |v|
  {
    Shift(ValueLen(v[BlankLen(v)..]), BlankLen(v))
  }

  // The optional BWS "=" BWS value after a name: nothing is taken when no "=" follows the blanks.
  function AssignmentLen(v: bytes): (n: Option<nat>)
    ensures n.Some? ==> n.value <= |v|
  {
    var q := BlankLen(v);
    if q < |v| && v[q] == EQUALS then Shift(AssignedLen(v[q + 1..]), q + 1) else Some(0)
  }

  // BWS name, as it follows ";".
  function NameLen(v: bytes): (n: Option<nat>)
    ensures n.Some? ==> n.value <= |v|
  {
    var t := TokenLen(v[BlankLen(v)..]);
    if t == 0 then None else Some(BlankLen(v) + t)
  }

  // BWS name assignment, as they follow ";".
  function ParameterLen(v: bytes): (n: Option<nat>)
    ensures n.Some? ==> n.value <= |v|
  {
    var k := NameLen(v);
    if k.None? then None else Shift(AssignmentLen(v[k.value..]), k.value)
  }

  function ExtensionLen(v: bytes): (n: Option<nat>)
    ensures n.Some? ==> 0 < n.value <= |v|
  {
    var i := BlankLen(v);
    if i == |v| || v[i] != SEMICOLON then None else Shift(ParameterLen(v[i + 1..]), i + 1)
  }

  predicate ExtensionsOk(v: bytes)
    decreases |v|
  {
    v == [] ||
    (ExtensionLen(v).Some? && ExtensionsOk(v[ExtensionLen(v).value..]))
  }

  function ParseSize(v: bytes): Option<nat> {
    var n := HexLen(v);
    if n == 0 || !ExtensionsOk(v[n..]) then None else Some(HexValue(v[..n]))
  }

  // ---- the same scans from a position of a longer run, as the handler's loops see them

  ghost function BlankEnd(value: bytes, i: nat): (r: nat)
    requires i <= |value|
    ensures i <= r <= |value|
  {
    i + BlankLen(value[i..])
  }

  ghost function TokenEnd(value: bytes, i: nat): (r: Option<nat>)
    requires i <= |value|
    ensures r.Some? ==> i < r.value <= |value|
  {
    var n := TokenLen(value[i..]);
    if n == 0 then None else Some(i + n)
  }

  // Where a quoted string whose unread part starts at i ends.
  ghost function QuotedEnd(value: bytes, i: nat): (r: Option<nat>)
    requires i <= |value|
    ensures r.Some? ==> i <= r.value <= |value|
  {
    Shift(QuotedRestLen(value[i..]), i)
  }

  ghost function ValueEnd(value: bytes, i: nat): (r: Option<nat>)
    requires i <= |value|
    ensures r.Some? ==> i <= r.value <= |value|
  {
    Shift(ValueLen(value[i..]), i)
  }

  ghost function AssignmentEnd(value: bytes, i: nat): (r: Option<nat>)
    requires i <= |value|
    ensures r.Some? ==> i <= r.value <= |value|
  {
    Shift(AssignmentLen(value[i..]), i)
  }

  ghost function ParameterEnd(value: bytes, i: nat): (r: Option<nat>)
    requires i <= |value|
    ensures r.Some? ==> i <= r.value <= |value|
  {
    Shift(ParameterLen(value[i..]), i)
  }

  ghost function ExtensionEnd(value: bytes, i: nat): (r: Option<nat>)
    requires i <= |value|
    ensures r.Some? ==> i < r.value <= |value|
  {
    Shift(ExtensionLen(value[i..]), i)
  }

  ghost predicate ExtensionsFrom(value: bytes, i: nat)
    requires i <= |value|
  {
    ExtensionsOk(value[i..])
  }

  lemma ExtensionsAt(value: bytes, i: nat)
    requires i <= |value|
    ensures i == |value| ==> ExtensionsFrom(value, i)
    ensures i < |value| ==>
              var n := ExtensionEnd(value, i);
              ExtensionsFrom(value, i) == (n.Some? && ExtensionsFrom(value, n.value))
  {
    hide ExtensionLen;
    var n := ExtensionLen(value[i..]);
    if n.Some? {
      Suffix(value, i, n.value);
    }
  }

  lemma ExtensionAt(value: bytes, i: nat)
    requires i <= |value|
    ensures var q := BlankEnd(value, i);
            ExtensionEnd(value, i) ==
            if q == |value| || value[q] != SEMICOLON then None else ParameterEnd(value, q + 1)
  {
    hide ParameterLen, BlankLen;
    var q := BlankEnd(value, i);
    if q < |value| {
      Suffix(value, i, q + 1 - i);
    }
  }

  lemma ParameterAt(value: bytes, i: nat)
    requires i <= |value|
    ensures var name := TokenEnd(value, BlankEnd(value, i));
            ParameterEnd(value, i) == if name.None? then None else AssignmentEnd(value, name.value)
  {
    hide AssignmentLen, BlankLen, TokenLen;
    var b := BlankLen(value[i..]);
    Suffix(value, i, b);
    Suffix(value, i, b + TokenLen(value[i + b..]));
  }

  lemma AssignmentAt(value: bytes, i: nat)
    requires i <= |value|
    ensures var q := BlankEnd(value, i);
            AssignmentEnd(value, i) ==
            if q == |value| || value[q] != EQUALS then Some(i) else ValueEnd(value, BlankEnd(value, q + 1))
  {
    hide ValueLen, BlankLen;
    var q := BlankEnd(value, i);
    if q < |value| && value[q] == EQUALS {
      Suffix(value, i, q + 1 - i);
      Suffix(value, q + 1, BlankLen(value[q + 1..]));
    }
  }

  lemma ValueAt(value: bytes, i: nat)
    requires i <= |value|
    ensures ValueEnd(value, i) ==
            if i == |value| then None
            else if value[i] == DQUOTE then QuotedEnd(value, i + 1)
            else TokenEnd(value, i)
  {
    hide QuotedRestLen, TokenLen;
    if i < |value| {
      Suffix(value, i, 1);
    }
  }

  // ---- the handler's loops

  method SkipChunkBws(value: bytes, index: nat) returns (r: nat)
    requires index <= |value|
    ensures r == BlankEnd(value, index)
  {
    r := index;
    while r < |value| && IsBlank(value[r])
      invariant index <= r <= |value|
      invariant BlankEnd(value, index) == BlankEnd(value, r)
    {
      Suffix(value, r, 1);
      r := r + 1;
    }
  }

  method ConsumeChunkToken(value: bytes, index: nat) returns (r: Option<nat>)
    requires index <= |value|
    ensures r == TokenEnd(value, index)
  {
    var i := index;
    while i < |value| && IsTchar(value[i])
      invariant index <= i <= |value|
      invariant index + TokenLen(value[index..]) == i + TokenLen(value[i..])
    {
      Suffix(value, i, 1);
      i := i + 1;
    }
    r := if i > index then Some(i) else None;
  }

  method ConsumeChunkQuotedString(value: bytes, index: nat) returns (r: Option<nat>)
    requires index <= |value|
    ensures r == if index == |value| || value[index] != DQUOTE then None else QuotedEnd(value, index + 1)
  {
    if index >= |value| || value[index] != DQUOTE {
      return None;
    }
    var i := index + 1;
    while i < |value|
      invariant index < i <= |value|
      invariant QuotedEnd(value, index + 1) == QuotedEnd(value, i)
    {
      var octet := value[i];
      if octet == DQUOTE {
        return Some(i + 1);
      }
      if octet == BACKSLASH {
        if i + 1 >= |value| || !IsEscapable(value[i + 1]) {
          return None;
        }
        Suffix(value, i, 2);
        i := i + 2;
        continue;
      }
      if !IsQdText(octet) {
        return None;
      }
      Suffix(value, i, 1);
      i := i + 1;
    }
    return None;
  }

  method ValidChunkExtensions(value: bytes, start: nat) returns (ok: bool)
    requires start <= |value|
    ensures ok == ExtensionsFrom(value, start)
  {
    hide BlankEnd, TokenEnd, QuotedEnd, ValueEnd, AssignmentEnd, ParameterEnd, ExtensionEnd, ExtensionsFrom;
    var index := start;
    ExtensionsAt(value, index);
    while index < |value|
      invariant start <= index <= |value|
      invariant ExtensionsFrom(value, start) == ExtensionsFrom(value, index)
    {
      ExtensionsAt(value, index);
      ExtensionAt(value, index);
      index := SkipChunkBws(value, index);
      if index >= |value| || value[index] != SEMICOLON {
        return false;
      }
      ParameterAt(value, index + 1);
      index := SkipChunkBws(value, index + 1);
      var tokenEnd := ConsumeChunkToken(value, index);
      if tokenEnd.None? {
        return false;
      }
      index := tokenEnd.value;
      AssignmentAt(value, index);

      var equalsIndex := SkipChunkBws(value, index);
      if equalsIndex < |value| && value[equalsIndex] == EQUALS {
        index := SkipChunkBws(value, equalsIndex + 1);
        ValueAt(value, index);
        if index >= |value| {
          return false;
        }
        var valueEnd: Option<nat>;
        if value[index] == DQUOTE {
          valueEnd := ConsumeChunkQuotedString(value, index);
        } else {
          valueEnd := ConsumeChunkToken(value, index);
        }
        if valueEnd.None? {
          return false;
        }
        index := valueEnd.value;
      }
    }
    ExtensionsAt(value, index);
    return true;
  }

  // int(digits, 16)
  method ParseHex(digits: bytes) returns (total: nat)
    requires AreHexDigits(digits)
    ensures total == HexValue(digits)
  {
    total := 0;
    for i := 0 to |digits|
      invariant total == HexValue(digits[..i])
    {
      HexAppend(digits[..i], digits[i]);
      assert digits[..i] + [digits[i]] == digits[..i + 1];
      total := 16 * total + HexDigitValue(digits[i]);
    }
    assert digits[..|digits|] == digits;
  }

  method ParseWritingPolicyChunkSize(value: bytes) returns (size: Option<nat>)
    ensures size == ParseSize(value)
  {
    hide ExtensionsOk, HexValue;
    var sizeEnd := 0;
    while sizeEnd < |value| && IsHexDigit(value[sizeEnd])
      invariant 0 <= sizeEnd <= |value|
      invariant HexLen(value) == sizeEnd + HexLen(value[sizeEnd..])
    {
      Suffix(value, sizeEnd, 1);
      sizeEnd := sizeEnd + 1;
    }
    if sizeEnd == 0 {
      return None;
    }
    var ok := ValidChunkExtensions(value, sizeEnd);
    if !ok {
      return None;
    }
    var total := ParseHex(value[..sizeEnd]);
    return Some(total);
  }

  // ---- every printed tree is recognised

  lemma {:induction false} BlankLenOf(blanks: bytes, rest: bytes)
    requires AreBlanks(blanks)
    requires rest == [] || !IsBlank(rest[0])
    ensures BlankLen(blanks + rest) == |blanks|
  {
    if blanks == [] {
      assert blanks + rest == rest;
    } else {
      assert (blanks + rest)[1..] == blanks[1..] + rest;
      BlankLenOf(blanks[1..], rest);
    }
  }

  lemma {:induction false} TokenLenOf(token: bytes, rest: bytes)
    requires AreTchars(token)
    requires rest == [] || !IsTchar(rest[0])
    ensures TokenLen(token + rest) == |token|
  {
    if token == [] {
      assert token + rest == rest;
    } else {
      assert (token + rest)[1..] == token[1..] + rest;
      TokenLenOf(token[1..], rest);
    }
  }

  lemma {:induction false} HexLenOf(digits: bytes, rest: bytes)
    requires AreHexDigits(digits)
    requires rest == [] || !IsHexDigit(rest[0])
    ensures HexLen(digits + rest) == |digits|
  {
    if digits == [] {
      assert digits + rest == rest;
    } else {
      assert (digits + rest)[1..] == digits[1..] + rest;
      HexLenOf(digits[1..], rest);
    }
  }

  lemma {:induction false} QuotedRestLenOf(items: seq<QuotedItem>, rest: bytes)
    requires forall i :: 0 <= i < |items| ==> IsItem(items[i])
    ensures QuotedRestLen(PrintItems(items) + [DQUOTE] + rest) == Some(|PrintItems(items)| + 1)
  {
    var v := PrintItems(items) + [DQUOTE] + rest;
    if items != [] {
      var q, tail := items[0], PrintItems(items[1..]) + [DQUOTE] + rest;
      QuotedRestLenOf(items[1..], rest);
      assert IsItem(q);
      assert v == PrintItem(q) + tail;
      assert v[|PrintItem(q)|..] == tail;
    }
  }

  // What may follow an extension: nothing, or blanks and the next semicolon.
  ghost predicate AtBoundary(rest: bytes) {
    rest == [] || (BlankLen(rest) < |rest| && rest[BlankLen(rest)] == SEMICOLON)
  }

  lemma BoundaryHead(rest: bytes)
    requires AtBoundary(rest)
    ensures rest == [] || IsBlank(rest[0]) || rest[0] == SEMICOLON
  {
  }

  lemma ValueLenOf(value: ExtValue, rest: bytes)
    requires IsValue(value) && AtBoundary(rest)
    ensures ValueLen(PrintValue(value) + rest) == Some(|PrintValue(value)|)
  {
    match value {
      case Token(text) =>
        BoundaryHead(rest);
        TokenLenOf(text, rest);
        assert IsTchar(text[0]);
      case Quoted(items) =>
        QuotedRestLenOf(items, rest);
        Regroup([DQUOTE], PrintItems(items) + [DQUOTE], rest);
        Cut([DQUOTE], PrintItems(items) + [DQUOTE] + rest);
    }
  }

  lemma ValueHead(value: ExtValue, rest: bytes)
    requires IsValue(value)
    ensures PrintValue(value) != [] && !IsBlank(PrintValue(value)[0])
  {
    if value.Token? {
      assert IsTchar(value.text[0]);
    }
  }

  lemma AssignedLenOf(after: bytes, value: ExtValue, rest: bytes)
    requires AreBlanks(after) && IsValue(value) && AtBoundary(rest)
    ensures AssignedLen((after + PrintValue(value)) + rest) == Some(|after + PrintValue(value)|)
  {
    var body := PrintValue(value) + rest;
    Regroup(after, PrintValue(value), rest);
    ValueHead(value, rest);
    BlankLenOf(after, body);
    Cut(after, body);
    ValueLenOf(value, rest);
  }

  lemma AssignmentLenOf(a: Assignment, rest: bytes)
    requires IsAssignment(a) && AtBoundary(rest)
    ensures AssignmentLen(PrintAssignment(a) + rest) == Some(|PrintAssignment(a)|)
  {
    hide BlankLen, AssignedLen, PrintValue;
    match a {
      case Unassigned =>
        assert PrintAssignment(a) + rest == rest;
      case Assigned(before, after, value) =>
        var inner := after + PrintValue(value);
        Regroup(before, [EQUALS] + inner, rest);
        Regroup([EQUALS], inner, rest);
        BlankLenOf(before, [EQUALS] + (inner + rest));
        Cut(before, [EQUALS] + (inner + rest));
        Cut([EQUALS], inner + rest);
        Suffix(PrintAssignment(a) + rest, |before|, 1);
        AssignedLenOf(after, value, rest);
    }
  }

  lemma AssignmentHead(a: Assignment, rest: bytes)
    requires IsAssignment(a) && AtBoundary(rest)
    ensures var t := PrintAssignment(a) + rest; t == [] || !IsTchar(t[0])
  {
    BoundaryHead(rest);
    if a.Assigned? && a.before != [] {
      assert IsBlank(a.before[0]);
    }
  }

  lemma NameLenOf(after: bytes, name: bytes, tail: bytes)
    requires AreBlanks(after) && IsToken(name)
    requires tail == [] || !IsTchar(tail[0])
    ensures NameLen(after + (name + tail)) == Some(|after| + |name|)
  {
    assert IsTchar(name[0]);
    BlankLenOf(after, name + tail);
    Cut(after, name + tail);
    TokenLenOf(name, tail);
  }

  lemma ParameterLenOf(after: bytes, name: bytes, a: Assignment, rest: bytes)
    requires AreBlanks(after) && IsToken(name) && IsAssignment(a) && AtBoundary(rest)
    ensures ParameterLen(after + (name + (PrintAssignment(a) + rest)))
         == Some(|after| + |name| + |PrintAssignment(a)|)
  {
    hide AssignmentLen, NameLen, PrintAssignment;
    var tail := PrintAssignment(a) + rest;
    AssignmentHead(a, rest);
    NameLenOf(after, name, tail);
    Regroup(after, name, tail);
    Cut(after + name, tail);
    AssignmentLenOf(a, rest);
  }

  lemma ExtensionLenOf(e: Extension, rest: bytes)
    requires IsExtension(e) && AtBoundary(rest)
    ensures ExtensionLen(PrintExtension(e) + rest) == Some(|PrintExtension(e)|)
  {
    hide BlankLen, ParameterLen, PrintAssignment;
    var value := PrintAssignment(e.assignment);
    var inner := e.after + (e.name + value);
    Regroup(e.before, [SEMICOLON] + inner, rest);
    Regroup([SEMICOLON], inner, rest);
    Regroup(e.after, e.name + value, rest);
    Regroup(e.name, value, rest);
    BlankLenOf(e.before, [SEMICOLON] + (inner + rest));
    Cut(e.before, [SEMICOLON] + (inner + rest));
    Cut([SEMICOLON], inner + rest);
    Suffix(PrintExtension(e) + rest, |e.before|, 1);
    ParameterLenOf(e.after, e.name, e.assignment, rest);
  }

  lemma PrintedBoundary(es: seq<Extension>)
    requires AreExtensions(es)
    ensures AtBoundary(PrintExtensions(es))
  {
    if es != [] {
      var e := es[0];
      var inner := e.after + (e.name + PrintAssignment(e.assignment));
      var rest := PrintExtensions(es[1..]);
      Regroup(e.before, [SEMICOLON] + inner, rest);
      BlankLenOf(e.before, ([SEMICOLON] + inner) + rest);
    }
  }

  lemma {:induction false} ExtensionsComplete(es: seq<Extension>)
    requires AreExtensions(es)
    ensures ExtensionsOk(PrintExtensions(es))
  {
    if es != [] {
      PrintedBoundary(es[1..]);
      ExtensionLenOf(es[0], PrintExtensions(es[1..]));
      ExtensionsComplete(es[1..]);
      var v := PrintExtensions(es);
      assert v[|PrintExtension(es[0])|..] == PrintExtensions(es[1..]);
    }
  }

  // ---- everything recognised is a printed tree

  lemma {:induction false} BlankLenAll(v: bytes)
    ensures AreBlanks(v[..BlankLen(v)])
  {
    if v != [] && IsBlank(v[0]) {
      BlankLenAll(v[1..]);
    }
  }

  lemma {:induction false} TokenLenAll(v: bytes)
    ensures AreTchars(v[..TokenLen(v)])
  {
    if v != [] && IsTchar(v[0]) {
      TokenLenAll(v[1..]);
    }
  }

  lemma {:induction false} QuotedItems(v: bytes) returns (items: seq<QuotedItem>)
    requires QuotedRestLen(v).Some?
    ensures forall i :: 0 <= i < |items| ==> IsItem(items[i])
    ensures PrintItems(items) + [DQUOTE] == v[..QuotedRestLen(v).value]
    decreases |v|
  {
    hide IsQdText, IsEscapable;
    var n := QuotedRestLen(v).value;
    if v[0] == DQUOTE {
      items := [];
    } else if v[0] == BACKSLASH {
      var tail := QuotedItems(v[2..]);
      items := [Escaped(v[1])] + tail;
      assert v[..n] == [v[0], v[1]] + v[2..][..n - 2];
    } else {
      var tail := QuotedItems(v[1..]);
      items := [Plain(v[0])] + tail;
      assert v[..n] == [v[0]] + v[1..][..n - 1];
    }
  }

  lemma ValueTree(v: bytes) returns (value: ExtValue)
    requires ValueLen(v).Some?
    ensures IsValue(value) && PrintValue(value) == v[..ValueLen(v).value]
  {
    if v[0] == DQUOTE {
      var items := QuotedItems(v[1..]);
      value := Quoted(items);
      var n := ValueLen(v).value;
      assert v[..n] == [v[0]] + v[1..][..n - 1];
    } else {
      TokenLenAll(v);
      value := Token(v[..TokenLen(v)]);
    }
  }

  lemma AssignedTree(v: bytes) returns (after: bytes, value: ExtValue)
    requires AssignedLen(v).Some?
    ensures AreBlanks(after) && IsValue(value)
    ensures after + PrintValue(value) == v[..AssignedLen(v).value]
  {
    after := v[..BlankLen(v)];
    BlankLenAll(v);
    value := ValueTree(v[|after|..]);
    Prefix(v, |after|, |PrintValue(value)|);
  }

  lemma Step(v: bytes, a: nat, b: nat)
    requires a + 1 + b <= |v|
    ensures v[..a] + [v[a]] + v[a + 1..][..b] == v[..a + 1 + b]
  {
  }

  lemma Prefix(v: bytes, a: nat, b: nat)
    requires a + b <= |v|
    ensures v[..a] + v[a..][..b] == v[..a + b]
  {
  }

  lemma AssignmentTree(v: bytes) returns (a: Assignment)
    requires AssignmentLen(v).Some?
    ensures IsAssignment(a) && PrintAssignment(a) == v[..AssignmentLen(v).value]
  {
    hide AssignedLen, BlankLen, PrintValue;
    var q := BlankLen(v);
    if q < |v| && v[q] == EQUALS {
      BlankLenAll(v);
      var after, value := AssignedTree(v[q + 1..]);
      a := Assigned(v[..q], after, value);
      var n := AssignedLen(v[q + 1..]).value;
      Step(v, q, n);
      Regroup(v[..q], [EQUALS], v[q + 1..][..n]);
    } else {
      a := Unassigned;
    }
  }

  lemma ParameterTree(v: bytes) returns (after: bytes, name: bytes, a: Assignment)
    requires ParameterLen(v).Some?
    ensures AreBlanks(after) && IsToken(name) && IsAssignment(a)
    ensures after + (name + PrintAssignment(a)) == v[..ParameterLen(v).value]
  {
    hide AssignmentLen, BlankLen, TokenLen, PrintAssignment;
    var b := BlankLen(v);
    var t := TokenLen(v[b..]);
    BlankLenAll(v);
    TokenLenAll(v[b..]);
    after, name := v[..b], v[b..][..t];
    Prefix(v, b, t);
    a := AssignmentTree(v[b + t..]);
    Prefix(v, b + t, |PrintAssignment(a)|);
    Regroup(after, name, PrintAssignment(a));
  }

  lemma ExtensionTree(v: bytes) returns (e: Extension)
    requires ExtensionLen(v).Some?
    ensures IsExtension(e) && PrintExtension(e) == v[..ExtensionLen(v).value]
  {
    hide ParameterLen, BlankLen, PrintAssignment;
    var i := BlankLen(v);
    BlankLenAll(v);
    var after, name, a := ParameterTree(v[i + 1..]);
    e := Extension(v[..i], after, name, a);
    var n := ParameterLen(v[i + 1..]).value;
    Step(v, i, n);
    Regroup(v[..i], [SEMICOLON], v[i + 1..][..n]);
  }

  lemma {:induction false} ExtensionsTree(v: bytes) returns (es: seq<Extension>)
    requires ExtensionsOk(v)
    ensures AreExtensions(es) && PrintExtensions(es) == v
    decreases |v|
  {
    hide ExtensionLen, PrintExtension;
    if v == [] {
      es := [];
    } else {
      var n := ExtensionLen(v).value;
      var e := ExtensionTree(v);
      var tail := ExtensionsTree(v[n..]);
      es := [e] + tail;
      assert v == v[..n] + v[n..];
    }
  }

  // The recogniser accepts exactly the chunk-ext language.
  lemma ExtensionsExact(v: bytes)
    ensures ExtensionsOk(v) <==> exists es :: AreExtensions(es) && PrintExtensions(es) == v
  {
    if ExtensionsOk(v) {
      var es := ExtensionsTree(v);
    }
    forall es | AreExtensions(es) && PrintExtensions(es) == v
      ensures ExtensionsOk(v)
    {
      ExtensionsComplete(es);
    }
  }

  // ---- chunk-size [ chunk-ext ]

  lemma SizeComplete(digits: bytes, es: seq<Extension>)
    requires digits != [] && AreHexDigits(digits) && AreExtensions(es)
    ensures ParseSize(digits + PrintExtensions(es)) == Some(HexValue(digits))
  {
    var v, rest := digits + PrintExtensions(es), PrintExtensions(es);
    PrintedBoundary(es);
    BoundaryHead(rest);
    HexLenOf(digits, rest);
    ExtensionsComplete(es);
    assert v[..|digits|] == digits && v[|digits|..] == rest;
  }

  lemma SizeTree(v: bytes) returns (digits: bytes, es: seq<Extension>)
    requires ParseSize(v).Some?
    ensures IsSize(digits, ParseSize(v).value) && AreExtensions(es)
    ensures digits + PrintExtensions(es) == v
  {
    var n := HexLen(v);
    digits := v[..n];
    es := ExtensionsTree(v[n..]);
  }

  // A size is read off exactly when the text is a chunk-size followed by a chunk-ext.
  lemma SizeExact(v: bytes, size: nat)
    ensures ParseSize(v) == Some(size) <==>
            exists digits, es :: IsSize(digits, size) && AreExtensions(es) && digits + PrintExtensions(es) == v
  {
    if ParseSize(v) == Some(size) {
      var digits, es := SizeTree(v);
    }
    forall digits, es | IsSize(digits, size) && AreExtensions(es) && digits + PrintExtensions(es) == v
      ensures ParseSize(v) == Some(size)
    {
      SizeComplete(digits, es);
    }
  }
}
