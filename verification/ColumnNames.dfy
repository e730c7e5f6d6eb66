/** Spreadsheet column names: bijective base 26, with A to Z as the digits 1 to 26. */
module ColumnNames {

  predicate IsName(name: string) {
    forall i :: 0 <= i < |name| ==> 'A' <= name[i] <= 'Z'
  }

  function Digit(c: char): nat
    requires 'A' <= c <= 'Z'
  {
    c as int - 'A' as int + 1
  }

  // The number a name stands for; the empty name stands for 0.
  function Index(name: string): (n: nat)
    requires IsName(name)
  {
    if name == "" then 0 else 26 * Index(name[..|name| - 1]) + Digit(name[|name| - 1])
  }

  lemma {:induction false} IndexAppend(a: string, c: char)
    requires IsName(a) && 'A' <= c <= 'Z'
    ensures IsName(a + [c]) && Index(a + [c]) == 26 * Index(a) + Digit(c)
  {
    assert (a + [c])[..|a|] == a;
  }

  // How the loop reads from the index that is left: it names that index, then what has been named.
  function Scale(n: nat, name: string): nat
    requires IsName(name)
    decreases |name|
  {
    if name == "" then n else 26 * Scale(n, name[..|name| - 1]) + Digit(name[|name| - 1])
  }

  lemma {:induction false} ScalePrepend(n: nat, c: char, name: string)
    requires IsName(name) && 'A' <= c <= 'Z'
    ensures IsName([c] + name) && Scale(n, [c] + name) == Scale(26 * n + Digit(c), name)
    decreases |name|
  {
    var all := [c] + name;
    if name == "" {
      assert all == [c] && all[..0] == "";
    } else {
      ScalePrepend(n, c, name[..|name| - 1]);
      assert all[..|all| - 1] == [c] + name[..|name| - 1];
    }
  }

  lemma {:induction false} ScaleZero(name: string)
    requires IsName(name)
    ensures Scale(0, name) == Index(name)
    decreases |name|
  {
    if name != "" {
      ScaleZero(name[..|name| - 1]);
    }
  }

  // divmod takes the digit off from the right; the name of an index stands for that index.
  method ExcelColumnName(index: nat) returns (result: string)
    ensures IsName(result) && Index(result) == index
    ensures index >= 1 <==> result != ""
  {
    result := "";
    var left := index;
    while left != 0
      invariant IsName(result) && Scale(left, result) == index
      invariant index >= 1 && left == 0 ==> result != ""
      invariant index == 0 ==> result == ""
    {
      var remainder := (left - 1) % 26;
      var c := (65 + remainder) as char;
      ScalePrepend((left - 1) / 26, c, result);
      left := (left - 1) / 26;
      result := [c] + result;
    }
    ScaleZero(result);
  }

  // ---- one name for each index, one index for each name

  lemma {:induction false} NamesAreDistinct(a: string, b: string)
    requires IsName(a) && IsName(b) && Index(a) == Index(b)
    ensures a == b
    decreases |a|
  {
    if a != "" && b != "" {
      NamesAreDistinct(a[..|a| - 1], b[..|b| - 1]);
      assert a == a[..|a| - 1] + [a[|a| - 1]] && b == b[..|b| - 1] + [b[|b| - 1]];
    }
  }

  // The name as a function, which the loop computes.
  function Name(index: nat): (name: string)
    ensures IsName(name) && Index(name) == index
  {
    if index == 0 then ""
    else
      var c := (65 + (index - 1) % 26) as char;
      IndexAppend(Name((index - 1) / 26), c);
      Name((index - 1) / 26) + [c]
  }

  // Every name is the name of exactly one index, and every index has exactly one name.
  lemma Bijection(name: string, index: nat)
    requires IsName(name)
    ensures Name(Index(name)) == name
    ensures Name(index) == name <==> index == Index(name)
  {
    NamesAreDistinct(Name(Index(name)), name);
  }

  // ---- order

  // Shorter names come first, and names of one length by their first difference.
  ghost predicate Before(a: string, b: string) {
    |a| < |b| || (|a| == |b| && exists k :: FirstDifference(a, b, k))
  }

  predicate FirstDifference(a: string, b: string, k: nat) {
    k < |a| && k < |b| && a[..k] == b[..k] && a[k] < b[k]
  }

  lemma {:induction false} ShorterIsLess(a: string, b: string)
    requires IsName(a) && IsName(b) && |a| < |b|
    ensures Index(a) < Index(b)
    decreases |a|
  {
    if a != "" {
      ShorterIsLess(a[..|a| - 1], b[..|b| - 1]);
    }
  }

  lemma {:induction false} FirstDifferenceIsLess(a: string, b: string, k: nat)
    requires IsName(a) && IsName(b) && |a| == |b| && FirstDifference(a, b, k)
    ensures Index(a) < Index(b)
    decreases |a|
  {
    var p, q := a[..|a| - 1], b[..|b| - 1];
    if k == |a| - 1 {
      assert p == a[..k] && q == b[..k];
    } else {
      assert p[..k] == a[..k] && q[..k] == b[..k];
      FirstDifferenceIsLess(p, q, k);
    }
  }

  lemma {:induction false} SomeDifference(a: string, b: string)
    requires |a| == |b| && a != b
    ensures exists k :: FirstDifference(a, b, k) || FirstDifference(b, a, k)
    decreases |a|
  {
    if a[0] != b[0] {
      assert a[..0] == b[..0];
      assert FirstDifference(a, b, 0) || FirstDifference(b, a, 0);
    } else {
      assert a == [a[0]] + a[1..] && b == [b[0]] + b[1..];
      SomeDifference(a[1..], b[1..]);
      var k: nat :| FirstDifference(a[1..], b[1..], k) || FirstDifference(b[1..], a[1..], k);
      assert a[..k + 1] == [a[0]] + a[1..][..k] && b[..k + 1] == [b[0]] + b[1..][..k];
      assert FirstDifference(a, b, k + 1) || FirstDifference(b, a, k + 1);
    }
  }

  lemma BeforeIsLess(a: string, b: string)
    requires IsName(a) && IsName(b) && Before(a, b)
    ensures Index(a) < Index(b)
  {
    if |a| < |b| {
      ShorterIsLess(a, b);
    } else {
      var k :| FirstDifference(a, b, k);
      FirstDifferenceIsLess(a, b, k);
    }
  }

  // Columns come in the order of their names, by length and then by letter.
  lemma OrderKept(a: string, b: string)
    requires IsName(a) && IsName(b)
    ensures Index(a) < Index(b) <==> Before(a, b)
  {
    if Before(a, b) {
      BeforeIsLess(a, b);
    } else if a != b {
      if |a| == |b| {
        SomeDifference(a, b);
      }
      assert Before(b, a);
      BeforeIsLess(b, a);
    }
  }

  // ---- below zero

  function Rounds(index: int, rounds: nat): int {
    if rounds == 0 then index else (Rounds(index, rounds - 1) - 1) / 26
  }

  // The loop ends exactly for the indices that are not negative: a negative one stays negative.
  lemma {:induction false} EndsExactly(index: int)
    ensures index >= 0 <==> exists rounds: nat :: Rounds(index, rounds) == 0
  {
    if index < 0 {
      forall rounds: nat
        ensures Rounds(index, rounds) != 0
      {
        StaysNegative(index, rounds);
      }
    } else {
      var rounds := ReachesZero(index);
    }
  }

  lemma {:induction false} StaysNegative(index: int, rounds: nat)
    requires index < 0
    ensures Rounds(index, rounds) < 0
  {
    if rounds > 0 {
      StaysNegative(index, rounds - 1);
    }
  }

  lemma {:induction false} ReachesZero(index: nat) returns (rounds: nat)
    ensures Rounds(index, rounds) == 0
  {
    if index == 0 {
      rounds := 0;
    } else {
      var less := ReachesZero((index - 1) / 26);
      RoundsShift(index, less);
      rounds := less + 1;
    }
  }

  lemma {:induction false} RoundsShift(index: int, rounds: nat)
    ensures Rounds(index, rounds + 1) == Rounds((index - 1) / 26, rounds)
  {
    if rounds > 0 {
      RoundsShift(index, rounds - 1);
    }
  }
}
