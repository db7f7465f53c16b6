/** The string formatting the fuzzers rely on: `str(n)` for a natural number,
    `sep.join(items)` and its inverse `s.split(sep)`. */
module Text {

  predicate IsDigit(c: char)
  {
    '0' <= c <= '9'
  }

  predicate AllDigits(s: string)
  {
    forall i :: 0 <= i < |s| ==> IsDigit(s[i])
  }

  /** Pairwise distinct elements. */
  ghost predicate Distinct<T>(s: seq<T>)
  {
    forall i, j :: 0 <= i < |s| && 0 <= j < |s| && i != j ==> s[i] != s[j]
  }

  /** `x` differs from every element of `s`, checked one element at a time. */
  predicate Absent<T(==)>(x: T, s: seq<T>)
  {
    |s| == 0 || (x != s[0] && Absent(x, s[1..]))
  }

  /** A decidable form of Distinct, for checking literal tables. */
  predicate NoDuplicates<T(==)>(s: seq<T>)
  {
    |s| == 0 || (Absent(s[0], s[1..]) && NoDuplicates(s[1..]))
  }

  lemma {:induction false} AbsentNotIn<T>(x: T, s: seq<T>)
    requires Absent(x, s)
    ensures x !in s
  {
    if |s| > 0 {
      AbsentNotIn(x, s[1..]);
      assert s == [s[0]] + s[1..];
    }
  }

  lemma {:induction false} NoDuplicatesDistinct<T>(s: seq<T>)
    requires NoDuplicates(s)
    ensures Distinct(s)
  {
    if |s| > 0 {
      NoDuplicatesDistinct(s[1..]);
      AbsentNotIn(s[0], s[1..]);
      forall i, j | 0 <= i < |s| && 0 <= j < |s| && i != j
        ensures s[i] != s[j]
      {
        if i > 0 && j > 0 {
          assert s[i] == s[1..][i - 1] && s[j] == s[1..][j - 1];
        } else if i == 0 {
          assert s[j] == s[1..][j - 1];
        } else {
          assert s[i] == s[1..][i - 1];
        }
      }
    }
  }

  function DigitChar(d: nat): (c: char)
    requires d < 10
    ensures IsDigit(c) && c as int - '0' as int == d
  {
    ('0' as int + d) as char
  }

  function DigitValue(c: char): (d: nat)
    requires IsDigit(c)
    ensures d < 10 && DigitChar(d) == c
  {
    c as int - '0' as int
  }

  /** Python's `str(n)` (also `"{}".format(n)`) for a natural number: its decimal
      digits, most significant first, without leading zeros. */
  function NatToString(n: nat): (s: string)
    ensures |s| >= 1 && AllDigits(s)
    ensures s[0] == '0' ==> n == 0
    ensures n < 10 <==> |s| == 1
  {
    if n < 10 then [DigitChar(n)] else NatToString(n / 10) + [DigitChar(n % 10)]
  }

  /** The number a string of decimal digits denotes (Python's `int(s)` on digits). */
  function DecimalValue(s: string): nat
    requires AllDigits(s)
  {
    if s == [] then 0 else DecimalValue(s[..|s| - 1]) * 10 + DigitValue(s[|s| - 1])
  }

  lemma {:induction false} DecimalRoundTrip(n: nat)
    ensures DecimalValue(NatToString(n)) == n
  {
    var s := NatToString(n);
    if n >= 10 {
      DecimalRoundTrip(n / 10);
      assert s[..|s| - 1] == NatToString(n / 10);
    } else {
      assert s[..|s| - 1] == [];
    }
  }

  lemma NatToStringInjective(a: nat, b: nat)
    ensures NatToString(a) == NatToString(b) ==> a == b
  {
    DecimalRoundTrip(a);
    DecimalRoundTrip(b);
  }

  /** Two strings that each start with a run of digits followed by a non-digit
      split at the same place. */
  lemma {:induction false} DigitRunSplit(a: string, t: string, b: string, u: string)
    requires AllDigits(a) && AllDigits(b)
    requires |t| > 0 && !IsDigit(t[0]) && |u| > 0 && !IsDigit(u[0])
    requires a + t == b + u
    ensures a == b && t == u
  {
    var k := if |a| < |b| then |a| else |b|;
    assert (a + t)[k] == (b + u)[k];
    assert |a| == |b|;
    assert a == (a + t)[..|a|] && b == (b + u)[..|b|];
    assert t == (a + t)[|a|..] && u == (b + u)[|b|..];
  }

  /** Position of the first occurrence of `c` in `s`. */
  function IndexOf(s: string, c: char): (i: nat)
    requires c in s
    ensures i < |s| && s[i] == c && c !in s[..i]
  {
    if s[0] == c then 0 else 1 + IndexOf(s[1..], c)
  }

  lemma IndexOfFirst(a: string, c: char, b: string)
    requires c !in a
    ensures c in a + [c] + b && IndexOf(a + [c] + b, c) == |a|
  {
    var s := a + [c] + b;
    assert s[|a|] == c;
    var i := IndexOf(s, c);
  }

  /** Python's `sep.join(items)`. */
  function Join(items: seq<string>, sep: char): string
  {
    if |items| == 0 then ""
    else if |items| == 1 then items[0]
    else items[0] + [sep] + Join(items[1..], sep)
  }

  /** Python's `s.split(sep)`: the maximal pieces between separators, at least one. */
  function Split(s: string, sep: char): (r: seq<string>)
    ensures |r| >= 1
    decreases |s|
  {
    if sep in s then
      var i := IndexOf(s, sep);
      [s[..i]] + Split(s[i + 1..], sep)
    else
      [s]
  }

  /** `sep.join` undoes `split` when no item holds the separator. */
  lemma {:induction false} SplitJoin(items: seq<string>, sep: char)
    requires |items| >= 1
    requires forall i :: 0 <= i < |items| ==> sep !in items[i]
    ensures Split(Join(items, sep), sep) == items
  {
    if |items| > 1 {
      var rest := Join(items[1..], sep);
      var s := items[0] + [sep] + rest;
      IndexOfFirst(items[0], sep, rest);
      assert s[..|items[0]|] == items[0];
      assert s[|items[0]| + 1..] == rest;
      SplitJoin(items[1..], sep);
      assert items == [items[0]] + items[1..];
    }
  }
}
