/** Character classes and sequence helpers used by the request validators. */
module Text {

  /** An ASCII decimal digit (the model's reading of the regex class `\d` and of `str.isdigit`). */
  predicate IsDigit(c: char) {
    '0' <= c <= '9'
  }

  predicate AllDigits(s: string) {
    forall i :: 0 <= i < |s| ==> IsDigit(s[i])
  }

  /** The value 0..9 of an ASCII digit. */
  function DigitValue(c: char): (n: nat)
    requires IsDigit(c)
    ensures n < 10 && DigitChar(n) == c
  {
    c as int - '0' as int
  }

  /** The ASCII digit of a value 0..9. */
  function DigitChar(n: nat): (c: char)
    requires n < 10
    ensures IsDigit(c)
  {
    ('0' as int + n) as char
  }

  lemma DigitCharValue(n: nat)
    requires n < 10
    ensures DigitValue(DigitChar(n)) == n
  {
  }

  /** Number of occurrences of x in s. */
  function Occurrences<T(==)>(s: seq<T>, x: T): (n: nat)
    ensures n <= |s|
    ensures n == 0 <==> x !in s
  {
    if s == [] then 0
    else (if s[0] == x then 1 else 0) + Occurrences(s[1..], x)
  }

  lemma {:induction false} OccurrencesAppend<T>(a: seq<T>, b: seq<T>, x: T)
    ensures Occurrences(a + b, x) == Occurrences(a, x) + Occurrences(b, x)
  {
    if a == [] {
      assert a + b == b;
    } else {
      assert (a + b)[1..] == a[1..] + b;
      OccurrencesAppend(a[1..], b, x);
    }
  }

  /** Python's `str.split(sep)`: the maximal pieces of s between occurrences of sep. */
  function Split(s: string, sep: char): (parts: seq<string>)
    ensures |parts| >= 1
    ensures forall k :: 0 <= k < |parts| ==> sep !in parts[k]
  {
    if s == [] then [[]]
    else
      var rest := Split(s[1..], sep);
      if s[0] == sep then [[]] + rest
      else [[s[0]] + rest[0]] + rest[1..]
  }

  /** Python's `sep.join(parts)`. */
  function Join(parts: seq<string>, sep: char): string
    requires |parts| >= 1
  {
    if |parts| == 1 then parts[0]
    else parts[0] + [sep] + Join(parts[1..], sep)
  }

  /** Splitting and re-joining gives back the original text. */
  lemma {:induction false} JoinSplit(s: string, sep: char)
    ensures Join(Split(s, sep), sep) == s
  {
    if s != [] {
      var rest := Split(s[1..], sep);
      JoinSplit(s[1..], sep);
      if s[0] == sep {
        assert ([[]] + rest)[1..] == rest;
      } else {
        var parts := [[s[0]] + rest[0]] + rest[1..];
        if |rest| > 1 {
          assert parts[1..] == rest[1..];
          assert Join(rest, sep) == rest[0] + [sep] + Join(rest[1..], sep);
        }
      }
    }
  }

  /** A piece with no separator splits to itself. */
  lemma {:induction false} SplitFree(g: string, sep: char)
    requires sep !in g
    ensures Split(g, sep) == [g]
  {
    if g != [] {
      SplitFree(g[1..], sep);
      assert [g[0]] + g[1..] == g;
    }
  }

  /** A separator-free piece followed by the separator is split off as the first part. */
  lemma {:induction false} SplitCons(g: string, t: string, sep: char)
    requires sep !in g
    ensures Split(g + [sep] + t, sep) == [g] + Split(t, sep)
  {
    if g == [] {
      assert ([] + [sep] + t)[1..] == t;
    } else {
      assert (g + [sep] + t)[1..] == g[1..] + [sep] + t;
      SplitCons(g[1..], t, sep);
      assert [g[0]] + g[1..] == g;
    }
  }
}
