/**
 * `collections.Counter` over a list of tag words, read through `.items()`:
 * the distinct words in order of first occurrence, each with the number of
 * times it occurs.
 */
module Tally {
  import opened Text

  datatype TagCount = TagCount(tag: string, count: nat)

  /** The words of s in order of first occurrence, each once. */
  function FirstOccurrences<T(==)>(s: seq<T>): (d: seq<T>)
  {
    if s == [] then []
    else
      var init := FirstOccurrences(s[..|s| - 1]);
      if s[|s| - 1] in s[..|s| - 1] then init else init + [s[|s| - 1]]
  }

  predicate Distinct<T(==)>(s: seq<T>) {
    forall i, j :: 0 <= i < j < |s| ==> s[i] != s[j]
  }

  /** First-occurrence order keeps exactly the words of s, and each once. */
  lemma {:induction false} FirstOccurrencesDistinct<T>(s: seq<T>)
    ensures Distinct(FirstOccurrences(s))
    ensures forall x :: x in FirstOccurrences(s) <==> x in s
  {
    if s != [] {
      var init := s[..|s| - 1];
      FirstOccurrencesDistinct(init);
      assert s == init + [s[|s| - 1]];
    }
  }

  function Tags(t: seq<TagCount>): (tags: seq<string>)
    ensures |tags| == |t|
    ensures forall i :: 0 <= i < |t| ==> tags[i] == t[i].tag
  {
    if t == [] then [] else [t[0].tag] + Tags(t[1..])
  }

  function Sum(t: seq<TagCount>): nat {
    if t == [] then 0 else t[0].count + Sum(t[1..])
  }

  /** The count the tally records for x (the first entry for x), or 0 when x has none. */
  function CountOf(t: seq<TagCount>, x: string): nat {
    if t == [] then 0 else if t[0].tag == x then t[0].count else CountOf(t[1..], x)
  }

  /** Counter's update for one more word: bump its entry, or append a new entry with count 1. */
  function Bump(t: seq<TagCount>, w: string): seq<TagCount> {
    if t == [] then [TagCount(w, 1)]
    else if t[0].tag == w then [TagCount(w, t[0].count + 1)] + t[1..]
    else [t[0]] + Bump(t[1..], w)
  }

  lemma {:induction false} BumpTags(t: seq<TagCount>, w: string)
    ensures Tags(Bump(t, w)) == if w in Tags(t) then Tags(t) else Tags(t) + [w]
  {
    if t != [] && t[0].tag != w {
      BumpTags(t[1..], w);
      assert Tags(t) == [t[0].tag] + Tags(t[1..]);
      assert w in Tags(t) <==> w in Tags(t[1..]);
    }
  }

  lemma {:induction false} BumpCount(t: seq<TagCount>, w: string, x: string)
    ensures CountOf(Bump(t, w), x) == CountOf(t, x) + (if x == w then 1 else 0)
  {
    if t != [] && t[0].tag != w {
      BumpCount(t[1..], w, x);
    }
  }

  lemma {:induction false} BumpSum(t: seq<TagCount>, w: string)
    ensures Sum(Bump(t, w)) == Sum(t) + 1
  {
    if t != [] && t[0].tag != w {
      BumpSum(t[1..], w);
    }
  }

  /**
   * `Counter(words)`: one entry per distinct word, in order of first
   * occurrence, whose count is that word's number of occurrences; the counts
   * add up to the number of words.
   */
  function Counter(words: seq<string>): (t: seq<TagCount>)
    ensures Tags(t) == FirstOccurrences(words)
    ensures forall x :: CountOf(t, x) == Occurrences(words, x)
    ensures Sum(t) == |words|
  {
    if words == [] then []
    else
      var init, w := words[..|words| - 1], words[|words| - 1];
      var t := Counter(init);
      BumpTags(t, w);
      BumpSum(t, w);
      FirstOccurrencesDistinct(init);
      assert words == init + [w];
      assert forall x :: CountOf(Bump(t, w), x) == Occurrences(words, x) by {
        forall x ensures CountOf(Bump(t, w), x) == Occurrences(words, x) {
          BumpCount(t, w, x);
          OccurrencesAppend(init, [w], x);
        }
      }
      Bump(t, w)
  }

  /** In a tally with distinct tags, each entry's count is the one CountOf reports. */
  lemma {:induction false} CountOfEntry(t: seq<TagCount>, i: nat)
    requires Distinct(Tags(t)) && i < |t|
    ensures CountOf(t, t[i].tag) == t[i].count
  {
    if i > 0 {
      assert Tags(t)[0] != Tags(t)[i];
      assert Distinct(Tags(t[1..])) by {
        forall a, b | 0 <= a < b < |t| - 1 ensures Tags(t[1..])[a] != Tags(t[1..])[b] {
          assert Tags(t)[a + 1] != Tags(t)[b + 1];
        }
      }
      CountOfEntry(t[1..], i - 1);
    }
  }

  /** Every entry of the tally is a word of the input, listed once, with its exact number of occurrences. */
  lemma CounterEntries(words: seq<string>)
    ensures Distinct(Tags(Counter(words)))
    ensures forall x :: x in Tags(Counter(words)) <==> x in words
    ensures forall i :: 0 <= i < |Counter(words)| ==>
      Counter(words)[i].count == Occurrences(words, Counter(words)[i].tag) >= 1
  {
    var t := Counter(words);
    FirstOccurrencesDistinct(words);
    forall i | 0 <= i < |t| ensures t[i].count == Occurrences(words, t[i].tag) >= 1 {
      CountOfEntry(t, i);
      assert t[i].tag in Tags(t);
    }
  }
}
