/** String helpers used by the URL code: prefix and suffix tests, Python's
    `sep.join(xs)` and its inverse `s.split(sep)`. */
module Strings {

  predicate StartsWith(s: string, prefix: string) {
    |prefix| <= |s| && s[..|prefix|] == prefix
  }

  predicate EndsWith(s: string, suffix: string) {
    |suffix| <= |s| && s[|s| - |suffix|..] == suffix
  }

  /** `sep.join(xs)` for a one-character separator: the elements in order,
      with `sep` between neighbours and nothing escaped. */
  function Join(sep: char, xs: seq<string>): string
    decreases |xs|
  {
    if |xs| == 0 then ""
    else if |xs| == 1 then xs[0]
    else xs[0] + [sep] + Join(sep, xs[1..])
  }

  /** `s.split(sep)`: the maximal pieces of `s` between occurrences of `sep`.
      There is always at least one piece, and no piece contains `sep`. */
  function Split(sep: char, s: string): (pieces: seq<string>)
    ensures |pieces| >= 1
    ensures forall i :: 0 <= i < |pieces| ==> sep !in pieces[i]
    decreases |s|
  {
    if |s| == 0 then [""]
    else if s[0] == sep then [""] + Split(sep, s[1..])
    else
      var rest := Split(sep, s[1..]);
      [[s[0]] + rest[0]] + rest[1..]
  }

  /** `s.partition(sep)` without the separator: the text before the first
      `sep` and the text after it (all of `s` and "" when there is none). */
  function SplitOnce(sep: char, s: string): (parts: (string, string))
    ensures sep !in parts.0
    ensures |parts.0| + |parts.1| <= |s|
    ensures sep in s ==> |parts.0| + |parts.1| + 1 == |s|
    decreases |s|
  {
    if |s| == 0 then ("", "")
    else if s[0] == sep then ("", s[1..])
    else
      var rest := SplitOnce(sep, s[1..]);
      ([s[0]] + rest.0, rest.1)
  }

  /** A string without the separator is a single piece. */
  lemma {:induction false} SplitWithoutSeparator(sep: char, s: string)
    requires sep !in s
    ensures Split(sep, s) == [s]
    decreases |s|
  {
    if |s| > 0 {
      SplitWithoutSeparator(sep, s[1..]);
      assert [s[0]] + s[1..] == s;
    }
  }

  /** Splitting `head + sep + tail` yields `head` followed by the pieces of `tail`. */
  lemma {:induction false} SplitAtFirstSeparator(sep: char, head: string, tail: string)
    requires sep !in head
    ensures Split(sep, head + [sep] + tail) == [head] + Split(sep, tail)
    decreases |head|
  {
    var s := head + [sep] + tail;
    if |head| == 0 {
      assert s[1..] == tail;
    } else {
      assert s[1..] == head[1..] + [sep] + tail;
      SplitAtFirstSeparator(sep, head[1..], tail);
      assert [s[0]] + head[1..] == head;
    }
  }

  /** Splitting a join gives back the joined list, provided it is non-empty and
      no element contains the separator (nothing is escaped). */
  lemma {:induction false} SplitJoin(sep: char, xs: seq<string>)
    requires |xs| >= 1
    requires forall i :: 0 <= i < |xs| ==> sep !in xs[i]
    ensures Split(sep, Join(sep, xs)) == xs
    decreases |xs|
  {
    if |xs| == 1 {
      SplitWithoutSeparator(sep, xs[0]);
    } else {
      SplitJoin(sep, xs[1..]);
      SplitAtFirstSeparator(sep, xs[0], Join(sep, xs[1..]));
      assert [xs[0]] + xs[1..] == xs;
    }
  }

  /** Joining the pieces of a split gives back the string, for every string. */
  lemma {:induction false} JoinSplit(sep: char, s: string)
    ensures Join(sep, Split(sep, s)) == s
    decreases |s|
  {
    if |s| > 0 {
      var rest := Split(sep, s[1..]);
      JoinSplit(sep, s[1..]);
      if s[0] == sep {
        assert ([""] + rest)[1..] == rest;
      } else {
        var pieces := [[s[0]] + rest[0]] + rest[1..];
        assert pieces[1..] == rest[1..];
        if |rest| > 1 {
          assert Join(sep, rest) == rest[0] + [sep] + Join(sep, rest[1..]);
        }
        assert [s[0]] + s[1..] == s;
      }
    }
  }

  /** Cutting `key + sep + value` at the first `sep` recovers both halves when
      the key holds no `sep`; the value may hold any character. */
  lemma {:induction false} SplitOnceAtSeparator(sep: char, key: string, value: string)
    requires sep !in key
    ensures SplitOnce(sep, key + [sep] + value) == (key, value)
    decreases |key|
  {
    var s := key + [sep] + value;
    if |key| == 0 {
      assert s[1..] == value;
    } else {
      assert s[1..] == key[1..] + [sep] + value;
      SplitOnceAtSeparator(sep, key[1..], value);
      assert [s[0]] + key[1..] == key;
    }
  }

  /** A character other than the separator occurs in a join only if it
      occurs in one of the joined elements. */
  lemma {:induction false} JoinAvoids(sep: char, c: char, xs: seq<string>)
    requires c != sep
    requires forall i :: 0 <= i < |xs| ==> c !in xs[i]
    ensures c !in Join(sep, xs)
    decreases |xs|
  {
    if |xs| > 1 {
      JoinAvoids(sep, c, xs[1..]);
    }
  }

  /** The join of four elements, spelled out. */
  lemma JoinFour(sep: char, a: string, b: string, c: string, d: string)
    ensures Join(sep, [a, b, c, d]) == a + [sep] + b + [sep] + c + [sep] + d
  {
    var xs := [a, b, c, d];
    assert xs[1..] == [b, c, d] && xs[1..][1..] == [c, d] && xs[1..][1..][1..] == [d];
    assert Join(sep, [c, d]) == c + [sep] + d;
    assert Join(sep, [b, c, d]) == b + [sep] + (c + [sep] + d);
    assert Join(sep, xs) == a + [sep] + (b + [sep] + (c + [sep] + d));
  }

  /** Prefixing a four-part join: the concatenation may be read either way. */
  lemma PrefixedFour(prefix: string, sep: char, a: string, b: string, c: string, d: string)
    ensures prefix + a + [sep] + b + [sep] + c + [sep] + d
         == prefix + (a + [sep] + b + [sep] + c + [sep] + d)
  {
  }
}
