/**
 * The two JavaScript string operations the chat item relies on:
 * `s.split(sep)` and `Array.prototype.pop` on its result.
 */
module Strings {

  /** `s.split(sep)` for a one-character separator: the maximal runs of
      non-separator characters, with an empty run at each end or between
      two adjacent separators. */
  function Split(s: string, sep: char): (parts: seq<string>)
    ensures |parts| >= 1
    ensures forall i :: 0 <= i < |parts| ==> sep !in parts[i]
    ensures |parts| == 1 <==> sep !in s
    ensures sep !in s ==> parts == [s]
    decreases |s|
  {
    if s == [] then [""]
    else
      var rest := Split(s[1..], sep);
      assert s == [s[0]] + s[1..];
      if s[0] == sep then [""] + rest
      else [[s[0]] + rest[0]] + rest[1..]
  }

  /** `parts.join(sep)`, the inverse of Split. */
  function Join(parts: seq<string>, sep: char): string
    requires |parts| >= 1
  {
    if |parts| == 1 then parts[0] else parts[0] + [sep] + Join(parts[1..], sep)
  }

  /** The value `pop()` returns: the last element. */
  function Last<T>(xs: seq<T>): T
    requires |xs| >= 1
  {
    xs[|xs| - 1]
  }

  /** Splitting and joining again gives back the original string. */
  lemma {:induction false} JoinSplit(s: string, sep: char)
    ensures Join(Split(s, sep), sep) == s
    decreases |s|
  {
    if s != [] {
      var rest := Split(s[1..], sep);
      JoinSplit(s[1..], sep);
      assert s == [s[0]] + s[1..];
      if s[0] == sep {
        assert ([""] + rest)[1..] == rest;
      } else if |rest| > 1 {
        var parts := [[s[0]] + rest[0]] + rest[1..];
        assert parts[1..] == rest[1..];
        assert Join(rest, sep) == rest[0] + [sep] + Join(rest[1..], sep);
      }
    }
  }

  /** The last piece of `s.split(sep)` is the text after the last separator:
      a suffix of `s` free of separators that either is the whole of `s`
      (when `s` has no separator) or directly follows a separator. */
  lemma {:induction false} LastSegment(s: string, sep: char)
    ensures |Last(Split(s, sep))| <= |s|
    ensures s[|s| - |Last(Split(s, sep))|..] == Last(Split(s, sep))
    ensures sep !in Last(Split(s, sep))
    ensures sep !in s ==> Last(Split(s, sep)) == s
    ensures sep in s ==> |Last(Split(s, sep))| < |s| && s[|s| - |Last(Split(s, sep))| - 1] == sep
    decreases |s|
  {
    if sep in s {
      var t := s[1..];
      assert s == [s[0]] + t;
      var rest := Split(t, sep);
      var e := Last(rest);
      if s[0] != sep || sep in t {
        assert sep in t;
        assert Last(Split(s, sep)) == e;
        LastSegment(t, sep);
        assert s[|s| - |e|..] == t[|t| - |e|..];
        assert s[|s| - |e| - 1] == t[|t| - |e| - 1];
      } else {
        assert rest == [t];
        assert Last(Split(s, sep)) == t;
      }
    }
  }
}
