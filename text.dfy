/**
 * Python's `str.split` and `str.join` on a one-character separator, which the
 * transcriber uses to take a file name's extension (`name.split('.')[-1]`).
 */
module Text {

  /**
   * `s.split(sep)`: the pieces of `s` between occurrences of `sep`. There is
   * always at least one piece, no piece holds the separator, and there is
   * exactly one piece when the separator does not occur.
   */
  function Split(s: string, sep: char): (parts: seq<string>)
    ensures |parts| >= 1
    ensures forall i :: 0 <= i < |parts| ==> sep !in parts[i]
    ensures |parts| == 1 <==> sep !in s
    decreases |s|
  {
    if s == [] then [[]]
    else
      var rest := Split(s[1..], sep);
      assert s == [s[0]] + s[1..];
      if s[0] == sep then [[]] + rest
      else [[s[0]] + rest[0]] + rest[1..]
  }

  /** `sep.join(parts)`. */
  function Join(parts: seq<string>, sep: char): string
    requires |parts| >= 1
    decreases |parts|
  {
    if |parts| == 1 then parts[0] else parts[0] + [sep] + Join(parts[1..], sep)
  }

  /** Joining the pieces back with the separator gives the original string. */
  lemma {:induction false} JoinSplit(s: string, sep: char)
    ensures Join(Split(s, sep), sep) == s
    decreases |s|
  {
    if s != [] {
      var rest := Split(s[1..], sep);
      JoinSplit(s[1..], sep);
      if s[0] == sep {
        assert ([[]] + rest)[1..] == rest;
      } else {
        var parts := [[s[0]] + rest[0]] + rest[1..];
        if |rest| > 1 {
          assert parts[1..] == rest[1..];
          assert Join(rest, sep) == rest[0] + [sep] + Join(rest[1..], sep);
        }
      }
    }
  }

  /**
   * `t` is the longest tail of `s` without the separator: it ends `s`, holds
   * no separator, and is either all of `s` or preceded by one.
   */
  predicate IsLongestTailWithoutSep(s: string, sep: char, t: string)
  {
    && |t| <= |s| && s[|s| - |t|..] == t && sep !in t
    && (|t| < |s| ==> s[|s| - |t| - 1] == sep)
  }

  /**
   * A longest separator-free tail of `s[1..]` is one of `s` too when `s`
   * starts with the separator or the separator occurs in `s[1..]`.
   */
  lemma TailOfRestIsTail(s: string, sep: char, t: string)
    requires s != [] && IsLongestTailWithoutSep(s[1..], sep, t)
    requires s[0] == sep || sep in s[1..]
    ensures IsLongestTailWithoutSep(s, sep, t)
  {
    assert s[1..][|s| - 1 - |t|..] == s[|s| - |t|..];
    if |t| < |s| - 1 {
      assert s[|s| - |t| - 1] == s[1..][|s| - 1 - |t| - 1];
    }
  }

  /** The last piece of `s`'s split is that of `s[1..]` once the separator occurs in `s`. */
  lemma LastPieceOfRest(s: string, sep: char)
    requires s != [] && sep in s
    ensures var parts := Split(s, sep); var rest := Split(s[1..], sep);
      parts[|parts| - 1] == rest[|rest| - 1]
  {
    var rest := Split(s[1..], sep);
    if s[0] != sep {
      assert s == [s[0]] + s[1..];
      assert |rest| > 1;
      var parts := [[s[0]] + rest[0]] + rest[1..];
      assert Split(s, sep) == parts;
      assert parts[|parts| - 1] == rest[|rest| - 1];
    }
  }

  /** Without the separator the split is the whole string, alone. */
  lemma {:induction false} SplitWithoutSep(s: string, sep: char)
    requires sep !in s
    ensures Split(s, sep) == [s]
    decreases |s|
  {
    if s != [] {
      assert s == [s[0]] + s[1..];
      SplitWithoutSep(s[1..], sep);
    }
  }

  /** The last piece of the split is the longest tail without the separator. */
  lemma {:induction false} LastPieceIsLongestTailWithoutSep(s: string, sep: char)
    ensures var parts := Split(s, sep); IsLongestTailWithoutSep(s, sep, parts[|parts| - 1])
    decreases |s|
  {
    if sep !in s {
      SplitWithoutSep(s, sep);
    } else {
      var rest := Split(s[1..], sep);
      LastPieceIsLongestTailWithoutSep(s[1..], sep);
      LastPieceOfRest(s, sep);
      TailOfRestIsTail(s, sep, rest[|rest| - 1]);
    }
  }

  /** The last piece, `s.split(sep)[-1]`: the longest tail of `s` without the separator. */
  function LastPart(s: string, sep: char): (t: string)
    ensures IsLongestTailWithoutSep(s, sep, t)
  {
    LastPieceIsLongestTailWithoutSep(s, sep);
    var parts := Split(s, sep);
    parts[|parts| - 1]
  }

  /** Without a separator the last piece is the whole string. */
  lemma LastPartWithoutSep(s: string, sep: char)
    requires sep !in s
    ensures LastPart(s, sep) == s
  {
  }

  /** After a trailing separator the last piece is empty. */
  lemma LastPartAfterTrailingSep(s: string, sep: char)
    requires |s| > 0 && s[|s| - 1] == sep
    ensures LastPart(s, sep) == []
  {
  }
}
