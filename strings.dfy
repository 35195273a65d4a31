/**
 * The few JavaScript string operations the rendering core relies on:
 * `startsWith`, `endsWith`, `includes`, and `split(c).join(d)` on a
 * one-character separator (the form every path helper of the core uses).
 */
module Strings {

  /** `s.startsWith(prefix)` */
  predicate StartsWith(s: string, prefix: string) {
    |prefix| <= |s| && s[..|prefix|] == prefix
  }

  /** `s.endsWith(suffix)` */
  predicate EndsWith(s: string, suffix: string) {
    |suffix| <= |s| && s[|s| - |suffix|..] == suffix
  }

  /** `s.includes(part)` */
  predicate Contains(s: string, part: string)
    decreases |s|
  {
    StartsWith(s, part) || (|s| > 0 && Contains(s[1..], part))
  }

  /** `s.split(sep)` for a one-character separator, with JavaScript's
      conventions: the empty string splits into `[""]`, and a separator at
      either end yields an empty first or last piece. */
  function Split(s: string, sep: char): (parts: seq<string>)
    ensures |parts| >= 1
  {
    if |s| == 0 then [""]
    else
      var rest := Split(s[1..], sep);
      if s[0] == sep then [""] + rest
      else [[s[0]] + rest[0]] + rest[1..]
  }

  /** `parts.join(sep)` */
  function Join(parts: seq<string>, sep: string): string {
    if |parts| == 0 then ""
    else if |parts| == 1 then parts[0]
    else parts[0] + sep + Join(parts[1..], sep)
  }

  /** Character-wise replacement: the meaning of `s.split(from).join(to)`. */
  function Replace(s: string, from: char, to: char): (r: string)
    ensures |r| == |s|
    ensures forall i :: 0 <= i < |s| ==> r[i] == (if s[i] == from then to else s[i])
  {
    if |s| == 0 then "" else [if s[0] == from then to else s[0]] + Replace(s[1..], from, to)
  }

  /** No piece of a split contains the separator. */
  lemma {:induction false} SplitPiecesFree(s: string, sep: char)
    ensures forall k :: 0 <= k < |Split(s, sep)| ==> sep !in Split(s, sep)[k]
  {
    if |s| > 0 {
      SplitPiecesFree(s[1..], sep);
    }
  }

  /** Splitting on one character and joining with another replaces every
      occurrence of the first by the second and changes nothing else. */
  lemma {:induction false} SplitJoinIsReplace(s: string, from: char, to: char)
    ensures Join(Split(s, from), [to]) == Replace(s, from, to)
  {
    if |s| > 0 {
      var rest := Split(s[1..], from);
      SplitJoinIsReplace(s[1..], from, to);
      assert Join(rest, [to]) == Replace(s[1..], from, to);
      if s[0] == from {
        var parts := [""] + rest;
        assert parts[1..] == rest;
        assert Join(parts, [to]) == "" + [to] + Join(rest, [to]);
      } else {
        var parts := [[s[0]] + rest[0]] + rest[1..];
        if |rest| == 1 {
          assert parts == [[s[0]] + rest[0]];
          assert Join(rest, [to]) == rest[0];
        } else {
          assert parts[1..] == rest[1..];
          assert Join(rest, [to]) == rest[0] + [to] + Join(rest[1..], [to]);
          assert Join(parts, [to]) == ([s[0]] + rest[0]) + [to] + Join(rest[1..], [to]);
        }
      }
    }
  }

  /** After replacing `from` by a different character, no `from` is left. */
  lemma ReplaceRemoves(s: string, from: char, to: char)
    requires from != to
    ensures from !in Replace(s, from, to)
  {
  }

  /** Replacing a character by itself is the identity. */
  lemma ReplaceSelf(s: string, c: char)
    ensures Replace(s, c, c) == s
  {
  }

  /** Replacement is idempotent. */
  lemma ReplaceIdempotent(s: string, from: char, to: char)
    ensures Replace(Replace(s, from, to), from, to) == Replace(s, from, to)
  {
  }

  /** A string contains every piece it is assembled around. */
  lemma {:induction false} ContainsMiddle(a: string, b: string, c: string)
    ensures Contains(a + b + c, b)
    decreases |a|
  {
    if |a| == 0 {
      assert a + b + c == b + c;
      assert (b + c)[..|b|] == b;
    } else {
      assert (a + b + c)[1..] == a[1..] + b + c;
      ContainsMiddle(a[1..], b, c);
    }
  }

  /** The last piece of a split is the longest separator-free suffix: it
      ends the string, holds no separator, and is the whole string or is
      preceded by a separator. There are two or more pieces exactly when
      the separator occurs. */
  lemma SplitLast(s: string, sep: char)
    ensures var parts := Split(s, sep); var l := parts[|parts| - 1];
      EndsWith(s, l) && sep !in l && (|l| == |s| || s[|s| - |l| - 1] == sep)
    ensures |Split(s, sep)| >= 2 <==> sep in s
  {
    SplitCount(s, sep);
    SplitPiecesFree(s, sep);
    var i := SplitLastStart(s, sep);
    assert s[|s| - |s[i..]|..] == s[i..];
  }

  /** A split has two or more pieces exactly when the separator occurs. */
  lemma {:induction false} SplitCount(s: string, sep: char)
    ensures |Split(s, sep)| >= 2 <==> sep in s
  {
    if |s| > 0 {
      SplitCount(s[1..], sep);
      assert s == [s[0]] + s[1..];
      if s[0] != sep {
        assert sep in s <==> sep in s[1..];
      }
    }
  }

  /** The last piece of a split is the suffix from some `i` on, where `i`
      is the start of the string or follows a separator. */
  lemma {:induction false} SplitLastStart(s: string, sep: char) returns (i: nat)
    ensures i <= |s| && (i == 0 || s[i - 1] == sep)
    ensures var parts := Split(s, sep); parts[|parts| - 1] == s[i..]
  {
    if |s| == 0 {
      i := 0;
    } else {
      var rest := Split(s[1..], sep);
      var j := SplitLastStart(s[1..], sep);
      assert s[1..][j..] == s[j + 1..];
      if s[0] == sep {
        i := j + 1;
        if j > 0 {
          assert s[j] == s[1..][j - 1];
        }
      } else if |rest| >= 2 {
        i := j + 1;
        if j == 0 {
          SplitCount(s[1..], sep);
          SplitPiecesFree(s[1..], sep);
          assert false;
        }
        assert s[j] == s[1..][j - 1];
      } else {
        i := 0;
        if j > 0 {
          assert s[1..][j - 1] in s[1..];
          SplitCount(s[1..], sep);
          assert false;
        }
        assert [s[0]] + s[1..] == s;
      }
    }
  }
}
