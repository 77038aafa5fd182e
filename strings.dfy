/**
 * The JavaScript string operations the client relies on: `split` on a
 * one-character separator, `join`, substring tests, ASCII lower-casing and
 * character replacement.
 */
module Strings {

  /** The index of the first occurrence of `c` in `s`. */
  function IndexOf(s: string, c: char): (i: nat)
    requires c in s
    ensures i < |s| && s[i] == c && c !in s[..i]
  {
    if s[0] == c then 0 else 1 + IndexOf(s[1..], c)
  }

  /** `s.split(c)`: always at least one part, none containing `c`. */
  function Split(s: string, c: char): (parts: seq<string>)
    ensures |parts| >= 1
    ensures forall i :: 0 <= i < |parts| ==> c !in parts[i]
    decreases |s|
  {
    if c in s then
      var i := IndexOf(s, c);
      [s[..i]] + Split(s[i + 1..], c)
    else [s]
  }

  /** `parts.join(c)`. */
  function Join(parts: seq<string>, c: char): string
    requires |parts| >= 1
  {
    if |parts| == 1 then parts[0] else parts[0] + [c] + Join(parts[1..], c)
  }

  /** The first separator of `p + [c] + rest`, when `p` has none, is the one after `p`. */
  lemma {:induction false} IndexOfAfter(p: string, c: char, rest: string)
    requires c !in p
    ensures IndexOf(p + [c] + rest, c) == |p|
  {
    if p != [] {
      assert (p + [c] + rest)[1..] == p[1..] + [c] + rest;
      IndexOfAfter(p[1..], c, rest);
    }
  }

  /** Splitting a string whose first separator follows `p`. */
  lemma SplitAtFirst(p: string, c: char, rest: string)
    requires c !in p
    ensures Split(p + [c] + rest, c) == [p] + Split(rest, c)
  {
    var s := p + [c] + rest;
    IndexOfAfter(p, c, rest);
    assert s[..|p|] == p;
    assert s[|p| + 1..] == rest;
  }

  /** Joining the parts of a split gives the string back. */
  lemma {:induction false} JoinSplit(s: string, c: char)
    ensures Join(Split(s, c), c) == s
    decreases |s|
  {
    if c in s {
      var i := IndexOf(s, c);
      var parts := Split(s, c);
      assert parts == [s[..i]] + Split(s[i + 1..], c);
      assert parts[1..] == Split(s[i + 1..], c);
      JoinSplit(s[i + 1..], c);
      assert s == s[..i] + [c] + s[i + 1..];
    }
  }

  /** Past its first part, a split is the split of what follows the first
      separator. */
  lemma SplitTail(s: string, c: char, i: nat)
    requires 0 < i < |Split(s, c)|
    ensures c in s
    ensures i - 1 < |Split(s[IndexOf(s, c) + 1..], c)|
    ensures Split(s, c)[i..] == Split(s[IndexOf(s, c) + 1..], c)[i - 1..]
  {
    if c in s {
      var k := IndexOf(s, c);
      assert Split(s, c) == [s[..k]] + Split(s[k + 1..], c);
    }
  }

  /** The text after a separator at `k`, from its position `j` on, is the
      text of `s` from `k + 1 + j` on; a separator just before `j` (or the
      one at `k`) is the character before it in `s`. */
  lemma SuffixAfterSeparator(s: string, c: char, k: nat, j: nat)
    requires k < |s| && s[k] == c && j <= |s[k + 1..]|
    requires j == 0 || s[k + 1..][j - 1] == c
    ensures s[k + 1..][j..] == s[k + 1 + j..]
    ensures s[k + j] == c
  {
    if j > 0 {
      assert s[k + j] == s[k + 1..][j - 1];
    }
  }

  /** `t` is a suffix of `s` that starts at its beginning or right after a
      separator. */
  predicate SuffixAtPart(s: string, c: char, t: string) {
    exists p :: 0 <= p <= |s| && t == s[p..] && (p == 0 || s[p - 1] == c)
  }

  /** The parts from index `i` on, joined again, are a suffix of `s` that
      starts at its beginning or right after a separator. */
  lemma {:induction false} JoinedSuffix(s: string, c: char, i: nat)
    requires i < |Split(s, c)|
    ensures SuffixAtPart(s, c, Join(Split(s, c)[i..], c))
    decreases |s|
  {
    if i == 0 {
      JoinSplit(s, c);
      assert Split(s, c)[0..] == Split(s, c);
      assert s == s[0..];
    } else {
      SplitTail(s, c, i);
      var k := IndexOf(s, c);
      JoinedSuffix(s[k + 1..], c, i - 1);
      var j :| 0 <= j <= |s[k + 1..]| && Join(Split(s[k + 1..], c)[i - 1..], c) == s[k + 1..][j..] &&
               (j == 0 || s[k + 1..][j - 1] == c);
      SuffixAfterSeparator(s, c, k, j);
    }
  }

  predicate IsDigit(c: char) {
    '0' <= c <= '9'
  }

  predicate IsPrefix(t: string, s: string) {
    |t| <= |s| && s[..|t|] == t
  }

  /** `s.includes(t)` / a regular expression that is a plain literal `t`. */
  predicate Contains(s: string, t: string)
    decreases |s|
  {
    IsPrefix(t, s) || (|s| > 0 && Contains(s[1..], t))
  }

  /** `t` occurs in `s` at position `i`. */
  predicate OccursAt(s: string, t: string, i: int) {
    0 <= i <= |s| - |t| && s[i..i + |t|] == t
  }

  /** `Contains` finds exactly the literal occurrences of `t`. */
  lemma {:induction false} ContainsOccurrence(s: string, t: string)
    ensures Contains(s, t) <==> exists i :: OccursAt(s, t, i)
    decreases |s|
  {
    if IsPrefix(t, s) {
      assert OccursAt(s, t, 0);
    }
    if |s| > 0 {
      ContainsOccurrence(s[1..], t);
      if Contains(s[1..], t) {
        var i :| OccursAt(s[1..], t, i);
        assert s[i + 1..i + 1 + |t|] == s[1..][i..i + |t|];
        assert OccursAt(s, t, i + 1);
      }
      if exists i :: OccursAt(s, t, i) {
        var i :| OccursAt(s, t, i);
        if i > 0 {
          assert s[1..][i - 1..i - 1 + |t|] == s[i..i + |t|];
          assert OccursAt(s[1..], t, i - 1);
        }
      }
    }
  }

  function LowerChar(c: char): char {
    if 'A' <= c <= 'Z' then (c as int + 32) as char else c
  }

  /** `s.toLowerCase()`, on ASCII letters. */
  function ToLower(s: string): (r: string)
    ensures |r| == |s|
    ensures forall i :: 0 <= i < |s| ==> r[i] == LowerChar(s[i])
  {
    if s == [] then [] else [LowerChar(s[0])] + ToLower(s[1..])
  }

  /** A case-insensitive literal match (a regular expression with the `i` flag). */
  predicate ContainsIgnoringCase(s: string, t: string) {
    Contains(ToLower(s), ToLower(t))
  }

  /** `s.replace(/a/g, b)` for single characters `a` and `b`. */
  function ReplaceAll(s: string, a: char, b: char): (r: string)
    ensures |r| == |s|
    ensures forall i :: 0 <= i < |s| ==> r[i] == (if s[i] == a then b else s[i])
  {
    if s == [] then [] else [if s[0] == a then b else s[0]] + ReplaceAll(s[1..], a, b)
  }
}
