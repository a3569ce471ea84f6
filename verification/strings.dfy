/** Small string helpers shared by the model: .NET String.Replace and indentation repeats. */
module Strings {

  /** `p` occurs in `t` starting at position `i`. */
  predicate OccursAt(t: string, p: string, i: int)
  {
    0 <= i && i + |p| <= |t| && t[i..i + |p|] == p
  }

  /** `p` occurs somewhere in `t`. */
  predicate Contains(t: string, p: string)
  {
    exists i :: 0 <= i <= |t| && OccursAt(t, p, i)
  }

  /** `t` ends with `p`. */
  predicate EndsWith(t: string, p: string)
  {
    |p| <= |t| && t[|t| - |p|..] == p
  }

  /**
   * String.Replace(oldValue, newValue) with ordinal comparison: the text is
   * scanned left to right and every non-overlapping occurrence of `p` is
   * replaced by `r`.  The source never passes an empty `p` (the .NET call
   * would throw).
   */
  function Replace(s: string, p: string, r: string): (res: string)
    requires |p| > 0
    decreases |s|
  {
    if |s| < |p| then s
    else if s[..|p|] == p then r + Replace(s[|p|..], p, r)
    else [s[0]] + Replace(s[1..], p, r)
  }

  /** Text without an occurrence of the pattern comes back unchanged. */
  lemma {:induction false} ReplaceAbsent(s: string, p: string, r: string)
    requires |p| > 0
    requires !Contains(s, p)
    ensures Replace(s, p, r) == s
    decreases |s|
  {
    if |s| >= |p| {
      assert !OccursAt(s, p, 0);
      assert s[..|p|] != p;
      forall i | OccursAt(s[1..], p, i)
        ensures false
      {
        assert s[1..][i..i + |p|] == s[i + 1..i + 1 + |p|];
        assert OccursAt(s, p, i + 1);
      }
      ReplaceAbsent(s[1..], p, r);
    }
  }

  /** Replace never introduces a character that neither the text nor the replacement holds. */
  lemma {:induction false} ReplaceKeepsCharOut(s: string, p: string, r: string, c: char)
    requires |p| > 0
    requires c !in s && c !in r
    ensures c !in Replace(s, p, r)
    decreases |s|
  {
    if |s| >= |p| {
      if s[..|p|] == p {
        assert forall k :: 0 <= k < |s[|p|..]| ==> s[|p|..][k] == s[|p| + k];
        ReplaceKeepsCharOut(s[|p|..], p, r, c);
      } else {
        assert forall k :: 0 <= k < |s[1..]| ==> s[1..][k] == s[1 + k];
        ReplaceKeepsCharOut(s[1..], p, r, c);
      }
    }
  }

  /** Replacing a single character works character by character, so it distributes over concatenation. */
  lemma {:induction false} ReplaceCharConcat(a: string, b: string, c: char, r: string)
    ensures Replace(a + b, [c], r) == Replace(a, [c], r) + Replace(b, [c], r)
    decreases |a|
  {
    if a != [] {
      assert (a + b)[..1] == a[..1] == [a[0]];
      assert (a + b)[1..] == a[1..] + b;
      ReplaceCharConcat(a[1..], b, c, r);
      if a[0] == c {
        calc {
          Replace(a + b, [c], r);
          r + Replace(a[1..] + b, [c], r);
          r + Replace(a[1..], [c], r) + Replace(b, [c], r);
          Replace(a, [c], r) + Replace(b, [c], r);
        }
      } else {
        calc {
          Replace(a + b, [c], r);
          [a[0]] + Replace(a[1..] + b, [c], r);
          [a[0]] + Replace(a[1..], [c], r) + Replace(b, [c], r);
          Replace(a, [c], r) + Replace(b, [c], r);
        }
      }
    } else {
      assert a + b == b;
    }
  }

  /** Replacing a single character in a one-character string. */
  lemma ReplaceCharSingle(x: char, c: char, r: string)
    ensures Replace([x], [c], r) == if x == c then r else [x]
  {
    assert [x][..1] == [x];
    assert [x][1..] == [];
  }

  /** Replacing a character that does not occur changes nothing. */
  lemma {:induction false} ReplaceCharAbsent(s: string, c: char, r: string)
    requires c !in s
    ensures Replace(s, [c], r) == s
    decreases |s|
  {
    if s != [] {
      assert s == [s[0]] + s[1..];
      ReplaceCharConcat([s[0]], s[1..], c, r);
      ReplaceCharSingle(s[0], c, r);
      ReplaceCharAbsent(s[1..], c, r);
    }
  }

  /** Environment.NewLine: a line feed, or carriage return and line feed. */
  type PlatformNewLine = s: string | s == "\n" || s == "\r\n" witness "\n"

  /** Text without a line feed holds no platform newline. */
  lemma NoLineFeedNoNewLine(s: string, nl: PlatformNewLine)
    requires '\n' !in s
    ensures !Contains(s, nl)
  {
    forall i | 0 <= i <= |s|
      ensures !OccursAt(s, nl, i)
    {
      if i + |nl| <= |s| {
        assert s[i + |nl| - 1] != '\n';
        assert s[i..i + |nl|][|nl| - 1] == s[i + |nl| - 1];
      }
    }
  }

  /**
   * The position of the leftmost occurrence of `p` in `t`, or -1; this is
   * where Replace makes its first substitution.
   */
  function FirstIndex(t: string, p: string): (k: int)
    requires |p| > 0
    ensures -1 <= k
    ensures k >= 0 ==> k + |p| <= |t|
    decreases |t|
  {
    if |t| < |p| then -1
    else if t[..|p|] == p then 0
    else
      var k := FirstIndex(t[1..], p);
      if k < 0 then -1 else k + 1
  }

  /** The leftmost occurrence is an occurrence, and no earlier position holds one. */
  lemma {:induction false} FirstIndexIsLeftmost(t: string, p: string)
    requires |p| > 0
    ensures FirstIndex(t, p) >= 0 ==> OccursAt(t, p, FirstIndex(t, p))
    ensures forall i :: 0 <= i && (FirstIndex(t, p) < 0 || i < FirstIndex(t, p)) ==> !OccursAt(t, p, i)
    decreases |t|
  {
    if |t| >= |p| && t[..|p|] != p {
      FirstIndexIsLeftmost(t[1..], p);
      forall i | 1 <= i
        ensures OccursAt(t, p, i) == OccursAt(t[1..], p, i - 1)
      {
        OccursInTail(t, p, i - 1);
      }
    }
  }

  /** Occurrences in the tail of a text are the occurrences one position further on. */
  lemma OccursInTail(t: string, p: string, i: int)
    requires |t| > 0 && 0 <= i
    ensures OccursAt(t[1..], p, i) == OccursAt(t, p, i + 1)
  {
    if i + |p| <= |t| - 1 {
      assert t[1..][i..i + |p|] == t[i + 1..i + 1 + |p|];
    }
  }

  /** Replace copies the text unchanged up to position `j` when no occurrence starts before `j`. */
  lemma {:induction false} ReplaceUpTo(s: string, p: string, r: string, j: int)
    requires |p| > 0 && 0 <= j <= |s|
    requires forall i :: 0 <= i < j ==> !OccursAt(s, p, i)
    ensures Replace(s, p, r) == s[..j] + Replace(s[j..], p, r)
    decreases j
  {
    if j == 0 {
      assert s[..0] == [] && s[0..] == s;
    } else {
      ReplaceUpTo(s, p, r, j - 1);
      ReplaceMissAt(s, p, r, j - 1);
      assert s[..j] == s[..j - 1] + [s[j - 1]];
      AppendAssoc(s[..j - 1], [s[j - 1]], Replace(s[j..], p, r));
    }
  }

  /** A position without an occurrence is copied as it is. */
  lemma ReplaceMissAt(s: string, p: string, r: string, i: int)
    requires |p| > 0 && 0 <= i < |s| && !OccursAt(s, p, i)
    ensures Replace(s[i..], p, r) == [s[i]] + Replace(s[i + 1..], p, r)
  {
    var u := s[i..];
    assert u[1..] == s[i + 1..];
    if |u| >= |p| {
      assert u[..|p|] == s[i..i + |p|];
    } else {
      ReplaceShort(u, p, r);
      ReplaceShort(u[1..], p, r);
      assert u == [u[0]] + u[1..];
    }
  }

  /** Text shorter than the pattern is left alone. */
  lemma ReplaceShort(u: string, p: string, r: string)
    requires |p| > 0 && |u| < |p|
    ensures Replace(u, p, r) == u
  {
  }

  /** A position holding an occurrence with none before it is the leftmost occurrence. */
  lemma FirstIndexUnique(t: string, p: string, m: int)
    requires |p| > 0 && OccursAt(t, p, m)
    requires forall i :: 0 <= i < m ==> !OccursAt(t, p, i)
    ensures FirstIndex(t, p) == m
  {
    FirstIndexIsLeftmost(t, p);
  }

  /**
   * Appending the pattern to text that does not hold it puts the leftmost
   * occurrence at the join, provided no occurrence straddles the join.
   */
  lemma FirstIndexAtJoin(d: string, p: string)
    requires |p| > 0 && FirstIndex(d, p) < 0
    requires forall i :: 0 <= i < |d| < i + |p| ==> !OccursAt(d + p, p, i)
    ensures FirstIndex(d + p, p) == |d|
  {
    FirstIndexIsLeftmost(d, p);
    var b := d + p;
    forall i | 0 <= i < |d| && i + |p| <= |d|
      ensures !OccursAt(b, p, i)
    {
      assert !OccursAt(d, p, i);
      SliceOfPrefix(d, p, i, i + |p|);
    }
    assert b[|d|..|d| + |p|] == p;
    FirstIndexUnique(b, p, |d|);
  }

  /** A slice inside the first part of a concatenation. */
  lemma SliceOfPrefix(d: string, x: string, i: int, j: int)
    requires 0 <= i <= j <= |d|
    ensures (d + x)[i..j] == d[i..j]
  {
  }

  /** Text splits around an occurrence of the pattern. */
  lemma SplitAtOccurrence(d: string, p: string, m: int)
    requires OccursAt(d, p, m)
    ensures d == d[..m] + (p + d[m + |p|..])
  {
    assert d == d[..m] + d[m..m + |p|] + d[m + |p|..];
  }

  /** The outer parts of a three-part concatenation. */
  lemma SlicesOfJoin(a: string, c: string, x: string)
    ensures (a + c + x)[..|a|] == a && (a + c + x)[|a| + |c|..] == x
  {
  }

  /** Without a leftmost occurrence there is nothing to replace. */
  lemma ReplaceWithoutMatch(s: string, p: string, r: string)
    requires |p| > 0 && FirstIndex(s, p) < 0
    ensures Replace(s, p, r) == s
  {
    FirstIndexIsLeftmost(s, p);
    ReplaceUpTo(s, p, r, |s|);
    assert s[..|s|] == s;
  }

  /** Replace splits the text at its leftmost occurrence of the pattern. */
  lemma ReplaceAtLeftmost(s: string, p: string, r: string, m: int)
    requires |p| > 0 && OccursAt(s, p, m)
    requires forall i :: 0 <= i < m ==> !OccursAt(s, p, i)
    ensures Replace(s, p, r) == s[..m] + r + Replace(s[m + |p|..], p, r)
  {
    ReplaceUpTo(s, p, r, m);
    ReplaceHitAt(s, p, r, m);
    AppendAssoc(s[..m], r, Replace(s[m + |p|..], p, r));
  }

  /** An occurrence at `m` is replaced as soon as Replace reaches it. */
  lemma ReplaceHitAt(s: string, p: string, r: string, m: int)
    requires |p| > 0 && OccursAt(s, p, m)
    ensures Replace(s[m..], p, r) == r + Replace(s[m + |p|..], p, r)
  {
    var u := s[m..];
    assert u[..|p|] == s[m..m + |p|];
    assert u[|p|..] == s[m + |p|..];
    ReplaceHit(u, p, r);
  }

  lemma AppendAssoc(a: string, b: string, c: string)
    ensures a + (b + c) == a + b + c
  {
  }

  /** An occurrence at the very start is replaced at once. */
  lemma ReplaceHit(u: string, p: string, r: string)
    requires |p| > 0 && |u| >= |p| && u[..|p|] == p
    ensures Replace(u, p, r) == r + Replace(u[|p|..], p, r)
  {
  }

  /** The leftmost occurrence inside a prefix stays leftmost whatever follows. */
  lemma {:induction false} FirstIndexExtend(a: string, x: string, p: string)
    requires |p| > 0 && FirstIndex(a, p) >= 0
    ensures FirstIndex(a + x, p) == FirstIndex(a, p)
    decreases |a|
  {
    assert (a + x)[..|p|] == a[..|p|];
    if a[..|p|] != p {
      assert (a + x)[1..] == a[1..] + x;
      FirstIndexExtend(a[1..], x, p);
    }
  }

  /** `t` repeated `n` times; a count of zero or less gives the empty string. */
  function Repeat(t: string, n: int): (r: string)
    ensures |r| == if n <= 0 then 0 else n * |t|
  {
    if n <= 0 then "" else Repeat(t, n - 1) + t
  }
}
