/**
 * The Kotlin string operations the extension relies on, stated over
 * `string` (= `seq<char>`): `startsWith`, `endsWith`, `contains`,
 * `replace` with a fixed non-empty pattern, `split(c).first()`,
 * `split(c).last()` / `substringAfterLast(c)`, `substringBeforeLast(c)`
 * and `uppercase()` on ASCII letters.
 */
module Text {

  datatype Option<+T> = None | Some(value: T) {
    /** Kotlin's `?: default`. */
    function GetOr(default: T): T {
      match this
      case Some(v) => v
      case None => default
    }
  }

  predicate StartsWith(s: string, p: string) {
    |p| <= |s| && s[..|p|] == p
  }

  predicate EndsWith(s: string, p: string) {
    |p| <= |s| && s[|s| - |p|..] == p
  }

  /** A suffix of a suffix is a suffix. */
  lemma EndsWithTrans(s: string, t: string, u: string)
    requires EndsWith(s, t) && EndsWith(t, u)
    ensures EndsWith(s, u)
  {
    assert s[|s| - |u|..] == s[|s| - |t|..][|t| - |u|..];
  }

  /** Kotlin `s.contains(p)`: `p` starts at some position of `s`. */
  predicate Contains(s: string, p: string)
    decreases |s|
  {
    StartsWith(s, p) || (|s| > 0 && Contains(s[1..], p))
  }

  /** `p` occurs in `s` starting at position `i`. */
  predicate OccursAt(s: string, p: string, i: int) {
    0 <= i <= |s| - |p| && s[i..i + |p|] == p
  }

  /** `Contains` agrees with the positional reading of "occurs in". */
  lemma {:induction false} ContainsIffOccurs(s: string, p: string)
    ensures Contains(s, p) <==> exists i :: OccursAt(s, p, i)
    decreases |s|
  {
    if StartsWith(s, p) {
      assert OccursAt(s, p, 0);
    } else if |s| == 0 {
    } else {
      ContainsIffOccurs(s[1..], p);
      if Contains(s[1..], p) {
        var i :| OccursAt(s[1..], p, i);
        assert s[1..][i..i + |p|] == s[i + 1..i + 1 + |p|];
        assert OccursAt(s, p, i + 1);
      } else {
        forall i | 0 < i <= |s| - |p|
          ensures !OccursAt(s, p, i)
        {
          assert s[1..][i - 1..i - 1 + |p|] == s[i..i + |p|];
          assert !OccursAt(s[1..], p, i - 1);
        }
        if |p| <= |s| {
          assert s[..|p|] == s[0..0 + |p|];
        }
      }
    }
  }

  /** An occurrence survives text added on either side. */
  lemma ContainsInContext(a: string, s: string, b: string, p: string)
    requires Contains(s, p)
    ensures Contains(a + s + b, p)
  {
    ContainsIffOccurs(s, p);
    var i :| OccursAt(s, p, i);
    assert (a + s + b)[|a| + i..|a| + i + |p|] == s[i..i + |p|];
    assert OccursAt(a + s + b, p, |a| + i);
    ContainsIffOccurs(a + s + b, p);
  }

  /**
   * Kotlin `s.replace(pat, "")` for a non-empty `pat`: occurrences are
   * found left to right and removed without overlapping.
   */
  function RemoveAll(s: string, pat: string): (r: string)
    requires |pat| > 0
    ensures |r| <= |s|
    ensures !Contains(s, pat) ==> r == s
    ensures Contains(s, pat) ==> |r| <= |s| - |pat|
    decreases |s|
  {
    if |s| < |pat| then
      ContainsIffOccurs(s, pat);
      s
    else if s[..|pat|] == pat then RemoveAll(s[|pat|..], pat)
    else [s[0]] + RemoveAll(s[1..], pat)
  }

  /**
   * Removal goes left to right: when no occurrence of `pat` starts inside
   * `a`, the text `a` is kept and the occurrence right after it is dropped
   * before the rest is searched.
   */
  lemma {:induction false} RemoveAllAtFirst(a: string, pat: string, b: string)
    requires |pat| > 0
    requires forall i :: 0 <= i < |a| ==> !OccursAt(a + pat + b, pat, i)
    ensures RemoveAll(a + pat + b, pat) == a + RemoveAll(b, pat)
    decreases |a|
  {
    if a == [] {
      RemoveAllLeading(pat, b);
    } else {
      var s := a + pat + b;
      var t := a[1..] + pat + b;
      assert s[1..] == t;
      NoOccurrenceAfterHead(s, pat, |a| - 1);
      calc {
        RemoveAll(s, pat);
        { RemoveAllStep(s, pat); }
        [a[0]] + RemoveAll(t, pat);
        { RemoveAllAtFirst(a[1..], pat, b); }
        [a[0]] + (a[1..] + RemoveAll(b, pat));
        { assert [a[0]] + a[1..] == a; }
        a + RemoveAll(b, pat);
      }
    }
  }

  /** An occurrence at the front is dropped. */
  lemma RemoveAllLeading(pat: string, b: string)
    requires |pat| > 0
    ensures RemoveAll(pat + b, pat) == RemoveAll(b, pat)
  {
    assert (pat + b)[..|pat|] == pat && (pat + b)[|pat|..] == b;
  }

  /** A text without `pat` at its front keeps its first character. */
  lemma RemoveAllStep(s: string, pat: string)
    requires |pat| > 0 && |s| > 0 && !OccursAt(s, pat, 0)
    ensures RemoveAll(s, pat) == [s[0]] + RemoveAll(s[1..], pat)
  {
    if |s| >= |pat| {
      assert s[..|pat|] == s[0..0 + |pat|];
    }
  }

  /** Positions free of `pat` stay free, one to the left, once the head is dropped. */
  lemma NoOccurrenceAfterHead(s: string, pat: string, n: int)
    requires |s| > 0
    requires forall i :: 0 <= i < n + 1 ==> !OccursAt(s, pat, i)
    ensures forall i :: 0 <= i < n ==> !OccursAt(s[1..], pat, i)
  {
    forall i | 0 <= i < n
      ensures !OccursAt(s[1..], pat, i)
    {
      assert !OccursAt(s, pat, i + 1);
      if 0 <= i <= |s[1..]| - |pat| {
        assert s[1..][i..i + |pat|] == s[i + 1..i + 1 + |pat|];
      }
    }
  }

  /** A leading character that cannot start `pat` is kept untouched. */
  lemma RemoveAllKeepsHead(x: char, s: string, pat: string)
    requires |pat| > 0 && x != pat[0]
    ensures RemoveAll([x] + s, pat) == [x] + RemoveAll(s, pat)
  {
    assert ([x] + s)[1..] == s;
  }

  /** A prefix without the first character of `pat` is kept untouched. */
  lemma {:induction false} RemoveAllKeepsPrefix(p: string, s: string, pat: string)
    requires |pat| > 0 && pat[0] !in p
    ensures RemoveAll(p + s, pat) == p + RemoveAll(s, pat)
    decreases |p|
  {
    if p == [] {
      assert p + s == s;
    } else {
      calc {
        RemoveAll(p + s, pat);
        { assert p + s == [p[0]] + (p[1..] + s); }
        RemoveAll([p[0]] + (p[1..] + s), pat);
        { RemoveAllKeepsHead(p[0], p[1..] + s, pat); }
        [p[0]] + RemoveAll(p[1..] + s, pat);
        { RemoveAllKeepsPrefix(p[1..], s, pat); }
        [p[0]] + (p[1..] + RemoveAll(s, pat));
        { assert [p[0]] + p[1..] == p; }
        p + RemoveAll(s, pat);
      }
    }
  }

  /** Kotlin `s.split(c).first()`: the text before the first `c`, or all of `s`. */
  function BeforeFirst(s: string, c: char): (r: string)
    ensures StartsWith(s, r) && c !in r
    ensures |r| < |s| ==> s[|r|] == c
    decreases |s|
  {
    if s == [] then []
    else if s[0] == c then []
    else [s[0]] + BeforeFirst(s[1..], c)
  }

  /**
   * Kotlin `s.split(c).last()`, which is also `s.substringAfterLast(c)`:
   * the text after the last `c`, or all of `s` when `c` does not occur.
   */
  function AfterLast(s: string, c: char): (r: string)
    ensures EndsWith(s, r) && c !in r
    ensures |r| < |s| ==> s[|s| - |r| - 1] == c
    ensures c in s ==> |r| < |s|
    ensures c !in s ==> r == s
    decreases |s|
  {
    if s == [] then []
    else if s[|s| - 1] == c then []
    else
      assert c in s ==> c in s[..|s| - 1] by {
        assert s == s[..|s| - 1] + [s[|s| - 1]];
      }
      AfterLast(s[..|s| - 1], c) + [s[|s| - 1]]
  }

  /** Kotlin `s.substringBeforeLast(c)`: the text before the last `c`, or all of `s`. */
  function BeforeLast(s: string, c: char): (r: string)
    ensures c in s ==> r + [c] + AfterLast(s, c) == s
    ensures c !in s ==> r == s
  {
    if c !in s then s
    else
      var tail := AfterLast(s, c);
      s[..|s| - |tail| - 1]
  }

  /** The text after the last `c` is whatever follows a separating `c`. */
  lemma {:induction false} AfterLastOfJoin(a: string, c: char, b: string)
    requires c !in b
    ensures AfterLast(a + [c] + b, c) == b
    decreases |b|
  {
    if b == [] {
    } else {
      var init := b[..|b| - 1];
      assert a + [c] + b == (a + [c] + init) + [b[|b| - 1]];
      assert (a + [c] + b)[..|a + [c] + b| - 1] == a + [c] + init;
      AfterLastOfJoin(a, c, init);
      assert init + [b[|b| - 1]] == b;
    }
  }

  /** The text before the first `c` is whatever precedes a separating `c`. */
  lemma {:induction false} BeforeFirstOfJoin(a: string, c: char, b: string)
    requires c !in a
    ensures BeforeFirst(a + [c] + b, c) == a
    decreases |a|
  {
    if a == [] {
      assert (a + [c] + b)[0] == c;
    } else {
      assert (a + [c] + b)[1..] == a[1..] + [c] + b;
      BeforeFirstOfJoin(a[1..], c, b);
      assert [a[0]] + a[1..] == a;
    }
  }

  function UpperChar(c: char): char {
    if 'a' <= c <= 'z' then (c as int - 32) as char else c
  }

  /** Kotlin `uppercase()` restricted to ASCII letters; every other character is kept. */
  function Upper(s: string): (r: string)
    ensures |r| == |s|
    ensures forall i :: 0 <= i < |s| ==> r[i] == UpperChar(s[i])
  {
    if s == [] then [] else [UpperChar(s[0])] + Upper(s[1..])
  }
}
