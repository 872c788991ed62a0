/**
 * Ordinal, left-to-right, non-overlapping replacement of every occurrence of a
 * pattern, as .NET's String.Replace(string, string) performs it. The notifier uses
 * it twice: to turn the Atom 0.3 namespaced feed root into a bare root and to turn
 * the hour "T24:" of an entry's timestamp into "T00:".
 */
module Text {

  /** pat occurs in s starting at position k. */
  ghost predicate OccursAt(s: string, pat: string, k: nat) {
    k + |pat| <= |s| && s[k..k + |pat|] == pat
  }

  ghost predicate Contains(s: string, pat: string) {
    exists k: nat :: OccursAt(s, pat, k)
  }

  /** Every character of s differs from c. */
  ghost predicate Lacks(s: string, c: char) {
    forall i :: 0 <= i < |s| ==> s[i] != c
  }

  /**
   * A pattern/replacement pair whose replacement cannot create a fresh occurrence:
   * both start with the same character, that character appears nowhere else in
   * either, and the replacement departs from the pattern within their common length.
   */
  ghost predicate Separated(pat: string, rep: string) {
    && pat != [] && rep != [] && rep[0] == pat[0]
    && Lacks(pat[1..], pat[0])
    && Lacks(rep[1..], pat[0])
    && exists i :: 0 < i < |rep| && i < |pat| && rep[i] != pat[i]
  }

  function ReplaceAll(s: string, pat: string, rep: string): string
    requires pat != []
    decreases |s|
  {
    if |s| < |pat| then s
    else if s[..|pat|] == pat then rep + ReplaceAll(s[|pat|..], pat, rep)
    else [s[0]] + ReplaceAll(s[1..], pat, rep)
  }

  /** A string holding no occurrence of the pattern comes back unchanged. */
  lemma {:induction false} ReplaceAllIdentity(s: string, pat: string, rep: string)
    requires pat != []
    ensures !Contains(s, pat) ==> ReplaceAll(s, pat, rep) == s
    decreases |s|
  {
    if !Contains(s, pat) && |s| >= |pat| {
      assert !OccursAt(s, pat, 0);
      forall k: nat | OccursAt(s[1..], pat, k) ensures OccursAt(s, pat, k + 1) {
        assert s[k + 1..k + 1 + |pat|] == s[1..][k..k + |pat|];
      }
      ReplaceAllIdentity(s[1..], pat, rep);
    }
  }

  /** A leading occurrence is replaced and scanning resumes after it. */
  lemma ReplaceAllAtPattern(pat: string, rep: string, rest: string)
    requires pat != []
    ensures ReplaceAll(pat + rest, pat, rep) == rep + ReplaceAll(rest, pat, rep)
  {
  }

  /**
   * An occurrence that follows any prefix is replaced, provided the pattern's first
   * character does not recur inside it: the prefix and the text after the occurrence
   * are rewritten on their own.
   */
  lemma {:induction false} ReplaceAllAround(pre: string, pat: string, rep: string, body: string)
    requires pat != [] && Lacks(pat[1..], pat[0])
    ensures ReplaceAll(pre + pat + body, pat, rep) == ReplaceAll(pre, pat, rep) + rep + ReplaceAll(body, pat, rep)
    decreases |pre|, 1
  {
    if pre == [] {
      assert pre + pat + body == pat + body;
      ReplaceAllAtPattern(pat, rep, body);
    } else if |pat| <= |pre| && pre[..|pat|] == pat {
      AroundReplaces(pre, pat, rep, body);
    } else {
      AroundCopies(pre, pat, rep, body);
    }
  }

  /** The case of ReplaceAllAround where pre does not open with the pattern. */
  lemma {:induction false} AroundCopies(pre: string, pat: string, rep: string, body: string)
    requires pat != [] && Lacks(pat[1..], pat[0])
    requires pre != [] && !(|pat| <= |pre| && pre[..|pat|] == pat)
    ensures ReplaceAll(pre + pat + body, pat, rep) == ReplaceAll(pre, pat, rep) + rep + ReplaceAll(body, pat, rep)
    decreases |pre|, 0
  {
    var rest := pre[1..];
    var x, y := ReplaceAll(rest, pat, rep), ReplaceAll(body, pat, rep);
    calc {
      ReplaceAll(pre + pat + body, pat, rep);
      { PrefixCopied(pre, pat, rep, body); }
      [pre[0]] + ReplaceAll(rest + pat + body, pat, rep);
      { ReplaceAllAround(rest, pat, rep, body); }
      [pre[0]] + (x + rep + y);
      ([pre[0]] + x) + rep + y;
      { PrefixCopied(pre, pat, rep, body); }
      ReplaceAll(pre, pat, rep) + rep + y;
    }
  }

  /** A prefix that does not open with the pattern has its first character copied through. */
  lemma PrefixCopied(pre: string, pat: string, rep: string, body: string)
    requires pat != [] && Lacks(pat[1..], pat[0])
    requires pre != [] && !(|pat| <= |pre| && pre[..|pat|] == pat)
    ensures ReplaceAll(pre + pat + body, pat, rep) == [pre[0]] + ReplaceAll(pre[1..] + pat + body, pat, rep)
    ensures ReplaceAll(pre, pat, rep) == [pre[0]] + ReplaceAll(pre[1..], pat, rep)
  {
    if |pre| < |pat| {
      ShortPrefixCopied(pre, pat, rep, body);
    } else {
      LongPrefixCopied(pre, pat, rep, body);
    }
  }

  /** A prefix shorter than the pattern cannot open an occurrence that runs into pat. */
  lemma ShortPrefixCopied(pre: string, pat: string, rep: string, body: string)
    requires pat != [] && Lacks(pat[1..], pat[0])
    requires 0 < |pre| < |pat|
    ensures ReplaceAll(pre + pat + body, pat, rep) == [pre[0]] + ReplaceAll(pre[1..] + pat + body, pat, rep)
    ensures ReplaceAll(pre, pat, rep) == [pre[0]] + ReplaceAll(pre[1..], pat, rep)
  {
    var s := pre + pat + body;
    assert s[1..] == pre[1..] + pat + body;
    assert s[..|pat|][|pre|] != pat[|pre|] by {
      assert s[|pre|] == pat[0];
      assert pat[1..][|pre| - 1] == pat[|pre|];
    }
    assert ReplaceAll(pre[1..], pat, rep) == pre[1..];
    assert pre == [pre[0]] + pre[1..];
  }

  /** A prefix at least as long as the pattern, not opening with it, copies its first character. */
  lemma LongPrefixCopied(pre: string, pat: string, rep: string, body: string)
    requires pat != [] && |pat| <= |pre| && pre[..|pat|] != pat
    ensures ReplaceAll(pre + pat + body, pat, rep) == [pre[0]] + ReplaceAll(pre[1..] + pat + body, pat, rep)
    ensures ReplaceAll(pre, pat, rep) == [pre[0]] + ReplaceAll(pre[1..], pat, rep)
  {
    var s := pre + pat + body;
    assert s[1..] == pre[1..] + pat + body;
    assert s[..|pat|] == pre[..|pat|];
  }

  /** The case of ReplaceAllAround where pre opens with the pattern. */
  lemma {:induction false} AroundReplaces(pre: string, pat: string, rep: string, body: string)
    requires pat != [] && Lacks(pat[1..], pat[0])
    requires |pat| <= |pre| && pre[..|pat|] == pat
    ensures ReplaceAll(pre + pat + body, pat, rep) == ReplaceAll(pre, pat, rep) + rep + ReplaceAll(body, pat, rep)
    decreases |pre|, 0
  {
    var s := pre + pat + body;
    var rest := pre[|pat|..];
    assert s[..|pat|] == pre[..|pat|];
    assert s[|pat|..] == rest + pat + body;
    assert ReplaceAll(s, pat, rep) == rep + ReplaceAll(rest + pat + body, pat, rep);
    assert ReplaceAll(pre, pat, rep) == rep + ReplaceAll(rest, pat, rep);
    ReplaceAllAround(rest, pat, rep, body);
  }

  /** A prefix free of the pattern's first character is copied through untouched. */
  lemma {:induction false} ReplaceAllSkips(d: string, rest: string, pat: string, rep: string)
    requires pat != []
    requires Lacks(d, pat[0])
    ensures ReplaceAll(d + rest, pat, rep) == d + ReplaceAll(rest, pat, rep)
    decreases |d|
  {
    if d != [] {
      var s := d + rest;
      assert s[0] == d[0] && s[1..] == d[1..] + rest;
      if |s| < |pat| {
        assert ReplaceAll(rest, pat, rep) == rest;
      } else {
        assert s[..|pat|][0] != pat[0];
        ReplaceAllSkips(d[1..], rest, pat, rep);
        calc {
          ReplaceAll(s, pat, rep);
          [d[0]] + ReplaceAll(d[1..] + rest, pat, rep);
          [d[0]] + (d[1..] + ReplaceAll(rest, pat, rep));
          { assert d == [d[0]] + d[1..]; }
          d + ReplaceAll(rest, pat, rep);
        }
      }
    } else {
      assert d + rest == rest;
    }
  }

  /** When the replacement keeps the pattern's length, so does the whole result. */
  lemma {:induction false} ReplaceAllKeepsLength(s: string, pat: string, rep: string)
    requires pat != [] && |rep| == |pat|
    ensures |ReplaceAll(s, pat, rep)| == |s|
    decreases |s|
  {
    if |s| >= |pat| {
      if s[..|pat|] == pat {
        ReplaceAllKeepsLength(s[|pat|..], pat, rep);
      } else {
        ReplaceAllKeepsLength(s[1..], pat, rep);
      }
    }
  }

  /**
   * If the result starts with w, and w never uses the pattern's first character,
   * the input started with w already.
   */
  lemma {:induction false} PrefixSurvives(t: string, pat: string, rep: string, w: string)
    requires Separated(pat, rep)
    requires Lacks(w, pat[0])
    ensures w <= ReplaceAll(t, pat, rep) ==> w <= t
    decreases |t|
  {
    if w == [] || |t| < |pat| {
    } else if t[..|pat|] == pat {
      assert ReplaceAll(t, pat, rep) == rep + ReplaceAll(t[|pat|..], pat, rep);
      assert ReplaceAll(t, pat, rep)[0] == pat[0] != w[0];
    } else {
      var r' := ReplaceAll(t[1..], pat, rep);
      assert ReplaceAll(t, pat, rep) == [t[0]] + r';
      PrefixSurvives(t[1..], pat, rep, w[1..]);
      assert w == [w[0]] + w[1..];
      assert t == [t[0]] + t[1..];
    }
  }

  /** After replacement of a separated pair, no occurrence of the pattern is left. */
  lemma {:induction false} ReplaceAllRemoves(s: string, pat: string, rep: string)
    requires Separated(pat, rep)
    ensures !Contains(ReplaceAll(s, pat, rep), pat)
    decreases |s|
  {
    var r := ReplaceAll(s, pat, rep);
    if |s| < |pat| {
      assert forall k: nat :: !OccursAt(r, pat, k);
    } else if s[..|pat|] == pat {
      var tail := s[|pat|..];
      ReplaceAllRemoves(tail, pat, rep);
      var r' := ReplaceAll(tail, pat, rep);
      assert r == rep + r';
      var i :| 0 < i < |rep| && i < |pat| && rep[i] != pat[i];
      forall k: nat ensures !OccursAt(r, pat, k) {
        if k == 0 {
          assert k + |pat| <= |r| ==> r[k..k + |pat|][i] != pat[i];
        } else if k < |rep| {
          assert rep[1..][k - 1] == rep[k];
          assert k + |pat| <= |r| ==> r[k..k + |pat|][0] != pat[0];
        } else {
          assert !OccursAt(r', pat, k - |rep|);
          assert k + |pat| <= |r| ==> r[k..k + |pat|] == r'[k - |rep|..k - |rep| + |pat|];
        }
      }
    } else {
      var tail := s[1..];
      ReplaceAllRemoves(tail, pat, rep);
      var r' := ReplaceAll(tail, pat, rep);
      assert r == [s[0]] + r';
      PrefixSurvives(tail, pat, rep, pat[1..]);
      forall k: nat ensures !OccursAt(r, pat, k) {
        if k == 0 && s[0] != pat[0] {
          assert |pat| <= |r| ==> r[..|pat|][0] != pat[0];
        } else if k == 0 {
          assert tail[..|pat| - 1] != pat[1..] by {
            assert s[..|pat|] == [s[0]] + tail[..|pat| - 1];
          }
          assert !(pat[1..] <= tail);
          assert !(pat <= r) by {
            assert pat == [pat[0]] + pat[1..];
          }
        } else {
          assert !OccursAt(r', pat, k - 1);
          assert k + |pat| <= |r| ==> r[k..k + |pat|] == r'[k - 1..k - 1 + |pat|];
        }
      }
    }
  }

  /** Replacing a separated pair twice is the same as replacing it once. */
  lemma ReplaceAllIdempotent(s: string, pat: string, rep: string)
    requires Separated(pat, rep)
    ensures ReplaceAll(ReplaceAll(s, pat, rep), pat, rep) == ReplaceAll(s, pat, rep)
  {
    ReplaceAllRemoves(s, pat, rep);
    ReplaceAllIdentity(ReplaceAll(s, pat, rep), pat, rep);
  }
}
