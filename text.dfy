/**
 * The two Python string operations the KPI detector relies on: `str.lower`
 * (modelled on ASCII letters) and the substring test `k in s`.
 */
module Text {

  predicate IsUpper(c: char) {
    'A' <= c <= 'Z'
  }

  /** Lower-cases one ASCII letter and leaves every other character alone. */
  function LowerChar(c: char): char {
    if IsUpper(c) then (c as int - 'A' as int + 'a' as int) as char else c
  }

  /** `s.lower()` on ASCII: the same length, every letter lower-cased in place. */
  function Lower(s: string): (r: string)
    ensures |r| == |s|
    ensures forall i :: 0 <= i < |r| ==> !IsUpper(r[i])
    ensures forall i :: 0 <= i < |s| && !IsUpper(s[i]) ==> r[i] == s[i]
    ensures forall i :: 0 <= i < |s| && IsUpper(s[i]) ==> r[i] as int == s[i] as int + 32
  {
    seq(|s|, i requires 0 <= i < |s| => LowerChar(s[i]))
  }

  /** Lower-casing twice is lower-casing once. */
  lemma LowerIdempotent(s: string)
    ensures Lower(Lower(s)) == Lower(s)
  {
    var r := Lower(s);
    assert forall i :: 0 <= i < |r| ==> Lower(r)[i] == r[i];
  }

  /** `k` occurs in `s` starting at position `i`. */
  ghost predicate OccursAt(s: string, k: string, i: int) {
    0 <= i && i + |k| <= |s| && s[i..i + |k|] == k
  }

  /** Python's `k in s` for two strings: scan `s` from the left for `k`. */
  function Contains(s: string, k: string): bool
    decreases |s|
  {
    if |k| > |s| then false
    else if s[..|k|] == k then true
    else Contains(s[1..], k)
  }

  lemma OccursAtTail(s: string, k: string, i: int)
    requires |s| > 0 && 0 <= i
    ensures OccursAt(s[1..], k, i) <==> OccursAt(s, k, i + 1)
  {
    if 0 <= i && i + |k| <= |s| - 1 {
      assert s[1..][i..i + |k|] == s[i + 1..i + 1 + |k|];
    }
  }

  /** The scan finds `k` exactly when `k` occurs somewhere in `s`. */
  lemma {:induction false} ContainsIff(s: string, k: string)
    ensures Contains(s, k) <==> exists i :: OccursAt(s, k, i)
    decreases |s|
  {
    if |k| > |s| {
    } else if s[..|k|] == k {
      assert OccursAt(s, k, 0);
    } else {
      assert !OccursAt(s, k, 0);
      ContainsIff(s[1..], k);
      if Contains(s, k) {
        var i :| OccursAt(s[1..], k, i);
        OccursAtTail(s, k, i);
      }
      if exists i :: OccursAt(s, k, i) {
        var i :| OccursAt(s, k, i);
        assert i != 0;
        OccursAtTail(s, k, i - 1);
      }
    }
  }

  /** `k` occurs in `a + k + b` right after `a`. */
  lemma OccursBetween(a: string, k: string, b: string)
    ensures OccursAt(a + k + b, k, |a|)
  {
    assert (a + k + b)[|a|..|a| + |k|] == k;
  }

  /** An occurrence in `a` is still there once `b` is appended. */
  lemma OccursInLeft(a: string, b: string, k: string, i: int)
    requires OccursAt(a, k, i)
    ensures OccursAt(a + b, k, i)
  {
    assert (a + b)[i..i + |k|] == a[i..i + |k|];
  }

  /** An occurrence in `b` moves right by `|a|` once `a` is prepended. */
  lemma OccursInRight(a: string, b: string, k: string, i: int)
    requires OccursAt(b, k, i)
    ensures OccursAt(a + b, k, |a| + i)
  {
    assert (a + b)[|a| + i..|a| + i + |k|] == b[i..i + |k|];
  }
}
