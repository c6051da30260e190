/** Substring search, the meaning of Python's `p in s` on two strings. */
module Substrings {

  /** `p` occurs in `s` starting at position `i`. */
  predicate OccursAt(s: string, p: string, i: nat)
  {
    i + |p| <= |s| && s[i..i + |p|] == p
  }

  lemma OccursAtTail(s: string, p: string, i: nat)
    requires 0 < |s|
    ensures OccursAt(s, p, i + 1) <==> OccursAt(s[1..], p, i)
  {
  }

  /** Left-to-right search: true exactly when `p` occurs somewhere in `s`. */
  function Contains(s: string, p: string): (r: bool)
    ensures r <==> exists i: nat :: OccursAt(s, p, i)
    decreases |s|
  {
    if |p| > |s| then
      assert forall i: nat :: !OccursAt(s, p, i);
      false
    else if s[..|p|] == p then
      assert OccursAt(s, p, 0);
      true
    else
      var r := Contains(s[1..], p);
      assert r ==> exists i: nat :: OccursAt(s, p, i) by {
        if r {
          var j: nat :| OccursAt(s[1..], p, j);
          OccursAtTail(s, p, j);
        }
      }
      assert !r ==> forall i: nat :: !OccursAt(s, p, i) by {
        if !r {
          forall i: nat ensures !OccursAt(s, p, i) {
            if i > 0 { OccursAtTail(s, p, i - 1); }
          }
        }
      }
      r
  }

  /** Whatever surrounds it, a string placed inside another is found there. */
  lemma ContainsSplice(a: string, p: string, b: string)
    ensures Contains(a + p + b, p)
  {
    var s := a + p + b;
    assert s[|a|..|a| + |p|] == p;
    assert OccursAt(s, p, |a|);
  }
}
