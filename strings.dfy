/** Substring containment, used to state what a log line or a greeting mentions. */
module Strings {

  /** `t` occurs in `s` starting at position `k`. */
  predicate OccursAt(s: string, t: string, k: int) {
    0 <= k <= |s| - |t| && s[k..k + |t|] == t
  }

  /** `t` occurs in `s` as a contiguous substring. */
  ghost predicate Contains(s: string, t: string) {
    exists k :: OccursAt(s, t, k)
  }

  /** A string occurs in any string built around it. */
  lemma ContainsInfix(a: string, t: string, b: string)
    ensures Contains(a + t + b, t)
  {
    var s := a + t + b;
    assert s[|a|..|a| + |t|] == t;
    assert OccursAt(s, t, |a|);
  }

  /** Containment survives putting more text on either side. */
  lemma ContainsWithin(a: string, s: string, b: string, t: string)
    requires Contains(s, t)
    ensures Contains(a + s + b, t)
  {
    var k :| OccursAt(s, t, k);
    var u := a + s + b;
    assert u[|a| + k..|a| + k + |t|] == s[k..k + |t|];
    assert OccursAt(u, t, |a| + k);
  }

  /** What occurs in an occurrence occurs in the whole. */
  lemma ContainsTransitive(s: string, u: string, t: string)
    requires Contains(s, u) && Contains(u, t)
    ensures Contains(s, t)
  {
    var k :| OccursAt(s, u, k);
    var j :| OccursAt(u, t, j);
    assert s[k..k + |u|] == u;
    forall i | 0 <= i < |t| ensures s[k + j + i] == t[i] {
      assert s[k + j + i] == s[k..k + |u|][j + i];
      assert u[j..j + |t|][i] == u[j + i];
    }
    assert s[k + j..k + j + |t|] == t;
    assert OccursAt(s, t, k + j);
  }
}
