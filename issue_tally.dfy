/**
 * The issue categories the scanner counts and the per-author tally: a
 * mapping from category to count in which an absent category counts 0.
 */
module IssueTally {

  /**
   * The six pattern categories of the detector table (unresolved work
   * markers, duplicated blocks, security-sensitive calls, performance
   * anti-patterns, style inconsistency, missing documentation) and the three
   * structural ones (high-complexity function, excessive nesting, syntax error).
   */
  datatype Category =
    | DeadCode | DuplicateCode | SecurityRisk | PerformanceIssue | StyleInconsistency | MissingDocs
    | HighComplexity | DeepNesting | SyntaxError

  type Tally = map<Category, nat>

  /** `issues.get(c, 0)` */
  function Get(t: Tally, c: Category): nat {
    if c in t then t[c] else 0
  }

  /** `sum(issues.values())`, written over every category (absent ones add 0). */
  function TallyTotal(t: Tally): nat {
    Get(t, DeadCode) + Get(t, DuplicateCode) + Get(t, SecurityRisk) + Get(t, PerformanceIssue)
    + Get(t, StyleInconsistency) + Get(t, MissingDocs)
    + Get(t, HighComplexity) + Get(t, DeepNesting) + Get(t, SyntaxError)
  }

  /** The sum of the values of a map, taken one key at a time. */
  ghost function SumValues(t: Tally): nat
    decreases |t.Keys|
  {
    if t == map[] then 0
    else
      var k :| k in t;
      t[k] + SumValues(t - {k})
  }

  /** `TallyTotal` is the sum of the tally's values, whatever order they are taken in. */
  lemma {:induction false} TallyTotalIsSumOfValues(t: Tally)
    ensures TallyTotal(t) == SumValues(t)
    decreases |t.Keys|
  {
    if t != map[] {
      var k :| k in t && SumValues(t) == t[k] + SumValues(t - {k});
      assert (t - {k}).Keys == t.Keys - {k};
      TallyTotalRemove(t, k);
      TallyTotalIsSumOfValues(t - {k});
    }
  }

  lemma TallyTotalRemove(t: Tally, k: Category)
    requires k in t
    ensures TallyTotal(t) == t[k] + TallyTotal(t - {k})
  {
    GetRemove(t, k, DeadCode);
    GetRemove(t, k, DuplicateCode);
    GetRemove(t, k, SecurityRisk);
    GetRemove(t, k, PerformanceIssue);
    GetRemove(t, k, StyleInconsistency);
    GetRemove(t, k, MissingDocs);
    GetRemove(t, k, HighComplexity);
    GetRemove(t, k, DeepNesting);
    GetRemove(t, k, SyntaxError);
  }

  lemma GetRemove(t: Tally, k: Category, c: Category)
    requires k in t
    ensures Get(t, c) == Get(t - {k}, c) + (if c == k then t[k] else 0)
  {
  }
}
