/**
 * The pattern stage of `CodeQualityAnalyzer`: `analyze_code_content` folds
 * an ordered category -> pattern-list table over the newline-joined added
 * lines. The regular-expression engine is not modelled: `count(p, text)`
 * stands for `len(re.findall(p, text, re.MULTILINE | re.IGNORECASE))`.
 */
module QualityAnalyzer {
  import opened Text
  import opened IssueTally

  type Pattern = string

  /** The detector table: categories with their patterns, in table order. */
  type PatternTable = seq<(Category, seq<Pattern>)>

  /** The matches of all `patterns` in `text`. */
  function PatternMatches(patterns: seq<Pattern>, text: string, count: (Pattern, string) -> nat): nat {
    if patterns == [] then 0
    else PatternMatches(patterns[..|patterns| - 1], text, count) + count(patterns[|patterns| - 1], text)
  }

  /** The matches credited to category `c`: those of every table entry for `c`. */
  function CategoryMatches(table: PatternTable, c: Category, text: string, count: (Pattern, string) -> nat): nat {
    if table == [] then 0
    else
      var last := table[|table| - 1];
      CategoryMatches(table[..|table| - 1], c, text, count)
      + (if last.0 == c then PatternMatches(last.1, text, count) else 0)
  }

  /** The matches of every pattern of the table. */
  function TableMatches(table: PatternTable, text: string, count: (Pattern, string) -> nat): nat {
    if table == [] then 0
    else TableMatches(table[..|table| - 1], text, count) + PatternMatches(table[|table| - 1].1, text, count)
  }

  /**
   * Category `c` appears as a key of the result: the defaultdict entry is
   * created by the first `+=`, that is, when some entry for `c` has a pattern.
   */
  predicate Scanned(table: PatternTable, c: Category) {
    exists k :: 0 <= k < |table| && table[k].0 == c && table[k].1 != []
  }

  /** `analyze_code_content(code_lines)` */
  method AnalyzeCodeContent(codeLines: seq<string>, table: PatternTable, count: (Pattern, string) -> nat)
    returns (issues: Tally)
    ensures forall c :: c in issues <==> Scanned(table, c)
    ensures forall c :: Get(issues, c) == CategoryMatches(table, c, Join(codeLines), count)
    ensures TallyTotal(issues) == TableMatches(table, Join(codeLines), count)
  {
    issues := map[];
    var codeContent := Join(codeLines);
    for i := 0 to |table|
      invariant forall c :: c in issues <==> Scanned(table[..i], c)
      invariant forall c :: Get(issues, c) == CategoryMatches(table[..i], c, codeContent, count)
    {
      var (issueType, patterns) := table[i];
      assert table[..i + 1][..i] == table[..i];
      for j := 0 to |patterns|
        invariant forall c :: c in issues <==> Scanned(table[..i], c) || (c == issueType && j > 0)
        invariant forall c :: Get(issues, c) == CategoryMatches(table[..i], c, codeContent, count)
                                                + (if c == issueType then PatternMatches(patterns[..j], codeContent, count) else 0)
      {
        assert patterns[..j + 1][..j] == patterns[..j];
        issues := issues[issueType := Get(issues, issueType) + count(patterns[j], codeContent)];
      }
      assert patterns[..|patterns|] == patterns;
      ScannedStep(table[..i + 1]);
    }
    assert table[..|table|] == table;
    CategoriesPartitionMatches(table, codeContent, count);
  }

  lemma ScannedStep(table: PatternTable)
    requires table != []
    ensures forall c :: Scanned(table, c) <==>
      Scanned(table[..|table| - 1], c) || (c == table[|table| - 1].0 && table[|table| - 1].1 != [])
  {
    var init := table[..|table| - 1];
    forall c | Scanned(table, c) ensures Scanned(init, c) || (c == table[|table| - 1].0 && table[|table| - 1].1 != []) {
      var k :| 0 <= k < |table| && table[k].0 == c && table[k].1 != [];
      if k < |init| { assert init[k] == table[k]; }
    }
    forall c | Scanned(init, c) ensures Scanned(table, c) {
      var k :| 0 <= k < |init| && init[k].0 == c && init[k].1 != [];
      assert table[k] == init[k];
    }
  }

  /**
   * Summing the per-category counts over all categories gives every
   * pattern's matches exactly once: categories partition the table.
   */
  lemma {:induction false} CategoriesPartitionMatches(table: PatternTable, text: string, count: (Pattern, string) -> nat)
    ensures CategoryMatches(table, DeadCode, text, count) + CategoryMatches(table, DuplicateCode, text, count)
      + CategoryMatches(table, SecurityRisk, text, count) + CategoryMatches(table, PerformanceIssue, text, count)
      + CategoryMatches(table, StyleInconsistency, text, count) + CategoryMatches(table, MissingDocs, text, count)
      + CategoryMatches(table, HighComplexity, text, count) + CategoryMatches(table, DeepNesting, text, count)
      + CategoryMatches(table, SyntaxError, text, count)
      == TableMatches(table, text, count)
  {
    if table != [] {
      CategoriesPartitionMatches(table[..|table| - 1], text, count);
    }
  }
}
