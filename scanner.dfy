/**
 * `CodeQualityScanner`: per-author analysis (`_analyze_author_code`) and the
 * scoring passes of `run_analysis`. Repository set-up, the report table and
 * the spreadsheet export are not modelled; the regex counter `count` and the
 * parser `parse` are parameters.
 */
module Scanner {
  import opened Text
  import opened IssueTally
  import opened GitRepository
  import opened QualityAnalyzer
  import opened SyntaxAnalyzer
  import opened QuantityAnalyzer
  import opened MetricsCalculator

  // ---- Added-line extraction ----

  /** A diff line that adds code: starts with `+` but is not a `+++` file header. */
  predicate IsAddedLine(line: string) {
    StartsWith(line, "+") && !StartsWith(line, "+++")
  }

  /** `[line[1:] for line in diff_lines if line.startswith('+') and not line.startswith('+++')]` */
  function AddedLines(diffLines: seq<string>): (r: seq<string>)
    ensures |r| <= |diffLines|
  {
    if diffLines == [] then []
    else
      var last := diffLines[|diffLines| - 1];
      AddedLines(diffLines[..|diffLines| - 1]) + (if IsAddedLine(last) then [last[1..]] else [])
  }

  /** The positions in `diffLines` of the added lines, in increasing order. */
  function AddedPositions(diffLines: seq<string>): seq<nat> {
    if diffLines == [] then []
    else
      AddedPositions(diffLines[..|diffLines| - 1])
      + (if IsAddedLine(diffLines[|diffLines| - 1]) then [|diffLines| - 1] else [])
  }

  /**
   * The added lines are exactly the diff lines passing the filter, each
   * without its first character, in their original order.
   */
  lemma {:induction false} AddedLinesExact(diffLines: seq<string>)
    ensures var pos := AddedPositions(diffLines);
      && |pos| == |AddedLines(diffLines)|
      && (forall k :: 0 <= k < |pos| ==>
            pos[k] < |diffLines| && IsAddedLine(diffLines[pos[k]])
            && AddedLines(diffLines)[k] == diffLines[pos[k]][1..])
      && (forall k, l :: 0 <= k < l < |pos| ==> pos[k] < pos[l])
      && (forall j :: 0 <= j < |diffLines| && IsAddedLine(diffLines[j]) ==> j in pos)
  {
    if diffLines != [] {
      var init := diffLines[..|diffLines| - 1];
      AddedLinesExact(init);
      forall j | 0 <= j < |init| ensures init[j] == diffLines[j] { }
    }
  }

  /** The added lines of all commits, commit after commit (`all_code_lines`). */
  function AllAddedLines(commits: seq<Commit>): seq<string> {
    if commits == [] then []
    else AllAddedLines(commits[..|commits| - 1]) + AddedLines(commits[|commits| - 1].diffLines)
  }

  // ---- Issue totalling ----

  /** `any(keyword in line for keyword in ['def ', 'class ', 'import '])` */
  predicate HasKeyword(line: string) {
    Contains(line, "def ") || Contains(line, "class ") || Contains(line, "import ")
  }

  /** The lines handed to the structural stage, in order. */
  function KeywordLines(lines: seq<string>): (r: seq<string>)
    ensures forall x :: x in r ==> x in lines && HasKeyword(x)
  {
    if lines == [] then []
    else (if HasKeyword(lines[0]) then [lines[0]] else []) + KeywordLines(lines[1..])
  }

  lemma ContainsLength(s: string, p: string)
    requires Contains(s, p)
    ensures |p| <= |s|
  {
    ContainsAt(s, p);
  }

  /** The joined keyword lines are non-empty exactly when some line holds a keyword. */
  lemma {:induction false} KeywordCodeNonEmpty(lines: seq<string>)
    ensures Join(KeywordLines(lines)) != "" <==> exists i :: 0 <= i < |lines| && HasKeyword(lines[i])
  {
    var kw := KeywordLines(lines);
    if exists i :: 0 <= i < |lines| && HasKeyword(lines[i]) {
      var i :| 0 <= i < |lines| && HasKeyword(lines[i]);
      KeywordLinesNonEmpty(lines, i);
      var first := kw[0];
      assert first in kw;
      if Contains(first, "def ") { ContainsLength(first, "def "); }
      else if Contains(first, "class ") { ContainsLength(first, "class "); }
      else { ContainsLength(first, "import "); }
    } else if kw != [] {
      assert kw[0] in kw;
    }
  }

  lemma {:induction false} KeywordLinesNonEmpty(lines: seq<string>, i: nat)
    requires i < |lines| && HasKeyword(lines[i])
    ensures KeywordLines(lines) != []
  {
    if i > 0 && !HasKeyword(lines[0]) {
      KeywordLinesNonEmpty(lines[1..], i - 1);
    }
  }

  /**
   * The issue total of one author: 0 without added lines; otherwise every
   * pattern match over the joined lines, plus the structural issues when
   * some added line contains `def `, `class ` or `import `.
   */
  function AuthorIssues(lines: seq<string>, table: PatternTable,
                        count: (Pattern, string) -> nat, parse: string -> ParseOutcome): nat {
    if lines == [] then 0
    else
      TableMatches(table, Join(lines), count)
      + (if exists i :: 0 <= i < |lines| && HasKeyword(lines[i])
         then SyntaxTotal(parse(Join(KeywordLines(lines)))) else 0)
  }

  // ---- Score records ----

  /** One row of the report. */
  datatype ScoreRecord = ScoreRecord(
    contributor: string, commitCount: nat, totalLines: nat, totalIssues: nat,
    issuesPerKloc: real, issueRatePerKloc: real, qualityScore: real,
    quantityScore: real, finalScore: real)

  /** The record `_analyze_author_code` returns, quantity and final scores still 0. */
  function AuthorRecord(author: string, commits: seq<Commit>, table: PatternTable,
                        count: (Pattern, string) -> nat, parse: string -> ParseOutcome): ScoreRecord {
    var totalLines := SumOf(commits, Insertions) + SumOf(commits, Deletions);
    var totalIssues := AuthorIssues(AllAddedLines(commits), table, count, parse);
    var quality := CalculateQualityMetrics(totalIssues, totalLines);
    ScoreRecord(author, |commits|, totalLines, totalIssues,
                quality.issuesPerKloc, quality.issueRatePerKloc, quality.qualityScore, 0.0, 0.0)
  }

  /** The loop of `_analyze_author_code` that gathers `all_code_lines`. */
  method CollectAddedLines(commits: seq<Commit>) returns (allCodeLines: seq<string>)
    ensures allCodeLines == AllAddedLines(commits)
  {
    allCodeLines := [];
    for i := 0 to |commits|
      invariant allCodeLines == AllAddedLines(commits[..i])
    {
      assert commits[..i + 1][..i] == commits[..i];
      var newLines := AddedLines(commits[i].diffLines);
      allCodeLines := allCodeLines + newLines;
    }
    assert commits[..|commits|] == commits;
  }

  /**
   * The issue total of `_analyze_author_code`: the pattern tally over the
   * joined lines, plus the structural tally over the keyword lines when
   * there are any.
   */
  method CountIssues(allCodeLines: seq<string>, table: PatternTable,
                     count: (Pattern, string) -> nat, parse: string -> ParseOutcome)
    returns (totalIssues: nat)
    ensures totalIssues == AuthorIssues(allCodeLines, table, count, parse)
    ensures allCodeLines == [] ==> totalIssues == 0
  {
    totalIssues := 0;
    if allCodeLines != [] {
      var qualityIssues := AnalyzeCodeContent(allCodeLines, table, count);
      totalIssues := TallyTotal(qualityIssues);
      assert totalIssues == TableMatches(table, Join(allCodeLines), count);
      var pythonCode := Join(KeywordLines(allCodeLines));
      KeywordCodeNonEmpty(allCodeLines);
      if pythonCode != "" {
        var syntaxIssues := AnalyzePythonSyntax(parse(pythonCode));
        totalIssues := totalIssues + TallyTotal(syntaxIssues);
      }
    }
  }

  /** `_analyze_author_code(author, commits)` */
  method AnalyzeAuthorCode(author: string, commits: seq<Commit>, table: PatternTable,
                           count: (Pattern, string) -> nat, parse: string -> ParseOutcome)
    returns (result: ScoreRecord)
    ensures result == AuthorRecord(author, commits, table, count, parse)
    ensures result.contributor == author && result.commitCount == |commits|
    ensures AllAddedLines(commits) == [] ==> result.totalIssues == 0
    ensures result.quantityScore == 0.0 && result.finalScore == 0.0
    ensures 0.0 <= result.qualityScore <= 100.0
  {
    var quantityMetrics := AnalyzeCommitQuantity(commits);
    var allCodeLines := CollectAddedLines(commits);
    var totalIssues := CountIssues(allCodeLines, table, count, parse);
    var totalLines := quantityMetrics.totalLines;
    var qualityMetrics := CalculateQualityMetrics(totalIssues, totalLines);
    result := ScoreRecord(author, quantityMetrics.commitCount, totalLines, totalIssues,
                          qualityMetrics.issuesPerKloc, qualityMetrics.issueRatePerKloc,
                          qualityMetrics.qualityScore, 0.0, 0.0);
  }

  // ---- Second pass ----

  /** `all_total_lines` */
  function Totals(records: seq<ScoreRecord>): seq<nat> {
    if records == [] then []
    else Totals(records[..|records| - 1]) + [records[|records| - 1].totalLines]
  }

  function Sum(xs: seq<nat>): nat {
    if xs == [] then 0 else Sum(xs[..|xs| - 1]) + xs[|xs| - 1]
  }

  /** `sum(all_total_lines) / len(all_total_lines) if all_total_lines else 0` */
  function Mean(xs: seq<nat>): real {
    if xs == [] then 0.0 else Sum(xs) as real / |xs| as real
  }

  /** A record with its quantity and final scores filled in for cohort average `avgLines`. */
  function Rescored(r: ScoreRecord, avgLines: real): ScoreRecord {
    var quantityScore := CalculateQuantityScore(r.totalLines, avgLines);
    r.(quantityScore := quantityScore, finalScore := CalculateFinalScore(r.qualityScore, quantityScore))
  }

  /** What the second pass promises of each record. */
  lemma RescoredProperties(r: ScoreRecord, avgLines: real)
    requires 0.0 <= r.qualityScore <= 100.0
    ensures var s := Rescored(r, avgLines);
      && IsTierScore(s.quantityScore)
      && s.finalScore == 0.8 * r.qualityScore + 0.2 * s.quantityScore
      && 0.0 <= s.finalScore <= 100.0
      && s.contributor == r.contributor && s.commitCount == r.commitCount && s.totalLines == r.totalLines
      && s.totalIssues == r.totalIssues && s.issuesPerKloc == r.issuesPerKloc
      && s.issueRatePerKloc == r.issueRatePerKloc && s.qualityScore == r.qualityScore
  {
  }

  /** The second loop of `run_analysis`: fills in every record in place. */
  method Finalize(results: array<ScoreRecord>, avgLines: real)
    modifies results
    ensures forall i :: 0 <= i < results.Length ==> results[i] == Rescored(old(results[i]), avgLines)
  {
    for i := 0 to results.Length
      invariant forall k :: 0 <= k < i ==> results[k] == Rescored(old(results[k]), avgLines)
      invariant forall k :: i <= k < results.Length ==> results[k] == old(results[k])
    {
      var result := results[i];
      var quantityScore := CalculateQuantityScore(result.totalLines, avgLines);
      var finalScore := CalculateFinalScore(result.qualityScore, quantityScore);
      results[i] := result.(quantityScore := quantityScore, finalScore := finalScore);
    }
  }

  /** Not every value lies below the mean (hence at least one author reaches the average). */
  lemma {:induction false} SomeoneAtOrAboveMean(xs: seq<nat>)
    requires xs != []
    ensures exists i :: 0 <= i < |xs| && xs[i] as real >= Mean(xs)
  {
    var m := Mean(xs);
    assert Sum(xs) as real == m * |xs| as real;
    if forall i :: 0 <= i < |xs| ==> xs[i] as real < m {
      SumBelow(xs, m);
    }
  }

  lemma {:induction false} SumBelow(xs: seq<nat>, m: real)
    requires xs != [] && forall i :: 0 <= i < |xs| ==> xs[i] as real < m
    ensures Sum(xs) as real < |xs| as real * m
  {
    var init := xs[..|xs| - 1];
    if init != [] {
      forall i | 0 <= i < |init| ensures init[i] as real < m { assert init[i] == xs[i]; }
      SumBelow(init, m);
    }
  }

  /** With a non-zero cohort average, some author's quantity score is at least 80. */
  lemma CohortReachesEighty(records: seq<ScoreRecord>)
    requires records != [] && Mean(Totals(records)) > 0.0
    ensures exists i :: 0 <= i < |records| && Rescored(records[i], Mean(Totals(records))).quantityScore >= 80.0
  {
    var totals := Totals(records);
    TotalsAt(records);
    SomeoneAtOrAboveMean(totals);
    var i :| 0 <= i < |totals| && totals[i] as real >= Mean(totals);
    AtLeastAverageScoresEighty(records[i].totalLines, Mean(totals));
  }

  lemma {:induction false} TotalsAt(records: seq<ScoreRecord>)
    ensures |Totals(records)| == |records|
    ensures forall i :: 0 <= i < |records| ==> Totals(records)[i] == records[i].totalLines
  {
    if records != [] {
      TotalsAt(records[..|records| - 1]);
    }
  }

  // ---- The pipeline ----

  /** The first pass: one record per bucket key, in key order. */
  function FirstPass(authors: seq<string>, commits: seq<Commit>, table: PatternTable,
                     count: (Pattern, string) -> nat, parse: string -> ParseOutcome): seq<ScoreRecord> {
    seq(|authors|, i requires 0 <= i < |authors| =>
      AuthorRecord(authors[i], CommitsOf(commits, authors[i]), table, count, parse))
  }

  /** The second pass over the first pass's records. */
  function FinalPass(records: seq<ScoreRecord>): seq<ScoreRecord> {
    seq(|records|, i requires 0 <= i < |records| => Rescored(records[i], Mean(Totals(records))))
  }

  lemma FirstPassProperties(authors: seq<string>, commits: seq<Commit>, table: PatternTable,
                            count: (Pattern, string) -> nat, parse: string -> ParseOutcome)
    ensures var rs := FirstPass(authors, commits, table, count, parse);
      && |rs| == |authors|
      && forall i :: 0 <= i < |rs| ==> rs[i].contributor == authors[i] && 0.0 <= rs[i].qualityScore <= 100.0
  {
  }

  /** After the second pass every record has a tier quantity score and a final score in [0, 100]. */
  lemma FinalPassProperties(records: seq<ScoreRecord>)
    requires forall i :: 0 <= i < |records| ==> 0.0 <= records[i].qualityScore <= 100.0
    ensures var fs := FinalPass(records);
      && |fs| == |records|
      && forall i :: 0 <= i < |fs| ==>
           && fs[i].contributor == records[i].contributor
           && fs[i].totalLines == records[i].totalLines
           && fs[i].totalIssues == records[i].totalIssues
           && fs[i].qualityScore == records[i].qualityScore
           && IsTierScore(fs[i].quantityScore)
           && 0.0 <= fs[i].finalScore <= 100.0
  {
    forall i | 0 <= i < |records| {
      RescoredProperties(records[i], Mean(Totals(records)));
    }
  }

  /** `run_analysis`: either no target author has a commit, or one finished record per bucket. */
  datatype Outcome = NoData | Scored(records: seq<ScoreRecord>)

  /** No bucket at all exactly when no commit matches a target. */
  lemma {:induction false} NoBucketsIffNoMatches(commits: seq<Commit>, targets: seq<string>)
    ensures MatchedAuthors(commits, targets) == [] <==> MatchedCommits(commits, targets) == []
  {
    if commits != [] {
      var init := commits[..|commits| - 1];
      NoBucketsIffNoMatches(init, targets);
      if MatchedAuthors(init, targets) != [] {
        assert MatchedAuthors(init, targets)[0] in MatchedAuthors(commits, targets);
      }
    }
  }

  /** The first loop of `run_analysis`: one record per bucket, and the list of their totals. */
  method AnalyzeAuthors(authors: seq<string>, commitsByAuthor: map<string, seq<Commit>>, ghost commits: seq<Commit>,
                        table: PatternTable, count: (Pattern, string) -> nat, parse: string -> ParseOutcome)
    returns (results: seq<ScoreRecord>, allTotalLines: seq<nat>)
    requires forall a :: a in authors ==> a in commitsByAuthor && commitsByAuthor[a] == CommitsOf(commits, a)
    ensures results == FirstPass(authors, commits, table, count, parse)
    ensures allTotalLines == Totals(results)
  {
    ghost var first := FirstPass(authors, commits, table, count, parse);
    results, allTotalLines := [], [];
    for i := 0 to |authors|
      invariant |results| == i
      invariant forall k :: 0 <= k < i ==> results[k] == first[k]
      invariant allTotalLines == Totals(results)
    {
      var author := authors[i];
      assert author in authors;
      var bucket := commitsByAuthor[author];
      assert bucket == CommitsOf(commits, author);
      var result := AnalyzeAuthorCode(author, bucket, table, count, parse);
      assert result == first[i];
      var next := results + [result];
      assert next[..i] == results;
      assert Totals(next) == Totals(results) + [result.totalLines];
      results := next;
      allTotalLines := allTotalLines + [result.totalLines];
    }
    assert results == first;
  }

  /** The second half of `run_analysis`: the cohort average and the second loop over the records. */
  method ScoreCohort(results: seq<ScoreRecord>, allTotalLines: seq<nat>) returns (records: seq<ScoreRecord>)
    requires allTotalLines == Totals(results)
    ensures records == FinalPass(results)
  {
    var avgLines := if |allTotalLines| > 0 then Sum(allTotalLines) as real / |allTotalLines| as real else 0.0;
    assert avgLines == Mean(Totals(results));
    var cohort := new ScoreRecord[|results|](k requires 0 <= k < |results| => results[k]);
    Finalize(cohort, avgLines);
    records := cohort[..];
    assert |records| == |results|;
    forall k | 0 <= k < |records| ensures records[k] == FinalPass(results)[k] {
      assert records[k] == Rescored(results[k], avgLines);
    }
  }

  /** The scoring passes of `run_analysis` after the commits have been enumerated. */
  method RunAnalysis(commits: seq<Commit>, targets: seq<string>, table: PatternTable,
                     count: (Pattern, string) -> nat, parse: string -> ParseOutcome)
    returns (outcome: Outcome)
    ensures outcome.NoData? <==> MatchedCommits(commits, targets) == []
    ensures outcome.Scored? ==>
      outcome.records == FinalPass(FirstPass(MatchedAuthors(commits, targets), commits, table, count, parse))
    ensures outcome.Scored? ==>
      && |outcome.records| == |MatchedAuthors(commits, targets)|
      && forall i :: 0 <= i < |outcome.records| ==>
           && outcome.records[i].contributor == MatchedAuthors(commits, targets)[i]
           && IsTierScore(outcome.records[i].quantityScore)
           && 0.0 <= outcome.records[i].finalScore <= 100.0
  {
    var authors, commitsByAuthor := CommitsByAuthor(commits, targets);
    NoBucketsIffNoMatches(commits, targets);
    assert commitsByAuthor == map[] <==> authors == [] by {
      if authors != [] { assert authors[0] in commitsByAuthor.Keys; }
    }
    if commitsByAuthor == map[] {
      return NoData;
    }
    var results, allTotalLines := AnalyzeAuthors(authors, commitsByAuthor, commits, table, count, parse);
    var records := ScoreCohort(results, allTotalLines);
    outcome := Scored(records);
    FirstPassProperties(authors, commits, table, count, parse);
    FinalPassProperties(results);
  }
}
