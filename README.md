# Code-quality scanner: scoring and aggregation core

This Dafny project models the contribution-analysis core of a code-quality scanner. The scanner walks a git
history, keeps the commits of a set of target authors, takes the lines each author added, counts pattern-based
and syntax-tree-based issues in them, and scores each author on two things: issue density (quality) and
changed-line volume relative to the cohort average (quantity). The model follows the single source file,
`code_quality_scanner.py`. Each module matches one of its classes:

- `GitRepository` (`git_repository.dfy`) buckets the enumerated commits by author (`get_commits_by_author_and_time`).
- `QualityAnalyzer` (`quality_analyzer.dfy`) is the pattern stage of `CodeQualityAnalyzer` (`analyze_code_content`):
  it folds a category → pattern-list table over an abstract match counter.
- `SyntaxAnalyzer` (`syntax_analyzer.dfy`) is the structural stage of `CodeQualityAnalyzer`: `analyze_python_syntax`,
  `_calculate_complexity` and `_calculate_nesting_depth`. The syntax tree is a datatype with node kinds
  FunctionDef, If, For, While, Try, ExceptHandler and Other.
- `QuantityAnalyzer` (`quantity_analyzer.dfy`) is `CodeQuantityAnalyzer.analyze_commit_quantity`.
- `MetricsCalculator` (`metrics_calculator.dfy`) holds the quality score, the tiered quantity score and the weighted
  final score, over `real`.
- `Scanner` (`scanner.dfy`) is `CodeQualityScanner`: added-line extraction, `_analyze_author_code`, and the two
  scoring passes of `run_analysis`. The second pass updates an `array` of records in place.
- Helper modules: `Wrappers` (Option), `Text` (Python's `startswith`, substring `in`, and `'\n'.join`), and
  `IssueTally` (issue categories, `dict.get(k, 0)` and `sum(dict.values())`).

The source's loops are methods with loop invariants. Each one is proved equal to a recursive reference
definition, and the lemmas state the source's properties about those definitions. Tree walks follow `ast.walk`:
they keep a work list, take the front node off it and append that node's children.

The regular-expression engine is a parameter `count: (Pattern, string) -> nat`, standing for
`len(re.findall(pattern, text, re.MULTILINE | re.IGNORECASE))`. The Python parser is a parameter
`parse: string -> ParseOutcome`, where `ParseOutcome` is `Parsed(tree) | SyntaxErr | OtherErr`. A commit is a
record: id, author name, statistics (`None` when `commit.stats` raises), and the diff lines that the diff reader
returned (empty when reading the diff failed).

The model follows the code on these points, even where one might expect it to behave otherwise:

- Buckets are keyed by the commit's own author name, not by the target name that matched. So "first matching target
  wins" has no effect on the result: the target list matters only as a set (`GitRepository.TargetOrderIrrelevant`).
- The nesting depth recurses only through For/While/If/Try children. An ExceptHandler (an `except` clause) stops the
  chain, although it does count toward complexity.
- `analyze_code_content` creates a tally key for a category only when that category has at least one pattern.
- The net line count may be negative.

## Model

| member | source | states |
|---|---|---|
| `Text.ContainsAt` | code_quality_scanner.py:114 | the recursive substring test `p in s` holds iff some window `s[i..i+|p|]` equals `p` |
| `Text.Join` | code_quality_scanner.py:215 | `'\n'.join` of no lines is empty; a non-empty join starts with the first line |
| `Text.JoinLength` | code_quality_scanner.py:215 | joining k lines adds exactly k − 1 separators to their total length |
| `GitRepository.CommitsByAuthor` | code_quality_scanner.py:108-118 | the keys are the matched author names in first-appearance order; each key's bucket is exactly that author's commits, in enumeration order |
| `GitRepository.GroupedSkip` | code_quality_scanner.py:112-116 | a commit whose author matches no target leaves the keys and every bucket as they were |
| `GitRepository.GroupedExtend` | code_quality_scanner.py:113-115 | a matching commit of an author already keyed is appended to that author's bucket, the key order unchanged |
| `GitRepository.GroupedNewKey` | code_quality_scanner.py:113-115 | a matching commit of an author not yet keyed opens a one-commit bucket whose key comes last |
| `GitRepository.MatchedAuthorsStep` | code_quality_scanner.py:110-116 | one more commit adds its author as the last key exactly when the author matches a target and is not yet a key |
| `GitRepository.CommitsOfStep` | code_quality_scanner.py:115 | one more commit is appended to its own author's commit list and to no other |
| `GitRepository.MatchedAuthorsMembers` | code_quality_scanner.py:113-115 | a name is a key iff some target is a substring of it or it of some target, and at least one commit carries that name |
| `GitRepository.MatchedAuthorsDistinct` | code_quality_scanner.py:115 | no author name is a key twice |
| `GitRepository.CommitsOfAuthor` | code_quality_scanner.py:115 | a bucket holds only enumerated commits whose author is the key |
| `GitRepository.MatchedCommitBucketed` | code_quality_scanner.py:113-116 | a commit whose author matches a target is in the bucket keyed by its own author name |
| `GitRepository.CommitsOfContains` | code_quality_scanner.py:115 | each commit is in the bucket list of its own author name |
| `GitRepository.EveryMatchedCommitOnce` | code_quality_scanner.py:110-116 | the bucket sizes add up to the number of matched commits: each matched commit is placed exactly once |
| `GitRepository.BucketSizesStep` | code_quality_scanner.py:115 | appending one commit grows the buckets of a key list by the number of times its author is listed |
| `GitRepository.DistinctCount` | code_quality_scanner.py:115 | in a list without repeats, each element occurs once |
| `GitRepository.TargetOrderIrrelevant` | code_quality_scanner.py:113-116 | two target lists with the same members give the same keys and the same matched commits |
| `GitRepository.ExactTargetMatches` | code_quality_scanner.py:114 | an author named exactly like a target matches that target |
| `IssueTally.TallyTotalIsSumOfValues` | code_quality_scanner.py:570 | the tally total equals the sum of the tally's values, taken in any order |
| `IssueTally.TallyTotalRemove` | code_quality_scanner.py:570 | removing one key lowers the tally total by that key's value |
| `QualityAnalyzer.AnalyzeCodeContent` | code_quality_scanner.py:214-222 | the keys are the categories with at least one pattern; each category's count is the sum of its patterns' matches over the newline-joined lines; the total is every pattern's matches |
| `QualityAnalyzer.ScannedStep` | code_quality_scanner.py:217-220 | a category becomes a key once some table entry for it has a pattern |
| `QualityAnalyzer.CategoriesPartitionMatches` | code_quality_scanner.py:217-220 | adding the per-category counts over all categories counts each pattern's matches exactly once |
| `SyntaxAnalyzer.ForestAppend` | code_quality_scanner.py:241 | node, branch and flag counts of a list of subtrees split over concatenation |
| `SyntaxAnalyzer.WalkStep` | code_quality_scanner.py:241 | one work-list step of `ast.walk` removes exactly the front node's own contribution from each count |
| `SyntaxAnalyzer.CalculateComplexity` | code_quality_scanner.py:261-267 | complexity is 1 plus the number of If/For/While/Try/ExceptHandler nodes in the subtree |
| `SyntaxAnalyzer.CalculateNestingDepth` | code_quality_scanner.py:269-276 | the result is the starting depth plus the depth of the deepest chain of For/While/If/Try direct children |
| `SyntaxAnalyzer.AnalyzePythonSyntax` | code_quality_scanner.py:234-259 | a syntax error gives exactly {syntax error: 1}; any other error gives an empty tally; a tree gives one high-complexity issue per FunctionDef with complexity above 10 and one nesting issue per For/While/If with depth above 3, with absent keys for zero counts |
| `SyntaxAnalyzer.DeepestBlockIsMax` | code_quality_scanner.py:269-276 | the depth is 0 when no direct child is For/While/If/Try, and otherwise 1 plus the largest depth among those children |
| `SyntaxAnalyzer.TallestOfBounds` | code_quality_scanner.py:272 | no child is taller than the tallest child |
| `SyntaxAnalyzer.NestingBelowHeight` | code_quality_scanner.py:269-276 | the nesting depth is below the tree height, so a flagged construct needs a tree more than four levels deep |
| `SyntaxAnalyzer.ComplexFunctionNeedsBranches` | code_quality_scanner.py:243-246 | a tree with a flagged function holds at least 10 branch nodes |
| `SyntaxAnalyzer.BranchesOfBounds` | code_quality_scanner.py:264-266 | one subtree's branch count is at most that of its sibling list |
| `SyntaxAnalyzer.FirstFlaggedChild` | code_quality_scanner.py:241-246 | in a sibling list holding a flagged function, it finds a subtree that holds one |
| `QuantityAnalyzer.AnalyzeCommitQuantity` | code_quality_scanner.py:295-316 | the commit count is the number of commits, failed ones included; insertions, deletions and files are sums over the commits whose statistics were read; net = insertions − deletions; total = insertions + deletions |
| `QuantityAnalyzer.SumOfAppend` | code_quality_scanner.py:300-305 | the sums split over concatenated commit lists |
| `QuantityAnalyzer.FailedStatsContributeNothing` | code_quality_scanner.py:301-307 | inserting a commit whose statistics fail leaves every sum unchanged |
| `QuantityAnalyzer.SumOfSucceeded` | code_quality_scanner.py:300-307 | each sum equals the same sum over only the commits whose statistics were read |
| `MetricsCalculator.CalculateQualityMetrics` | code_quality_scanner.py:336-355 | 0 lines gives density 0, rate 0 and score 100; otherwise density × lines = issues × 1000, the rate equals the density, and score = max(0, 100 − 2·density), in [0, 100] |
| `MetricsCalculator.DivisionMonotone` | code_quality_scanner.py:344 | dividing by a positive number keeps order |
| `MetricsCalculator.QualityNonIncreasing` | code_quality_scanner.py:344-350 | at fixed lines, more issues never raise the quality score |
| `MetricsCalculator.NoIssuesPerfect` | code_quality_scanner.py:350 | no issues gives score 100 |
| `MetricsCalculator.CalculateQuantityScore` | code_quality_scanner.py:369-393 | average 0 gives 50; every result is one of 30, 40, …, 100 |
| `MetricsCalculator.TierIsFirstBand` | code_quality_scanner.py:376-391 | the if-chain equals "the first band of the table (2.0→100, 1.5→90, 1.0→80, 0.8→70, 0.6→60, 0.4→50, 0.2→40) whose lower bound the ratio reaches, else 30" |
| `MetricsCalculator.TierMonotone` | code_quality_scanner.py:376-391 | a higher ratio never gives a lower tier |
| `MetricsCalculator.QuantityScoreMonotone` | code_quality_scanner.py:373-391 | for a fixed positive average, more lines never lower the quantity score |
| `MetricsCalculator.AverageScoresEighty` | code_quality_scanner.py:373-381 | lines equal to a positive average give 80 |
| `MetricsCalculator.AtLeastAverageScoresEighty` | code_quality_scanner.py:373-381 | lines at or above a positive average give at least 80 |
| `MetricsCalculator.ThresholdsInclusive` | code_quality_scanner.py:376-389 | a ratio exactly on a threshold takes that threshold's (higher) tier |
| `MetricsCalculator.CalculateFinalScore` | code_quality_scanner.py:407 | the final score lies between the quality and quantity scores and sits one fifth of the way from quality toward quantity |
| `MetricsCalculator.FinalScoreMonotone` | code_quality_scanner.py:407 | the final score is non-decreasing in both scores |
| `MetricsCalculator.QuantityCannotRescue` | code_quality_scanner.py:406-407 | however large the volume, the final score is at most 0.8·quality + 20 |
| `MetricsCalculator.WorkedExample` | code_quality_scanner.py:344-408 | 3 issues in 140 lines at the cohort average give quality 400/7, quantity 80 and final 432/7 |
| `Scanner.AddedLines` | code_quality_scanner.py:564 | the added-line list is never longer than the diff |
| `Scanner.AddedLinesExact` | code_quality_scanner.py:564 | the added lines are exactly the diff lines that start with `+` but not `+++`, each without its first character, in increasing diff position, with none missing |
| `Scanner.KeywordLines` | code_quality_scanner.py:573 | the lines given to the structural stage are added lines containing `def `, `class ` or `import ` |
| `Scanner.ContainsLength` | code_quality_scanner.py:573 | a string that contains a keyword is at least as long as the keyword |
| `Scanner.KeywordCodeNonEmpty` | code_quality_scanner.py:573-574 | the joined keyword lines are non-empty iff some added line contains a keyword |
| `Scanner.KeywordLinesNonEmpty` | code_quality_scanner.py:573 | one keyword line makes the filtered list non-empty |
| `Scanner.CollectAddedLines` | code_quality_scanner.py:558-565 | the gathered lines are the added lines of every commit, commit after commit, in diff order |
| `Scanner.CountIssues` | code_quality_scanner.py:559-576 | the issue total is 0 without added lines, otherwise every pattern match over the joined lines plus the structural issues of the keyword lines when there are any |
| `Scanner.AnalyzeAuthorCode` | code_quality_scanner.py:555-595 | the record holds the author, the commit count and the total changed lines; issues are 0 without added lines, and otherwise all pattern matches plus the structural issues when some line has a keyword; quality is in [0, 100]; quantity and final scores are 0 |
| `Scanner.RescoredProperties` | code_quality_scanner.py:519-527 | after rescoring, quantity is a tier value and final = 0.8·quality + 0.2·quantity, in [0, 100]; contributor, counts, issues, densities and quality are unchanged |
| `Scanner.Finalize` | code_quality_scanner.py:519-527 | each array element is updated in place to its rescored record for the given average |
| `Scanner.SomeoneAtOrAboveMean` | code_quality_scanner.py:516 | some author's total is at least the cohort mean |
| `Scanner.SumBelow` | code_quality_scanner.py:516 | if all values lie below m, their sum lies below count × m |
| `Scanner.CohortReachesEighty` | code_quality_scanner.py:516-522 | with a positive cohort average, some author gets a quantity score of at least 80 |
| `Scanner.TotalsAt` | code_quality_scanner.py:513 | the totals list has one entry per record, equal to that record's total |
| `Scanner.FirstPassProperties` | code_quality_scanner.py:509-513 | the first pass has one record per key, in key order, each with quality in [0, 100] |
| `Scanner.FinalPassProperties` | code_quality_scanner.py:519-527 | the second pass keeps the record count, contributors, totals, issues and quality, gives tier quantity scores and final scores in [0, 100] |
| `Scanner.NoBucketsIffNoMatches` | code_quality_scanner.py:502-503 | there are no buckets iff no commit matches a target |
| `Scanner.AnalyzeAuthors` | code_quality_scanner.py:506-513 | the first loop yields the first-pass record of each key and the list of their totals |
| `Scanner.ScoreCohort` | code_quality_scanner.py:515-527 | the second pass turns every first-pass record into its rescored record for the mean of the totals (0 for no records) |
| `Scanner.RunAnalysis` | code_quality_scanner.py:500-527 | no matched commit gives the "no data" outcome; otherwise there is one record per key, each bucket's first-pass record rescored against the mean total, with tier quantity and final score in [0, 100] |

## Left out

- Repository set-up: `initialize_repo`, `get_current_branch` and the `self.repo is None` early returns are file-system and git-library I/O. The pipeline starts from enumerated commits.
- Commit enumeration and the date window: `iter_commits(since, until)`, the date parsing and the end + 1 day bound depend on `datetime` and the git backend. The commit list is an input.
- `get_commit_diff_content`: the first-parent or empty-tree diff and the UTF-8 decoding belong to the git library. Its result, with `[]` on failure, is part of each commit record.
- `get_diff_stats` is unused by the pipeline and is only a wrapper around `commit.stats`.
- The regular-expression engine and the pattern table are a foreign library and a static table. The match counter and the table are parameters.
- `ast.parse` is a foreign parser. Its outcome is an input. An exception raised while walking a successfully parsed tree (for example a recursion-depth error) would keep the partial counts; the model does not cover it.
- Floating point: divisions, the `>=` threshold comparisons and the 0.8/0.2 weights are exact real arithmetic.
- MetricsCalculator.CalculateQualityMetrics: does not apply `round(x, 2)` to the density, the rate and the score. The model gives the exact values before binary-float rounding.
- MetricsCalculator.CalculateFinalScore: does not apply `round(x, 2)`. The second pass therefore uses the unrounded quality score, where the source uses the stored rounded one.
- `ReportGenerator`, the spreadsheet export, `main`, all console output and the module-level configuration constants are rendering, export and plumbing.
