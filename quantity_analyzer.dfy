/**
 * `CodeQuantityAnalyzer.analyze_commit_quantity`: volume figures summed over
 * an author's commits. A commit whose statistics cannot be read is skipped
 * by the sums but still counted as a commit.
 */
module QuantityAnalyzer {
  import opened Wrappers
  import opened GitRepository

  /** commits, insertions, deletions, net lines, files changed, total changed lines */
  datatype QuantityMetrics = QuantityMetrics(
    commitCount: nat, insertions: nat, deletions: nat, netLines: int, filesChanged: nat, totalLines: nat)

  /** One of the three figures of `commit.stats.total`. */
  datatype Figure = Insertions | Deletions | Files

  function Pick(s: Stats, f: Figure): nat {
    match f
    case Insertions => s.insertions
    case Deletions => s.deletions
    case Files => s.files
  }

  /** Figure `f` of one commit, 0 when its statistics failed. */
  function Contribution(c: Commit, f: Figure): nat {
    match c.stats
    case Some(s) => Pick(s, f)
    case None => 0
  }

  /** Figure `f` summed over the commits whose statistics were read. */
  function SumOf(commits: seq<Commit>, f: Figure): nat {
    if commits == [] then 0
    else SumOf(commits[..|commits| - 1], f) + Contribution(commits[|commits| - 1], f)
  }

  /** The commits whose statistics were read, in order. */
  function Succeeded(commits: seq<Commit>): seq<Commit> {
    if commits == [] then []
    else Succeeded(commits[..|commits| - 1]) + (if commits[|commits| - 1].stats.Some? then [commits[|commits| - 1]] else [])
  }

  /** `analyze_commit_quantity(commits)` */
  method AnalyzeCommitQuantity(commits: seq<Commit>) returns (q: QuantityMetrics)
    ensures q.commitCount == |commits|
    ensures q.insertions == SumOf(commits, Insertions)
    ensures q.deletions == SumOf(commits, Deletions)
    ensures q.filesChanged == SumOf(commits, Files)
    ensures q.netLines == q.insertions - q.deletions
    ensures q.totalLines == q.insertions + q.deletions
  {
    var totalInsertions: nat := 0;
    var totalDeletions: nat := 0;
    var totalCommits := |commits|;
    var totalFilesChanged: nat := 0;
    for i := 0 to |commits|
      invariant totalInsertions == SumOf(commits[..i], Insertions)
      invariant totalDeletions == SumOf(commits[..i], Deletions)
      invariant totalFilesChanged == SumOf(commits[..i], Files)
    {
      assert commits[..i + 1][..i] == commits[..i];
      match commits[i].stats {
        case None =>
        case Some(stats) =>
          totalInsertions := totalInsertions + stats.insertions;
          totalDeletions := totalDeletions + stats.deletions;
          totalFilesChanged := totalFilesChanged + stats.files;
      }
    }
    assert commits[..|commits|] == commits;
    q := QuantityMetrics(totalCommits, totalInsertions, totalDeletions,
                         totalInsertions - totalDeletions, totalFilesChanged, totalInsertions + totalDeletions);
  }

  /** The sums distribute over concatenation of commit lists. */
  lemma {:induction false} SumOfAppend(a: seq<Commit>, b: seq<Commit>, f: Figure)
    ensures SumOf(a + b, f) == SumOf(a, f) + SumOf(b, f)
  {
    if b == [] {
      assert a + b == a;
    } else {
      var init := b[..|b| - 1];
      assert (a + b)[..|a + b| - 1] == a + init;
      SumOfAppend(a, init, f);
    }
  }

  /** A commit whose statistics fail contributes nothing to any sum. */
  lemma FailedStatsContributeNothing(before: seq<Commit>, c: Commit, after: seq<Commit>, f: Figure)
    requires c.stats.None?
    ensures SumOf(before + [c] + after, f) == SumOf(before + after, f)
  {
    SumOfAppend(before + [c], after, f);
    SumOfAppend(before, after, f);
    assert (before + [c])[..|before|] == before;
  }

  /** The sums are taken over exactly the commits whose statistics succeed. */
  lemma {:induction false} SumOfSucceeded(commits: seq<Commit>, f: Figure)
    ensures SumOf(commits, f) == SumOf(Succeeded(commits), f)
  {
    if commits != [] {
      var init := commits[..|commits| - 1];
      var last := commits[|commits| - 1];
      SumOfSucceeded(init, f);
      assert SumOf(commits, f) == SumOf(init, f) + Contribution(last, f);
      if last.stats.Some? {
        assert Succeeded(commits) == Succeeded(init) + [last];
        SumOfSnoc(Succeeded(init), last, f);
      } else {
        assert Succeeded(commits) == Succeeded(init);
      }
    }
  }

  lemma SumOfSnoc(a: seq<Commit>, c: Commit, f: Figure)
    ensures SumOf(a + [c], f) == SumOf(a, f) + Contribution(c, f)
  {
    assert (a + [c])[..|a|] == a;
  }
}
