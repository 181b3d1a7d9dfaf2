/**
 * The history-extraction side of `GitRepository`: matching commits to the
 * target authors and bucketing them by author name. Enumerating commits,
 * reading their statistics and their diffs is done by the git library; the
 * model takes its results as input (`Commit`).
 */
module GitRepository {
  import opened Wrappers
  import opened Text

  /** `commit.stats.total`: inserted lines, deleted lines, files touched. */
  datatype Stats = Stats(insertions: nat, deletions: nat, files: nat)

  /**
   * One enumerated commit. `stats` is `None` when reading the statistics
   * raises; `diffLines` is what the diff reader returned for the commit
   * (the empty list when reading the diff failed).
   */
  datatype Commit = Commit(id: string, author: string, stats: Option<Stats>, diffLines: seq<string>)

  /** `target in author or author in target` */
  predicate Related(target: string, author: string) {
    Contains(author, target) || Contains(target, author)
  }

  /** Some target name is related to `author`. */
  predicate IsTarget(author: string, targets: seq<string>) {
    exists t :: t in targets && Related(t, author)
  }

  /** No element occurs twice. */
  predicate Distinct<T(==)>(s: seq<T>) {
    forall i, j :: 0 <= i < j < |s| ==> s[i] != s[j]
  }

  /** The commits of `commits` whose author is exactly `author`, in enumeration order. */
  function CommitsOf(commits: seq<Commit>, author: string): seq<Commit> {
    if commits == [] then []
    else
      var last := commits[|commits| - 1];
      CommitsOf(commits[..|commits| - 1], author) + (if last.author == author then [last] else [])
  }

  /** The commits whose author is a target author, in enumeration order. */
  function MatchedCommits(commits: seq<Commit>, targets: seq<string>): seq<Commit> {
    if commits == [] then []
    else
      var last := commits[|commits| - 1];
      MatchedCommits(commits[..|commits| - 1], targets) + (if IsTarget(last.author, targets) then [last] else [])
  }

  /**
   * The bucket keys in the order a Python dict keeps them: each matched
   * author name once, at the position of its first matched commit.
   */
  function MatchedAuthors(commits: seq<Commit>, targets: seq<string>): seq<string> {
    if commits == [] then []
    else
      var prev := MatchedAuthors(commits[..|commits| - 1], targets);
      var name := commits[|commits| - 1].author;
      if IsTarget(name, targets) && name !in prev then prev + [name] else prev
  }

  /**
   * The state of the bucketing loop after the commits `done`: the keys in
   * first-seen order, and each key's bucket holding its own commits.
   */
  ghost predicate Grouped(done: seq<Commit>, targets: seq<string>, authors: seq<string>, buckets: map<string, seq<Commit>>) {
    && authors == MatchedAuthors(done, targets)
    && (forall a :: a in buckets <==> a in authors)
    && forall a :: a in buckets ==> buckets[a] == CommitsOf(done, a)
  }

  /**
   * `get_commits_by_author_and_time` after the git query: every commit whose
   * author is related to some target is appended to the bucket of its OWN
   * author name; the inner loop stops at the first related target.
   */
  method CommitsByAuthor(commits: seq<Commit>, targets: seq<string>)
    returns (authors: seq<string>, buckets: map<string, seq<Commit>>)
    ensures authors == MatchedAuthors(commits, targets)
    ensures buckets.Keys == set a | a in authors
    ensures forall a :: a in buckets ==> buckets[a] == CommitsOf(commits, a)
  {
    authors, buckets := [], map[];
    var i := 0;
    while i < |commits|
      invariant 0 <= i <= |commits|
      invariant Grouped(commits[..i], targets, authors, buckets)
    {
      var commit := commits[i];
      var name := commit.author;
      ghost var prevAuthors, prevBuckets := authors, buckets;
      var j := 0;
      ghost var matched := false;
      while j < |targets|
        invariant 0 <= j <= |targets|
        invariant forall k :: 0 <= k < j ==> !Related(targets[k], name)
        invariant !matched && authors == prevAuthors && buckets == prevBuckets
      {
        if Contains(name, targets[j]) || Contains(targets[j], name) {
          assert Related(targets[j], name) && targets[j] in targets;
          if name in buckets {
            GroupedExtend(commits, i, targets, authors, buckets);
            buckets := buckets[name := buckets[name] + [commit]];
          } else {
            GroupedNewKey(commits, i, targets, authors, buckets);
            buckets := buckets[name := [commit]];
            authors := authors + [name];
          }
          matched := true;
          break;
        }
        j := j + 1;
      }
      if !matched {
        forall t | t in targets ensures !Related(t, name) {
          var k :| 0 <= k < |targets| && targets[k] == t;
        }
        GroupedSkip(commits, i, targets, authors, buckets);
      }
      i := i + 1;
    }
    assert commits[..|commits|] == commits;
    assert buckets.Keys == set a | a in authors;
  }

  /** A commit whose author is no target changes nothing. */
  lemma GroupedSkip(commits: seq<Commit>, i: nat, targets: seq<string>,
                    authors: seq<string>, buckets: map<string, seq<Commit>>)
    requires i < |commits| && Grouped(commits[..i], targets, authors, buckets)
    requires !IsTarget(commits[i].author, targets)
    ensures Grouped(commits[..i + 1], targets, authors, buckets)
  {
    MatchedAuthorsStep(commits, i, targets);
    CommitsOfStep(commits, i);
    MatchedAuthorsMembers(commits[..i], targets, commits[i].author);
  }

  /** A target author's later commit is appended to the author's existing bucket. */
  lemma GroupedExtend(commits: seq<Commit>, i: nat, targets: seq<string>,
                      authors: seq<string>, buckets: map<string, seq<Commit>>)
    requires i < |commits| && Grouped(commits[..i], targets, authors, buckets)
    requires IsTarget(commits[i].author, targets) && commits[i].author in buckets
    ensures Grouped(commits[..i + 1], targets, authors, buckets[commits[i].author := buckets[commits[i].author] + [commits[i]]])
  {
    MatchedAuthorsStep(commits, i, targets);
    CommitsOfStep(commits, i);
  }

  /** A target author's first commit opens a new bucket, keyed last. */
  lemma GroupedNewKey(commits: seq<Commit>, i: nat, targets: seq<string>,
                      authors: seq<string>, buckets: map<string, seq<Commit>>)
    requires i < |commits| && Grouped(commits[..i], targets, authors, buckets)
    requires IsTarget(commits[i].author, targets) && commits[i].author !in buckets
    ensures Grouped(commits[..i + 1], targets, authors + [commits[i].author], buckets[commits[i].author := [commits[i]]])
  {
    var name := commits[i].author;
    var nb := buckets[name := [commits[i]]];
    MatchedAuthorsStep(commits, i, targets);
    CommitsOfStep(commits, i);
    MatchedAuthorsMembers(commits[..i], targets, name);
    assert name !in authors;
    assert CommitsOf(commits[..i], name) == [];
    forall a | a in nb ensures nb[a] == CommitsOf(commits[..i + 1], a) {
      if a != name { assert a in buckets; }
    }
    forall a ensures a in nb <==> a in authors + [name] {
      assert a in nb <==> a in buckets || a == name;
    }
  }

  /** One more commit: its author becomes a new key when it is a target author not seen before. */
  lemma MatchedAuthorsStep(commits: seq<Commit>, i: nat, targets: seq<string>)
    requires i < |commits|
    ensures var prev := MatchedAuthors(commits[..i], targets);
      var name := commits[i].author;
      MatchedAuthors(commits[..i + 1], targets) == if IsTarget(name, targets) && name !in prev then prev + [name] else prev
  {
    assert commits[..i + 1][..i] == commits[..i];
  }

  /** One more commit joins the commit list of its own author only. */
  lemma CommitsOfStep(commits: seq<Commit>, i: nat)
    requires i < |commits|
    ensures forall a ::
              CommitsOf(commits[..i + 1], a) == CommitsOf(commits[..i], a) + (if commits[i].author == a then [commits[i]] else [])
  {
    assert commits[..i + 1][..i] == commits[..i];
  }

  /** A name is a bucket key iff it is a target author with at least one commit. */
  lemma {:induction false} MatchedAuthorsMembers(commits: seq<Commit>, targets: seq<string>, a: string)
    ensures a in MatchedAuthors(commits, targets) <==> IsTarget(a, targets) && CommitsOf(commits, a) != []
  {
    if commits != [] {
      MatchedAuthorsMembers(commits[..|commits| - 1], targets, a);
    }
  }

  /** Bucket keys are pairwise distinct. */
  lemma {:induction false} MatchedAuthorsDistinct(commits: seq<Commit>, targets: seq<string>)
    ensures Distinct(MatchedAuthors(commits, targets))
  {
    if commits != [] {
      MatchedAuthorsDistinct(commits[..|commits| - 1], targets);
    }
  }

  /** A bucket holds only commits of its own author, in enumeration order. */
  lemma {:induction false} CommitsOfAuthor(commits: seq<Commit>, a: string)
    ensures forall c :: c in CommitsOf(commits, a) ==> c in commits && c.author == a
  {
    if commits != [] {
      CommitsOfAuthor(commits[..|commits| - 1], a);
    }
  }

  /** A commit whose author is a target lands in the bucket of its own author. */
  lemma {:induction false} MatchedCommitBucketed(commits: seq<Commit>, targets: seq<string>, i: nat)
    requires i < |commits| && IsTarget(commits[i].author, targets)
    ensures commits[i].author in MatchedAuthors(commits, targets)
    ensures commits[i] in CommitsOf(commits, commits[i].author)
  {
    CommitsOfContains(commits, i);
    MatchedAuthorsMembers(commits, targets, commits[i].author);
  }

  lemma {:induction false} CommitsOfContains(commits: seq<Commit>, i: nat)
    requires i < |commits|
    ensures commits[i] in CommitsOf(commits, commits[i].author)
  {
    var init := commits[..|commits| - 1];
    if i < |commits| - 1 {
      assert init[i] == commits[i];
      CommitsOfContains(init, i);
    }
  }

  /** The summed sizes of the buckets of `authors`. */
  function BucketSizes(authors: seq<string>, commits: seq<Commit>): nat {
    if authors == [] then 0
    else BucketSizes(authors[..|authors| - 1], commits) + |CommitsOf(commits, authors[|authors| - 1])|
  }

  /**
   * Every matched commit is placed exactly once: the buckets together hold as
   * many commits as there are matched commits.
   */
  lemma {:induction false} EveryMatchedCommitOnce(commits: seq<Commit>, targets: seq<string>)
    ensures BucketSizes(MatchedAuthors(commits, targets), commits) == |MatchedCommits(commits, targets)|
  {
    if commits != [] {
      var init := commits[..|commits| - 1];
      var last := commits[|commits| - 1];
      var prev := MatchedAuthors(init, targets);
      var name := last.author;
      assert init + [last] == commits;
      EveryMatchedCommitOnce(init, targets);
      BucketSizesStep(prev, init, last);
      assert BucketSizes(prev, commits) == BucketSizes(prev, init) + multiset(prev)[name];
      MatchedAuthorsDistinct(init, targets);
      DistinctCount(prev, name);
      MatchedAuthorsMembers(init, targets, name);
      if IsTarget(name, targets) && name !in prev {
        assert MatchedAuthors(commits, targets) == prev + [name];
        assert (prev + [name])[..|prev|] == prev;
        assert CommitsOf(commits, name) == CommitsOf(init, name) + [last];
        assert BucketSizes(prev + [name], commits) == BucketSizes(prev, commits) + 1;
      } else {
        assert MatchedAuthors(commits, targets) == prev;
      }
    }
  }

  /** Appending one commit grows the buckets of `authors` by the number of times its author is listed. */
  lemma {:induction false} BucketSizesStep(authors: seq<string>, commits: seq<Commit>, c: Commit)
    ensures BucketSizes(authors, commits + [c]) == BucketSizes(authors, commits) + multiset(authors)[c.author]
  {
    assert (commits + [c])[..|commits|] == commits;
    if authors != [] {
      var init := authors[..|authors| - 1];
      BucketSizesStep(init, commits, c);
      assert authors == init + [authors[|authors| - 1]];
    }
  }

  lemma {:induction false} DistinctCount<T>(s: seq<T>, x: T)
    requires Distinct(s)
    ensures multiset(s)[x] == if x in s then 1 else 0
  {
    if s != [] {
      var init := s[..|s| - 1];
      DistinctCount(init, x);
      assert s == init + [s[|s| - 1]];
    }
  }

  /** Only the set of target names matters: reordering or repeating targets changes nothing. */
  lemma {:induction false} TargetOrderIrrelevant(commits: seq<Commit>, t1: seq<string>, t2: seq<string>)
    requires forall t :: t in t1 <==> t in t2
    ensures MatchedAuthors(commits, t1) == MatchedAuthors(commits, t2)
    ensures MatchedCommits(commits, t1) == MatchedCommits(commits, t2)
  {
    if commits != [] {
      TargetOrderIrrelevant(commits[..|commits| - 1], t1, t2);
      var name := commits[|commits| - 1].author;
      assert IsTarget(name, t1) == IsTarget(name, t2);
    }
  }

  /** Matching is symmetric: a commit authored by exactly a target name matches that target. */
  lemma ExactTargetMatches(t: string, targets: seq<string>)
    requires t in targets
    ensures IsTarget(t, targets)
  {
    assert StartsWith(t, t);
  }
}
