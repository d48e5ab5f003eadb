/**
 * workflow_scripts/check_if_pr_redundant.py: when some open pull request's
 * branch has no change under generated_dockerfiles/ compared with the base
 * branch, the current branch is deleted; otherwise a pull request from the
 * current branch is opened when it is ahead of the base branch.
 */
module PrRedundancy {
  import opened GitHub

  const GeneratedPrefix := "generated_dockerfiles/"
  const PullTitle := "Auto-generate Dockerfiles"
  const PullBody := "Automated update"

  /** `[file for file in diff.files if file.filename.startswith("generated_dockerfiles/")]`. */
  function GeneratedChanges(files: seq<string>): (changes: seq<string>)
    ensures forall f :: f in changes <==> f in files && GeneratedPrefix <= f
    ensures |changes| <= |files|
    decreases |files|
  {
    if |files| == 0 then []
    else
      assert forall f :: f in files <==> f == files[0] || f in files[1..];
      (if GeneratedPrefix <= files[0] then [files[0]] else []) + GeneratedChanges(files[1..])
  }

  /** A comparison with no change under generated_dockerfiles/: that branch already holds the generated files. */
  predicate Covers(diff: Comparison) {
    |GeneratedChanges(diff.files)| == 0
  }

  /** Some open pull request's branch, compared with the base branch, covers the generated files. */
  predicate SomeCovering(openPulls: seq<PullRequest>, compare: (string, string) -> Comparison, baseBranch: string) {
    exists k :: 0 <= k < |openPulls| && Covers(compare(baseBranch, openPulls[k].headRef))
  }

  /** The calls `main` makes. */
  function Calls(openPulls: seq<PullRequest>, compare: (string, string) -> Comparison,
                 currentBranch: string, baseBranch: string): seq<Action>
  {
    if SomeCovering(openPulls, compare, baseBranch) then [DeleteBranch(currentBranch)]
    else if compare(baseBranch, currentBranch).aheadBy > 0 then [CreatePull(PullTitle, PullBody, currentBranch, baseBranch)]
    else []
  }

  /**
   * `main()` over the open pull requests `repo.get_pulls(state="open")`
   * listed and the comparisons `repo.compare` reports. A refused delete or
   * create is printed and ignored, so the run always completes.
   */
  method CheckRedundant(repo: Repository, openPulls: seq<PullRequest>, compare: (string, string) -> Comparison,
                        currentBranch: string, baseBranch: string)
    modifies repo
    ensures repo.actions == old(repo.actions) + Calls(openPulls, compare, currentBranch, baseBranch)
  {
    var i := 0;
    while i < |openPulls|
      invariant 0 <= i <= |openPulls|
      invariant repo.actions == old(repo.actions)
      invariant forall k :: 0 <= k < i ==> !Covers(compare(baseBranch, openPulls[k].headRef))
    {
      var pr := openPulls[i];
      var diff := compare(baseBranch, pr.headRef);
      var generatedChanges := GeneratedChanges(diff.files);
      if |generatedChanges| == 0 {
        var deleted := repo.Request(DeleteBranch(currentBranch));
        return;
      }
      i := i + 1;
    }
    var diff := compare(baseBranch, currentBranch);
    if diff.aheadBy > 0 {
      var created := repo.Request(CreatePull(PullTitle, PullBody, currentBranch, baseBranch));
    }
  }

  /**
   * At most one call is made. The current branch is deleted exactly when some
   * open pull request covers the generated files; a pull request from the
   * current branch into the base branch is created exactly when none does and
   * the current branch is ahead; otherwise nothing happens.
   */
  lemma CallsOutcome(openPulls: seq<PullRequest>, compare: (string, string) -> Comparison,
                     currentBranch: string, baseBranch: string)
    ensures var calls := Calls(openPulls, compare, currentBranch, baseBranch);
            && |calls| <= 1
            && (DeleteBranch(currentBranch) in calls <==> SomeCovering(openPulls, compare, baseBranch))
            && (CreatePull("Auto-generate Dockerfiles", "Automated update", currentBranch, baseBranch) in calls
                <==> !SomeCovering(openPulls, compare, baseBranch) && compare(baseBranch, currentBranch).aheadBy > 0)
            && (forall a :: a in calls ==>
                  (a == DeleteBranch(currentBranch)
                   || a == CreatePull("Auto-generate Dockerfiles", "Automated update", currentBranch, baseBranch)))
  {
  }

  /** A branch covers the generated files exactly when none of its changed files is under generated_dockerfiles/. */
  lemma CoversIffNoGeneratedFile(diff: Comparison)
    ensures Covers(diff) <==> forall f :: f in diff.files ==> !(GeneratedPrefix <= f)
  {
    if !Covers(diff) {
      var changes := GeneratedChanges(diff.files);
      assert changes[0] in changes;
    }
  }

  /**
   * The prefix ends in "/": unlike the folder test of the shared script, a
   * sibling folder such as generated_dockerfiles_old/ does not count.
   */
  lemma SiblingFolderIgnored()
    ensures !(GeneratedPrefix <= "generated_dockerfiles_old/Dockerfile")
  {
    assert "generated_dockerfiles_old/Dockerfile"[21] == '_';
  }
}
