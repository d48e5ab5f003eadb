/**
 * workflow_scripts/shared/check_if_pr_redundant.py: looks for an open pull
 * request from the current branch that changes one of the given folders;
 * squash-merges it when there is one, and deletes the current branch in
 * either case.
 */
module SharedPrCheck {
  import opened Wrappers
  import opened Text
  import opened GitHub

  /** The `--folder` default, given to the parser like a command-line value. */
  const DefaultFolderArg := "generated_dockerfiles"
  const MergeMessage := "Merge via Github Action"
  const MergeMethod := "squash"

  /** `[f.strip() for f in parts if f.strip()]`. */
  function KeepFolders(parts: seq<string>): seq<string>
    decreases |parts|
  {
    if |parts| == 0 then []
    else (if Strip(parts[0]) != "" then [Strip(parts[0])] else []) + KeepFolders(parts[1..])
  }

  /** The `--folder` parser: split at ",", strip each piece, drop the empty ones. */
  function ParseFolders(s: string): seq<string> {
    KeepFolders(Split(s, ','))
  }

  /** Every parsed folder is non-empty, has no whitespace at either end and holds no ",". */
  lemma {:induction false} KeptFolders(parts: seq<string>)
    requires forall p :: p in parts ==> ',' !in p
    ensures forall f :: f in KeepFolders(parts) ==> f != "" && Stripped(f) && ',' !in f
    decreases |parts|
  {
    if |parts| > 0 {
      KeptFolders(parts[1..]);
      var p := parts[0];
      var f := Strip(p);
      StripResult(p);
      var i :| OccursAt(p, f, i);
      forall k | 0 <= k < |f| ensures f[k] != ',' {
        assert f[k] == p[i + k] && p[i + k] in p;
      }
    }
  }

  lemma ParsedFolders(s: string)
    ensures forall f :: f in ParseFolders(s) ==> f != "" && Stripped(f) && ',' !in f
  {
    KeptFolders(Split(s, ','));
  }

  /** Folders already in parsed form pass through the filter unchanged. */
  lemma {:induction false} KeepFoldersKeeps(folders: seq<string>)
    requires forall f :: f in folders ==> f != "" && Stripped(f)
    ensures KeepFolders(folders) == folders
    decreases |folders|
  {
    if |folders| > 0 {
      StripStripped(folders[0]);
      assert forall f :: f in folders[1..] ==> f in folders;
      KeepFoldersKeeps(folders[1..]);
    }
  }

  /**
   * Joining parsed folders with "," and parsing the result gives them back:
   * the parser loses nothing and invents nothing.
   */
  lemma ParseFoldersJoin(folders: seq<string>)
    requires forall f :: f in folders ==> f != "" && Stripped(f) && ',' !in f
    ensures ParseFolders(Join(folders, ",")) == folders
  {
    if |folders| == 0 {
      assert Split("", ',') == [""];
    } else {
      SplitJoin(folders, ',');
      KeepFoldersKeeps(folders);
    }
  }

  /** Without `--folder` the script looks at generated_dockerfiles only. */
  lemma DefaultFolders()
    ensures ParseFolders(DefaultFolderArg) == [DefaultFolderArg]
  {
    assert Stripped(DefaultFolderArg) by {
      assert DefaultFolderArg[0] == 'g' && DefaultFolderArg[|DefaultFolderArg| - 1] == 's';
    }
    assert ',' !in DefaultFolderArg;
    ParseFoldersJoin([DefaultFolderArg]);
  }

  /** `any(filename.startswith(folder) for folder in folders)`. */
  function StartsWithAny(filename: string, folders: seq<string>): (r: bool)
    ensures r <==> exists f :: f in folders && f <= filename
    decreases |folders|
  {
    if |folders| == 0 then false
    else
      assert folders[0] in folders;
      assert forall f :: f in folders <==> f == folders[0] || f in folders[1..];
      folders[0] <= filename || StartsWithAny(filename, folders[1..])
  }

  /**
   * The test is a plain text prefix, not a path one: a folder also matches the
   * files of every sibling folder whose name it starts.
   */
  lemma RawPrefixMatch()
    ensures StartsWithAny("generated_dockerfiles_old/Dockerfile", [DefaultFolderArg])
  {
  }

  /** The pull request changes a file under one of the folders. */
  predicate HasChanges(pr: PullRequest, folders: seq<string>) {
    exists file :: file in pr.files && StartsWithAny(file, folders)
  }

  /** The pull request `check_existing_prs` returns for a listing. */
  function FirstWithChanges(prs: seq<PullRequest>, folders: seq<string>): Option<PullRequest>
    decreases |prs|
  {
    if |prs| == 0 then None
    else if HasChanges(prs[0], folders) then Some(prs[0])
    else FirstWithChanges(prs[1..], folders)
  }

  /**
   * The result is the first listed pull request with a change under one of
   * the folders, and None exactly when no listed pull request has one.
   */
  lemma {:induction false} FirstWithChangesIsFirst(prs: seq<PullRequest>, folders: seq<string>)
    ensures FirstWithChanges(prs, folders).None? <==> forall i :: 0 <= i < |prs| ==> !HasChanges(prs[i], folders)
    ensures FirstWithChanges(prs, folders).Some? ==>
              exists i :: 0 <= i < |prs| && prs[i] == FirstWithChanges(prs, folders).value
                          && HasChanges(prs[i], folders)
                          && forall j :: 0 <= j < i ==> !HasChanges(prs[j], folders)
    decreases |prs|
  {
    if |prs| > 0 && !HasChanges(prs[0], folders) {
      FirstWithChangesIsFirst(prs[1..], folders);
      if FirstWithChanges(prs, folders).Some? {
        var i :| 0 <= i < |prs[1..]| && prs[1..][i] == FirstWithChanges(prs, folders).value
                 && HasChanges(prs[1..][i], folders)
                 && forall j :: 0 <= j < i ==> !HasChanges(prs[1..][j], folders);
        assert prs[i + 1] == prs[1..][i];
        forall j | 0 <= j < i + 1 ensures !HasChanges(prs[j], folders) {
          if j > 0 {
            assert prs[j] == prs[1..][j - 1];
          }
        }
      } else {
        forall i | 0 <= i < |prs| ensures !HasChanges(prs[i], folders) {
          if i > 0 {
            assert prs[i] == prs[1..][i - 1];
          }
        }
      }
    }
  }

  /** With an empty folder list nothing is found. */
  lemma {:induction false} NoFoldersNothingFound(prs: seq<PullRequest>)
    ensures FirstWithChanges(prs, []) == None
    decreases |prs|
  {
    if |prs| > 0 {
      NoFoldersNothingFound(prs[1..]);
    }
  }

  /** `check_existing_prs` over the pull requests `repo.get_pulls` listed for the branches. */
  method CheckExistingPrs(prs: seq<PullRequest>, folders: seq<string>) returns (found: Option<PullRequest>)
    ensures found == FirstWithChanges(prs, folders)
  {
    var i := 0;
    while i < |prs|
      invariant 0 <= i <= |prs|
      invariant FirstWithChanges(prs, folders) == FirstWithChanges(prs[i..], folders)
    {
      var pr := prs[i];
      assert prs[i..][0] == pr && prs[i..][1..] == prs[i + 1..];
      var j := 0;
      while j < |pr.files|
        invariant 0 <= j <= |pr.files|
        invariant forall k :: 0 <= k < j ==> !StartsWithAny(pr.files[k], folders)
      {
        if StartsWithAny(pr.files[j], folders) {
          return Some(pr);
        }
        j := j + 1;
      }
      i := i + 1;
    }
    return None;
  }

  /** The calls `main` makes when none is refused: merge the found pull request, then delete the branch. */
  function Plan(found: Option<PullRequest>, currentBranch: string): seq<Action> {
    (if found.Some? then [Merge(found.value.number, MergeMessage, MergeMethod)] else [])
    + [DeleteBranch(currentBranch)]
  }

  /** The calls made from a plan: each in turn, up to and including the first one GitHub refuses. */
  function Performed(plan: seq<Action>, refused: set<Action>): (done: seq<Action>)
    ensures done <= plan
    ensures |done| < |plan| ==> |done| > 0 && done[|done| - 1] in refused
    ensures forall k :: 0 <= k < |done| - 1 ==> done[k] !in refused
    decreases |plan|
  {
    if |plan| == 0 then []
    else if plan[0] in refused then [plan[0]]
    else [plan[0]] + Performed(plan[1..], refused)
  }

  /**
   * `main` deletes the current branch exactly once, as its last call, and
   * merges (squash, with the fixed message) exactly when a pull request was
   * found, before the delete.
   */
  lemma PlanShape(found: Option<PullRequest>, currentBranch: string)
    ensures var plan := Plan(found, currentBranch);
            && plan[|plan| - 1] == DeleteBranch(currentBranch)
            && (forall k :: 0 <= k < |plan| - 1 ==> !plan[k].DeleteBranch?)
            && (found.Some? <==> |plan| == 2)
            && (found.Some? ==> plan[0] == Merge(found.value.number, "Merge via Github Action", "squash"))
  {
  }

  /** A refused merge raises out of `main`: the branch is then not deleted. */
  lemma RefusedMergeKeepsBranch(pr: PullRequest, currentBranch: string, refused: set<Action>)
    requires Merge(pr.number, MergeMessage, MergeMethod) in refused
    ensures Performed(Plan(Some(pr), currentBranch), refused) == [Merge(pr.number, MergeMessage, MergeMethod)]
  {
  }

  /**
   * `main()` with the parsed `--folder` list: makes the planned calls in turn;
   * a refused call raises and ends the run (`completed` false).
   */
  method MergeOrDelete(repo: Repository, prs: seq<PullRequest>, folders: seq<string>, currentBranch: string)
    returns (completed: bool)
    modifies repo
    ensures repo.actions == old(repo.actions) + Performed(Plan(FirstWithChanges(prs, folders), currentBranch), repo.refused)
    ensures completed <==> forall a :: a in Plan(FirstWithChanges(prs, folders), currentBranch) ==> a !in repo.refused
  {
    var existingPr := CheckExistingPrs(prs, folders);
    if existingPr.Some? {
      var merged := repo.Request(Merge(existingPr.value.number, MergeMessage, MergeMethod));
      if !merged {
        return false;
      }
      completed := repo.Request(DeleteBranch(currentBranch));
    } else {
      completed := repo.Request(DeleteBranch(currentBranch));
    }
  }
}
