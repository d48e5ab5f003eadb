/**
 * The part of the GitHub client (PyGithub) the CI scripts use. What the
 * scripts read (open pull requests, their files, branch comparisons) is
 * given to them as values; what they change on GitHub is recorded, call by
 * call, in the repository's action trace.
 */
module GitHub {

  /** An open pull request: its number, its head branch and the names of the files it changes. */
  datatype PullRequest = PullRequest(number: int, headRef: string, files: seq<string>)

  /** What `repo.compare(base, head)` reports: the changed file names and how many commits head is ahead. */
  datatype Comparison = Comparison(files: seq<string>, aheadBy: nat)

  /** A call that changes the repository. */
  datatype Action =
    | Merge(number: int, commitMessage: string, mergeMethod: string)
    | DeleteBranch(branch: string)
    | CreatePull(title: string, body: string, head: string, base: string)

  class Repository {
    /** The changing calls made so far, in order, including the ones GitHub refused. */
    var actions: seq<Action>
    /** The calls GitHub answers with a `GithubException`. */
    const refused: set<Action>

    constructor(refused: set<Action>)
      ensures actions == [] && this.refused == refused
    {
      actions := [];
      this.refused := refused;
    }

    /** Makes one changing call; `ok` is false when GitHub raised `GithubException`. */
    method Request(action: Action) returns (ok: bool)
      modifies this
      ensures actions == old(actions) + [action]
      ensures ok <==> action !in refused
    {
      actions := actions + [action];
      ok := action !in refused;
    }
  }
}
