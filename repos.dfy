/**
 * Choosing the repository whose branch governs the colours
 * (`pickRepoForActiveEditor`) and reading its branch name.
 */
module Repos {
  import opened Wrappers

  /** A repository as the Git extension exposes it; `headName` is
      `state.HEAD.name`, None when any link of that chain is missing
      (detached or unborn HEAD). */
  datatype Repository = Repository(rootUri: string, headName: Option<string>)

  /** The Git extension's API: the host lookup from a document URI to the
      repository that owns it, and the list of open repositories. */
  datatype GitApi = GitApi(getRepository: string -> Option<Repository>, repositories: seq<Repository>)

  /** `pickRepoForActiveEditor`: the repository owning the active document
      when the host knows one, otherwise the first open repository. */
  function PickRepo(api: Option<GitApi>, activeUri: Option<string>): (r: Option<Repository>)
    ensures api.None? ==> r.None?
    ensures api.Some? && activeUri.Some? && api.value.getRepository(activeUri.value).Some? ==>
      r == api.value.getRepository(activeUri.value)
    ensures api.Some? && (activeUri.None? || api.value.getRepository(activeUri.value).None?) ==>
      (r.None? <==> api.value.repositories == []) &&
      (r.Some? ==> r.value == api.value.repositories[0])
    ensures r.None? <==>
      api.None? ||
      ((activeUri.None? || api.value.getRepository(activeUri.value).None?) && api.value.repositories == [])
  {
    match api
    case None => None
    case Some(git) =>
      var owner := if activeUri.Some? then git.getRepository(activeUri.value) else None;
      if owner.Some? then owner
      else if |git.repositories| > 0 then Some(git.repositories[0])
      else None
  }

  /** `repo?.state?.HEAD?.name`. */
  function BranchOf(repo: Option<Repository>): (b: Option<string>)
    ensures b.Some? ==> repo.Some? && b == repo.value.headName
    ensures repo.Some? ==> b == repo.value.headName
  {
    match repo
    case None => None
    case Some(r) => r.headName
  }
}
