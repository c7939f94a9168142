/** The GitHub client adapter (`defaultClient`): pass-through migration calls with
    a fixed export policy, and cursor pagination over an organization's
    repositories that stops when the provider reports no next page. */
module GitHub {
  import opened Common

  /** Page size requested from the repository-listing endpoint. */
  const MaxPerPage := 100

  /** A repository as the provider reports it; a missing `archived` flag reads as false. */
  datatype Repository = Repository(name: string, archived: bool, private: bool)

  /** An export job: its numeric id and the state string the provider reports. */
  datatype Migration = Migration(id: int, state: string)

  datatype MigrationOptions = MigrationOptions(excludeAttachments: bool, excludeReleases: bool, exclude: seq<string>)

  /** The arguments of one StartMigration request sent to the SDK. */
  datatype StartRequest = StartRequest(organization: string, repoNames: seq<string>, options: MigrationOptions)

  /** The options of one repository-listing request (type, page size, page number). */
  datatype ListOptions = ListOptions(visibility: string, perPage: int, page: int)

  /** One page returned by the listing endpoint, with the provider's next-page cursor (0: none). */
  datatype Page = Page(repos: seq<Repository>, nextPage: int)

  /** The options every migration started through the client carries. */
  const ExportPolicy := MigrationOptions(true, true, ["repositories"])

  /** GetMigrationArchiveURL: the SDK's answer, unchanged. */
  function GetMigrationArchiveUrl(organization: string, migrationId: int, answer: Result<string>): (r: Result<string>)
    ensures r.Ok? <==> answer.Ok?
    ensures r.Ok? ==> r.value == answer.value
    ensures r.Err? ==> r.error == answer.error
  {
    answer
  }

  /** GetMigrationStatus: on an SDK error, that error and no migration; otherwise the migration as reported. */
  function GetMigrationStatus(organization: string, migrationId: int, answer: Result<Migration>): (r: Result<Migration>)
    ensures r.Ok? <==> answer.Ok?
    ensures r.Ok? ==> r.value == answer.value
    ensures r.Err? ==> r.error == answer.error
  {
    match answer
    case Err(e) => Err(e)
    case Ok(m) => Ok(m)
  }

  /** StartMigration: the request sent to the SDK (the given names, attachments and
      releases excluded, `exclude: ["repositories"]`) and the SDK's answer, unchanged. */
  function StartMigration(organization: string, repoNames: seq<string>, answer: Result<Migration>): (r: (StartRequest, Result<Migration>))
    ensures r.0.organization == organization && r.0.repoNames == repoNames
    ensures r.0.options.excludeAttachments && r.0.options.excludeReleases
    ensures r.0.options.exclude == ["repositories"]
    ensures r.1.Ok? <==> answer.Ok?
    ensures r.1.Ok? ==> r.1.value == answer.value
    ensures r.1.Err? ==> r.1.error == answer.error
  {
    var request := StartRequest(organization, repoNames, ExportPolicy);
    match answer
    case Err(e) => (request, Err(e))
    case Ok(m) => (request, Ok(m))
  }

  /** A listing answer after which ListOrgRepos makes no further request. */
  predicate IsLast(answer: Result<Page>) {
    answer.Err? || answer.value.nextPage == 0
  }

  /** The provider's answers, one per request in order, contain one that ends the listing. */
  predicate Ends(answers: seq<Result<Page>>) {
    exists i :: 0 <= i < |answers| && IsLast(answers[i])
  }

  /** The index of the answer that ends the listing: the number of requests made, minus one. */
  function LastRequest(answers: seq<Result<Page>>): (k: nat)
    requires Ends(answers)
    ensures k < |answers| && IsLast(answers[k])
    ensures forall j :: 0 <= j < k ==> answers[j].Ok? && answers[j].value.nextPage != 0
  {
    FirstIndex(answers, IsLast)
  }

  /** The repositories of successfully fetched pages, concatenated in order. */
  function AllRepos(pages: seq<Result<Page>>): (r: seq<Repository>)
    requires forall j :: 0 <= j < |pages| ==> pages[j].Ok?
  {
    if |pages| == 0 then [] else AllRepos(pages[..|pages| - 1]) + pages[|pages| - 1].value.repos
  }

  /** The number of repositories on the pages before page `j`. */
  function Offset(pages: seq<Result<Page>>, j: nat): (n: nat)
    requires j <= |pages|
    requires forall i :: 0 <= i < |pages| ==> pages[i].Ok?
  {
    if j == 0 then 0 else Offset(pages, j - 1) + |pages[j - 1].value.repos|
  }

  /** What ListOrgRepos returns for the provider's `answers`: the error of the first
      failing request, or every page up to and including the one with no next page. */
  function OrgRepos(answers: seq<Result<Page>>): (r: Result<seq<Repository>>)
    requires Ends(answers)
    ensures r.Ok? ==> forall j :: 0 <= j <= LastRequest(answers) ==> answers[j].Ok?
    ensures r.Err? ==> answers[LastRequest(answers)] == Err(r.error)
  {
    var k := LastRequest(answers);
    if answers[k].Err? then Err(answers[k].error) else Ok(AllRepos(answers[..k + 1]))
  }

  /** The options of request number `j`: page 1 first, then the cursor of the previous answer. */
  function RequestOptions(visibility: string, answers: seq<Result<Page>>, j: nat): (o: ListOptions)
    requires j < |answers|
    requires forall i :: 0 <= i < j ==> answers[i].Ok?
    ensures o.perPage == MaxPerPage && o.visibility == visibility
    ensures j == 0 ==> o.page == 1
    ensures j > 0 ==> o.page == answers[j - 1].value.nextPage
  {
    ListOptions(visibility, MaxPerPage, if j == 0 then 1 else answers[j - 1].value.nextPage)
  }

  /** ListOrgRepos: requests page 1, then each next-page cursor until the provider
      reports none (`NextPage == 0`); any failing request discards what was fetched. */
  method ListOrgRepos(organization: string, visibility: string, answers: seq<Result<Page>>)
    returns (result: Result<seq<Repository>>, requests: seq<ListOptions>)
    requires Ends(answers)
    ensures result == OrgRepos(answers)
    ensures |requests| == LastRequest(answers) + 1
    ensures forall j :: 0 <= j < |requests| ==> requests[j] == RequestOptions(visibility, answers, j)
  {
    var opts := ListOptions(visibility, MaxPerPage, 1);
    var allRepos: seq<Repository> := [];
    ghost var k := LastRequest(answers);
    var i := 0;
    requests := [];
    while true
      invariant 0 <= i <= k
      invariant |requests| == i
      invariant forall j :: 0 <= j < i ==> requests[j] == RequestOptions(visibility, answers, j)
      invariant opts == RequestOptions(visibility, answers, i)
      invariant allRepos == AllRepos(answers[..i])
      decreases k - i
    {
      requests := requests + [opts];
      var answer := answers[i];
      if answer.Err? {
        result := Err(answer.error);
        return;
      }
      assert answers[..i + 1][..i] == answers[..i];
      allRepos := allRepos + answer.value.repos;
      if answer.value.nextPage == 0 {
        break;
      }
      opts := opts.(page := answer.value.nextPage);
      i := i + 1;
    }
    result := Ok(allRepos);
  }

  /** The listing fails exactly when some request before the last page fails, and then
      with that request's error unchanged. */
  lemma OrgReposFailure(answers: seq<Result<Page>>)
    requires Ends(answers)
    ensures OrgRepos(answers).Err? <==> exists j :: 0 <= j <= LastRequest(answers) && answers[j].Err?
    ensures OrgRepos(answers).Err? ==> OrgRepos(answers).error == answers[LastRequest(answers)].error
  {
  }

  /** Page `j`'s repositories appear in the result, in order, at offset `Offset(pages, j)`. */
  lemma {:induction false} AllReposAt(pages: seq<Result<Page>>, j: nat, t: nat)
    requires forall i :: 0 <= i < |pages| ==> pages[i].Ok?
    requires j < |pages| && t < |pages[j].value.repos|
    ensures Offset(pages, j) + t < |AllRepos(pages)|
    ensures AllRepos(pages)[Offset(pages, j) + t] == pages[j].value.repos[t]
  {
    var n := |pages| - 1;
    var init := pages[..n];
    AllReposLength(init);
    if j < n {
      AllReposAt(init, j, t);
      OffsetPrefix(pages, init, j);
    } else {
      OffsetPrefix(pages, init, n);
      assert Offset(init, n) == |AllRepos(init)| by { AllReposLength(init); }
    }
  }

  /** The result holds every fetched repository: its length is the sum of the page sizes. */
  lemma {:induction false} AllReposLength(pages: seq<Result<Page>>)
    requires forall i :: 0 <= i < |pages| ==> pages[i].Ok?
    ensures |AllRepos(pages)| == Offset(pages, |pages|)
  {
    if |pages| > 0 {
      var init := pages[..|pages| - 1];
      AllReposLength(init);
      OffsetPrefix(pages, init, |init|);
    }
  }

  /** Offsets depend only on the pages before them. */
  lemma {:induction false} OffsetPrefix(pages: seq<Result<Page>>, init: seq<Result<Page>>, j: nat)
    requires forall i :: 0 <= i < |pages| ==> pages[i].Ok?
    requires init <= pages && j <= |init|
    ensures Offset(init, j) == Offset(pages, j)
  {
    if j > 0 {
      OffsetPrefix(pages, init, j - 1);
    }
  }

  /** Each request after the first asks for exactly the page the previous answer
      pointed to, so the listing follows the provider's cursor. */
  lemma FollowsCursor(visibility: string, answers: seq<Result<Page>>, j: nat)
    requires Ends(answers) && 0 < j <= LastRequest(answers)
    ensures RequestOptions(visibility, answers, j).page == answers[j - 1].value.nextPage != 0
  {
  }
}
