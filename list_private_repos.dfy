/** The repository lister: pages through an organization's private repositories
    (page size 100, starting at page 1, advancing only while the provider's cursor
    moves forward), then drops archived repositories, keeping the provider's order. */
module ListPrivateRepos {
  import opened Common
  import opened GitHub

  /** The repository type requested from the listing endpoint. */
  const Visibility := "private"

  /** An answer after which the lister stops, when it was the answer to a request for `page`. */
  predicate StopsAt(answer: Result<Page>, page: int) {
    answer.Err? || answer.value.nextPage <= page
  }

  /** The provider's `answers`, one per request in order, stop the listing when the
      first request is for `page`. */
  predicate Halts(answers: seq<Result<Page>>, page: int)
    decreases |answers|
  {
    |answers| > 0 && (StopsAt(answers[0], page) || Halts(answers[1..], answers[0].value.nextPage))
  }

  /** The page numbers requested, starting from `page`. */
  function PagesRequested(answers: seq<Result<Page>>, page: int): (pages: seq<int>)
    requires Halts(answers, page)
    ensures 1 <= |pages| <= |answers|
    decreases |answers|
  {
    if StopsAt(answers[0], page) then [page]
    else [page] + PagesRequested(answers[1..], answers[0].value.nextPage)
  }

  /** The repositories fetched, all pages concatenated in order, or the error of the
      first failing request. */
  function Fetched(answers: seq<Result<Page>>, page: int): (r: Result<seq<Repository>>)
    requires Halts(answers, page)
    decreases |answers|
  {
    match answers[0]
    case Err(e) => Err(e)
    case Ok(p) =>
      if p.nextPage <= page then Ok(p.repos)
      else Prepend(p.repos, Fetched(answers[1..], p.nextPage))
  }

  /** `prefix` followed by the repositories of `rest`, or `rest`'s error. */
  function Prepend(prefix: seq<Repository>, rest: Result<seq<Repository>>): (r: Result<seq<Repository>>)
  {
    match rest
    case Err(e) => Err(e)
    case Ok(s) => Ok(prefix + s)
  }

  lemma PrependNothing(rest: Result<seq<Repository>>)
    ensures Prepend([], rest) == rest
  {
    if rest.Ok? {
      assert [] + rest.value == rest.value;
    }
  }

  lemma PrependTwice(a: seq<Repository>, b: seq<Repository>, rest: Result<seq<Repository>>)
    ensures Prepend(a, Prepend(b, rest)) == Prepend(a + b, rest)
  {
    if rest.Ok? {
      assert a + (b + rest.value) == (a + b) + rest.value;
    }
  }

  /** The repositories of `repos` that are not archived, in their original order. */
  function NonArchived(repos: seq<Repository>): (r: seq<Repository>)
    ensures |r| <= |repos|
    ensures forall i :: 0 <= i < |r| ==> !r[i].archived
  {
    if |repos| == 0 then []
    else
      var last := repos[|repos| - 1];
      NonArchived(repos[..|repos| - 1]) + (if last.archived then [] else [last])
  }

  /** The number of archived repositories in `repos`. */
  function ArchivedCount(repos: seq<Repository>): (n: nat)
  {
    if |repos| == 0 then 0
    else ArchivedCount(repos[1..]) + (if repos[0].archived then 1 else 0)
  }

  /** What the lister returns: the non-archived repositories of every fetched page,
      or the first request's error unchanged (no partial result). */
  function Listed(answers: seq<Result<Page>>): (r: Result<seq<Repository>>)
    requires Halts(answers, 1)
    ensures r.Err? <==> Fetched(answers, 1).Err?
    ensures r.Err? ==> r.error == Fetched(answers, 1).error
    ensures r.Ok? ==> forall i :: 0 <= i < |r.value| ==> !r.value[i].archived
  {
    match Fetched(answers, 1)
    case Err(e) => Err(e)
    case Ok(all) => Ok(NonArchived(all))
  }

  /** listPrivateReposUseCase.Do: the paging loop, then the filter loop. */
  method Do(organization: string, answers: seq<Result<Page>>)
    returns (result: Result<seq<Repository>>, requests: seq<ListOptions>)
    requires Halts(answers, 1)
    ensures result == Listed(answers)
    ensures |requests| == |PagesRequested(answers, 1)|
    ensures forall j :: 0 <= j < |requests| ==>
              requests[j] == ListOptions(Visibility, MaxPerPage, PagesRequested(answers, 1)[j])
  {
    var fetched;
    fetched, requests := FetchPages(answers);
    if fetched.Err? {
      result := Err(fetched.error);
      return;
    }
    var filtered := DropArchived(fetched.value);
    result := Ok(filtered);
  }

  /** The paging loop of listPrivateReposUseCase.Do: requests page 1 and then each
      cursor past the current page, collecting the repositories of every page. */
  method FetchPages(answers: seq<Result<Page>>)
    returns (fetched: Result<seq<Repository>>, requests: seq<ListOptions>)
    requires Halts(answers, 1)
    ensures fetched == Fetched(answers, 1)
    ensures |requests| == |PagesRequested(answers, 1)|
    ensures forall j :: 0 <= j < |requests| ==>
              requests[j] == ListOptions(Visibility, MaxPerPage, PagesRequested(answers, 1)[j])
  {
    var repos: seq<Repository> := [];
    var hasMore := true;
    var page := 1;
    var i := 0;
    ghost var pages: seq<int> := [];
    requests := [];
    assert answers[i..] == answers;
    PrependNothing(Fetched(answers, 1));
    while hasMore
      invariant 0 <= i <= |answers|
      invariant hasMore ==> Halts(answers[i..], page)
      invariant |requests| == |pages|
      invariant forall j :: 0 <= j < |requests| ==> requests[j] == ListOptions(Visibility, MaxPerPage, pages[j])
      invariant hasMore ==> Fetched(answers, 1) == Prepend(repos, Fetched(answers[i..], page))
      invariant hasMore ==> PagesRequested(answers, 1) == pages + PagesRequested(answers[i..], page)
      invariant !hasMore ==> Fetched(answers, 1) == Ok(repos) && PagesRequested(answers, 1) == pages
      decreases |answers| - i, hasMore
    {
      var options := ListOptions(Visibility, MaxPerPage, page);
      requests := requests + [options];
      pages := pages + [page];
      var answer := answers[i];
      assert answers[i..][0] == answer;
      assert answers[i..][1..] == answers[i + 1..];
      if answer.Err? {
        fetched := Err(answer.error);
        return;
      }
      if answer.value.nextPage > page {
        PrependTwice(repos, answer.value.repos, Fetched(answers[i + 1..], answer.value.nextPage));
      }
      repos := repos + answer.value.repos;
      if answer.value.nextPage > page {
        page := answer.value.nextPage;
        i := i + 1;
      } else {
        hasMore := false;
      }
    }

    fetched := Ok(repos);
  }

  /** The filter loop of listPrivateReposUseCase.Do: keeps the repositories that are
      not archived, in order. */
  method DropArchived(repos: seq<Repository>) returns (filtered: seq<Repository>)
    ensures filtered == NonArchived(repos)
  {
    filtered := [];
    var n := 0;
    while n < |repos|
      invariant 0 <= n <= |repos|
      invariant filtered == NonArchived(repos[..n])
    {
      assert repos[..n + 1][..n] == repos[..n];
      if !repos[n].archived {
        filtered := filtered + [repos[n]];
      }
      n := n + 1;
    }
    assert repos[..n] == repos;
  }

  /** The requested page numbers start at `page` and strictly increase. */
  lemma {:induction false} PagesIncrease(answers: seq<Result<Page>>, page: int)
    requires Halts(answers, page)
    ensures PagesRequested(answers, page)[0] == page
    ensures forall j :: 0 < j < |PagesRequested(answers, page)| ==>
              PagesRequested(answers, page)[j - 1] < PagesRequested(answers, page)[j]
  {
    if !StopsAt(answers[0], page) {
      PagesIncrease(answers[1..], answers[0].value.nextPage);
    }
  }

  /** Each request after the first asks for the page the previous answer named as
      next, which lay past the page it answered; the last request is the one whose
      answer stops the listing (an error, or a next page not past its page). */
  lemma {:induction false} PagesFollowCursor(answers: seq<Result<Page>>, page: int)
    requires Halts(answers, page)
    ensures var pages := PagesRequested(answers, page);
            forall j :: 0 <= j < |pages| - 1 ==>
              answers[j].Ok? && pages[j] < answers[j].value.nextPage == pages[j + 1]
    ensures var pages := PagesRequested(answers, page);
            StopsAt(answers[|pages| - 1], pages[|pages| - 1])
    decreases |answers|
  {
    if !StopsAt(answers[0], page) {
      var rest := answers[1..];
      var next := answers[0].value.nextPage;
      PagesFollowCursor(rest, next);
      var pages := PagesRequested(answers, page);
      var restPages := PagesRequested(rest, next);
      assert pages == [page] + restPages;
      assert pages[1] == restPages[0] == next by {
        PagesIncrease(rest, next);
      }
      forall j | 1 <= j < |pages| - 1
        ensures answers[j].Ok? && pages[j] < answers[j].value.nextPage == pages[j + 1]
      {
        assert answers[j] == rest[j - 1];
        assert pages[j] == restPages[j - 1] && pages[j + 1] == restPages[j];
      }
      assert answers[|pages| - 1] == rest[|restPages| - 1];
    }
  }

  /** Keeping the non-archived repositories of a concatenation keeps each part's in
      turn: the filter preserves relative order across pages. */
  lemma {:induction false} NonArchivedAppend(a: seq<Repository>, b: seq<Repository>)
    ensures NonArchived(a + b) == NonArchived(a) + NonArchived(b)
    decreases |b|
  {
    if |b| > 0 {
      var ab := a + b;
      assert ab[..|ab| - 1] == a + b[..|b| - 1];
      NonArchivedAppend(a, b[..|b| - 1]);
    } else {
      assert a + b == a;
    }
  }

  /** A repository is kept exactly when it was listed and is not archived. */
  lemma {:induction false} NonArchivedMembers(repos: seq<Repository>, x: Repository)
    ensures x in NonArchived(repos) <==> x in repos && !x.archived
  {
    if |repos| > 0 {
      var init := repos[..|repos| - 1];
      NonArchivedMembers(init, x);
      assert repos == init + [repos[|repos| - 1]];
    }
  }

  /** The output has exactly as many repositories as were listed minus the archived ones. */
  lemma {:induction false} NonArchivedLength(repos: seq<Repository>)
    ensures |NonArchived(repos)| == |repos| - ArchivedCount(repos)
  {
    if |repos| > 0 {
      var rest := repos[1..];
      NonArchivedLength(rest);
      NonArchivedAppend([repos[0]], rest);
      assert repos == [repos[0]] + rest;
      assert NonArchived([repos[0]]) == (if repos[0].archived then [] else [repos[0]]) by {
        assert [repos[0]][..0] == [];
      }
    }
  }

  /** The listing fails exactly when the last request made fails, and then with
      that request's error unchanged; every earlier request succeeded. */
  lemma {:induction false} FetchedFailure(answers: seq<Result<Page>>, page: int)
    requires Halts(answers, page)
    ensures var last := answers[|PagesRequested(answers, page)| - 1];
            (Fetched(answers, page).Err? <==> last.Err?) &&
            (last.Err? ==> Fetched(answers, page) == Err(last.error))
    ensures forall j :: 0 <= j < |PagesRequested(answers, page)| - 1 ==> answers[j].Ok?
    decreases |answers|
  {
    if !StopsAt(answers[0], page) {
      var rest := answers[1..];
      FetchedFailure(rest, answers[0].value.nextPage);
      var n := |PagesRequested(rest, answers[0].value.nextPage)|;
      assert answers[n] == rest[n - 1];
      assert forall j :: 1 <= j < n ==> answers[j] == rest[j - 1];
    }
  }

  /** The test scenario: private repositories repo1, repo2 (archived) and repo3 on one
      page list as repo1 and repo3. */
  lemma DropsArchivedExample()
    ensures Listed([Ok(Page([Repository("repo1", false, true), Repository("repo2", true, true),
                             Repository("repo3", false, true)], 0))])
         == Ok([Repository("repo1", false, true), Repository("repo3", false, true)])
  {
    var r1, r2, r3 := Repository("repo1", false, true), Repository("repo2", true, true), Repository("repo3", false, true);
    assert Fetched([Ok(Page([r1, r2, r3], 0))], 1) == Ok([r1, r2, r3]);
    assert [r1][..0] == [];
    assert NonArchived([r1]) == [r1];
    assert [r1, r2][..1] == [r1];
    assert NonArchived([r1, r2]) == [r1];
    assert [r1, r2, r3][..2] == [r1, r2];
    assert NonArchived([r1, r2, r3]) == [r1, r3];
  }
}
