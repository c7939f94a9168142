/** The backup orchestrator (`createBackupUseCase`): list the private repositories,
    start an export of exactly those, poll the export's status on every tick until it
    is "exported" (or "failed", or a status call errors, or the context is done),
    resolve the archive URL, download it and hand the body to the caller's sink once.

    Every collaborator is an oracle: the lister's, StartMigration's, the resolver's
    and the HTTP GET's answers are given, the polling loop receives a sequence of
    `select` events, and the sink is a function of the downloaded body. A run records
    the calls made, in order. */
module CreateBackup {
  import opened Common
  import opened GitHub

  /** `time.Duration` counts nanoseconds. */
  const DefaultPollingInterval := 5 * 1_000_000_000

  const StatusOK := 200

  /** What the `select` of the polling loop receives. */
  datatype Event =
    | Tick(status: Result<Migration>) // the ticker fired; GetMigrationStatus answered `status`
    | Done(cause: Error)              // the context finished; ctx.Err() is `cause`

  /** An HTTP response: status code, status line and body. */
  datatype Response = Response(statusCode: int, status: string, body: seq<byte>)

  /** The answers of the collaborators called at most once per run. */
  datatype Collaborators = Collaborators(
    listed: Result<seq<Repository>>, // listPrivateReposUseCase.Do
    started: Result<Migration>,      // StartMigration
    polls: seq<Event>,               // the events of the polling loop, in order
    archiveUrl: Result<string>,      // getOrganizationArchiveUrlUseCase.Do
    download: Result<Response>)      // http.Get of the archive URL

  /** A call the orchestrator makes. */
  datatype Call =
    | ListRepos(organization: string)
    | StartMigration(organization: string, repoNames: seq<string>)
    | GetStatus(organization: string, migrationId: int)
    | ResolveArchiveUrl(organization: string, migrationId: int)
    | Download(url: string)
    | Save(body: seq<byte>)

  /** SaveBackupFunc: stores the body it is handed and returns a location or an error. */
  type Sink = seq<byte> -> Result<string>

  /** A polling event on which the loop returns. */
  predicate Exits(e: Event) {
    e.Done? || e.status.Err? || e.status.value.state == "failed" || e.status.value.state == "exported"
  }

  /** The polling events contain one on which the loop returns. */
  predicate Ends(polls: seq<Event>) {
    exists i :: 0 <= i < |polls| && Exits(polls[i])
  }

  /** The collaborators let a run finish: the polling loop is reached only after a
      successful listing and start, and then some polling event must end it. */
  predicate Finishes(env: Collaborators) {
    env.listed.Ok? && env.started.Ok? ==> Ends(env.polls)
  }

  /** The names of `repos`, in order. */
  function Names(repos: seq<Repository>): (names: seq<string>)
    ensures |names| == |repos|
    ensures forall i :: 0 <= i < |repos| ==> names[i] == repos[i].name
  {
    seq(|repos|, i requires 0 <= i < |repos| => repos[i].name)
  }

  /** The migration id the j-th status call asks about: the started migration's first,
      then the id of the migration the previous status call returned. */
  function StatusId(started: Migration, polls: seq<Event>, j: nat): (id: int)
    requires j <= |polls|
    requires forall i :: 0 <= i < j ==> polls[i].Tick? && polls[i].status.Ok?
  {
    if j == 0 then started.id else polls[j - 1].status.value.id
  }

  /** The first `n` status calls of the polling loop. */
  function StatusCalls(organization: string, started: Migration, polls: seq<Event>, n: nat): (calls: seq<Call>)
    requires n <= |polls|
    requires forall i :: 0 <= i < n - 1 ==> polls[i].Tick? && polls[i].status.Ok?
    ensures |calls| == n
    ensures forall i :: 0 <= i < n ==> calls[i].GetStatus?
  {
    if n == 0 then [] else StatusCalls(organization, started, polls, n - 1) + [GetStatus(organization, StatusId(started, polls, n - 1))]
  }

  /** Once the export is "exported": resolve the URL, download, check the status, save. */
  function Fetch(organization: string, exported: Migration, env: Collaborators, sink: Sink): (r: (Result<string>, seq<Call>))
    ensures 1 <= |r.1| <= 3 && r.1[0] == ResolveArchiveUrl(organization, exported.id)
    ensures r.0.Ok? ==> env.download.Ok? && env.download.value.statusCode == StatusOK && r.1[|r.1| - 1] == Save(env.download.value.body)
  {
    var resolving := [ResolveArchiveUrl(organization, exported.id)];
    match env.archiveUrl
    case Err(e) => (Err(Wrap("failed to get migration archive URL", e)), resolving)
    case Ok(url) =>
      var downloading := resolving + [Download(url)];
      match env.download
      case Err(e) => (Err(Wrap("failed to download archive", e)), downloading)
      case Ok(resp) =>
        if resp.statusCode != StatusOK then
          (Err(Message("failed to download archive, got status: " + resp.status)), downloading)
        else
          (sink(resp.body), downloading + [Save(resp.body)])
  }

  /** The result of a run of `Do` and the calls it made, in order. */
  function Backup(organization: string, env: Collaborators, sink: Sink): (r: (Result<string>, seq<Call>))
    requires Finishes(env)
    ensures |r.1| > 0 && r.1[0] == ListRepos(organization)
    ensures r.0.Ok? ==> env.download.Ok? && env.download.value.statusCode == StatusOK && r.1[|r.1| - 1] == Save(env.download.value.body)
  {
    match env.listed
    case Err(e) => (Err(Wrap("failed to list private repositories", e)), [ListRepos(organization)])
    case Ok(repos) =>
      var starting := [ListRepos(organization), StartMigration(organization, Names(repos))];
      match env.started
      case Err(e) => (Err(Wrap("failed to start migration", e)), starting)
      case Ok(started) =>
        var k := FirstIndex(env.polls, Exits);
        match env.polls[k]
        case Done(cause) => (Err(cause), starting + StatusCalls(organization, started, env.polls, k))
        case Tick(status) =>
          var polling := starting + StatusCalls(organization, started, env.polls, k + 1);
          match status
          case Err(e) => (Err(Wrap("failed to get migration status", e)), polling)
          case Ok(m) =>
            if m.state == "failed" then (Err(Message("migration failed")), polling)
            else
              var f := Fetch(organization, m, env, sink);
              (f.0, polling + f.1)
  }

  class CreateBackupUseCase {
    var pollingInterval: int

    /** NewCreateBackupUseCase: polls every 5 s. */
    constructor ()
      ensures pollingInterval == DefaultPollingInterval
    {
      pollingInterval := DefaultPollingInterval;
    }

    /** Sets the polling interval and returns the same use case. */
    method WithPollingInterval(interval: int) returns (uc: CreateBackupUseCase)
      modifies this
      ensures uc == this && pollingInterval == interval
    {
      pollingInterval := interval;
      uc := this;
    }

    /** createBackupUseCase.Do. Its ticker is created only once the listing and the
        start have succeeded, and time.NewTicker panics on a non-positive period. */
    method Do(organization: string, env: Collaborators, sink: Sink) returns (result: Result<string>, calls: seq<Call>)
      requires env.listed.Ok? && env.started.Ok? ==> pollingInterval > 0
      requires Finishes(env)
      ensures (result, calls) == Backup(organization, env, sink)
    {
      calls := [ListRepos(organization)];
      if env.listed.Err? {
        result := Err(Wrap("failed to list private repositories", env.listed.error));
        return;
      }
      var repos := env.listed.value;

      var repoNames := new string[|repos|];
      for i := 0 to |repos|
        invariant forall j :: 0 <= j < i ==> repoNames[j] == repos[j].name
      {
        repoNames[i] := repos[i].name;
      }
      assert repoNames[..] == Names(repos);

      calls := calls + [StartMigration(organization, repoNames[..])];
      assert calls == [ListRepos(organization), StartMigration(organization, Names(repos))];
      if env.started.Err? {
        result := Err(Wrap("failed to start migration", env.started.error));
        return;
      }
      ghost var starting := calls;
      ghost var started := env.started.value;
      var migration := env.started.value;

      ghost var k := FirstIndex(env.polls, Exits);
      var i := 0;
      while true
        invariant 0 <= i <= k
        invariant migration.id == StatusId(started, env.polls, i)
        invariant calls == starting + StatusCalls(organization, started, env.polls, i)
        decreases k - i
      {
        match env.polls[i]
        case Done(cause) =>
          result := Err(cause);
          return;
        case Tick(status) =>
          calls := calls + [GetStatus(organization, migration.id)];
          assert calls == starting + StatusCalls(organization, started, env.polls, i + 1);
          if status.Err? {
            assert Exits(env.polls[i]);
            result := Err(Wrap("failed to get migration status", status.error));
            return;
          }
          migration := status.value;
          if migration.state == "failed" {
            result := Err(Message("migration failed"));
            return;
          }
          if migration.state == "exported" {
            assert Exits(env.polls[i]) && i == k;
            break;
          }
        // any other state: wait for the next tick
        i := i + 1;
      }

      assert Backup(organization, env, sink) ==
        (Fetch(organization, migration, env, sink).0, calls + Fetch(organization, migration, env, sink).1);
      ghost var polling := calls;
      calls := calls + [ResolveArchiveUrl(organization, migration.id)];
      if env.archiveUrl.Err? {
        result := Err(Wrap("failed to get migration archive URL", env.archiveUrl.error));
        return;
      }
      var url := env.archiveUrl.value;

      calls := calls + [Download(url)];
      assert calls == polling + ([ResolveArchiveUrl(organization, migration.id)] + [Download(url)]);
      if env.download.Err? {
        result := Err(Wrap("failed to download archive", env.download.error));
        return;
      }
      var resp := env.download.value;
      if resp.statusCode != StatusOK {
        result := Err(Message("failed to download archive, got status: " + resp.status));
        return;
      }
      calls := calls + [Save(resp.body)];
      assert calls == polling + ([ResolveArchiveUrl(organization, migration.id)] + [Download(url)] + [Save(resp.body)]);
      result := sink(resp.body);
    }
  }

  /** How many calls in `calls` are status calls. */
  function StatusCallCount(calls: seq<Call>): (n: nat)
  {
    if |calls| == 0 then 0 else StatusCallCount(calls[..|calls| - 1]) + (if calls[|calls| - 1].GetStatus? then 1 else 0)
  }

  /** How many calls in `calls` hand the body to the sink. */
  function SaveCount(calls: seq<Call>): (n: nat)
  {
    if |calls| == 0 then 0 else SaveCount(calls[..|calls| - 1]) + (if calls[|calls| - 1].Save? then 1 else 0)
  }

  lemma {:induction false} CountsAppend(a: seq<Call>, b: seq<Call>)
    ensures StatusCallCount(a + b) == StatusCallCount(a) + StatusCallCount(b)
    ensures SaveCount(a + b) == SaveCount(a) + SaveCount(b)
    decreases |b|
  {
    if |b| == 0 {
      assert a + b == a;
    } else {
      var init := b[..|b| - 1];
      assert (a + b)[..|a + b| - 1] == a + init;
      CountsAppend(a, init);
    }
  }

  lemma {:induction false} StatusCallsCount(organization: string, started: Migration, polls: seq<Event>, n: nat)
    requires n <= |polls|
    requires forall i :: 0 <= i < n - 1 ==> polls[i].Tick? && polls[i].status.Ok?
    ensures StatusCallCount(StatusCalls(organization, started, polls, n)) == n
    ensures SaveCount(StatusCalls(organization, started, polls, n)) == 0
  {
    if n > 0 {
      StatusCallsCount(organization, started, polls, n - 1);
      CountsAppend(StatusCalls(organization, started, polls, n - 1), [GetStatus(organization, StatusId(started, polls, n - 1))]);
      assert StatusCalls(organization, started, polls, n) ==
        StatusCalls(organization, started, polls, n - 1) + [GetStatus(organization, StatusId(started, polls, n - 1))];
      assert [GetStatus(organization, StatusId(started, polls, n - 1))][..0] == [];
    }
  }

  /** A failed listing gives an error wrapping the lister's, and nothing else is called:
      no export is started. */
  lemma ListingFailureStartsNothing(organization: string, env: Collaborators, sink: Sink)
    requires Finishes(env) && env.listed.Err?
    ensures Backup(organization, env, sink).0.Err?
    ensures Backup(organization, env, sink).0.error.Is(env.listed.error)
    ensures Backup(organization, env, sink).1 == [ListRepos(organization)]
  {
  }

  /** The export is started with exactly the listed repositories' names, in order. */
  lemma StartsWithListedNames(organization: string, env: Collaborators, sink: Sink)
    requires Finishes(env) && env.listed.Ok?
    ensures |Backup(organization, env, sink).1| >= 2
    ensures Backup(organization, env, sink).1[1].StartMigration?
    ensures |Backup(organization, env, sink).1[1].repoNames| == |env.listed.value|
    ensures forall i :: 0 <= i < |env.listed.value| ==>
              Backup(organization, env, sink).1[1].repoNames[i] == env.listed.value[i].name
  {
  }

  /** The summary of the polling stage of a run that reached it: the index of the
      event that ended the loop, and the calls made up to the end of that stage. */
  function ExitIndex(env: Collaborators): (k: nat)
    requires env.started.Ok? && Ends(env.polls)
    ensures k < |env.polls| && Exits(env.polls[k])
  {
    FirstIndex(env.polls, Exits)
  }

  /** A status call that errors ends the run at once with an error wrapping it: no
      retry, and the status call is the last call made. */
  lemma StatusErrorAborts(organization: string, env: Collaborators, sink: Sink)
    requires env.listed.Ok? && env.started.Ok? && Ends(env.polls)
    requires env.polls[ExitIndex(env)].Tick? && env.polls[ExitIndex(env)].status.Err?
    ensures Backup(organization, env, sink).0.Err?
    ensures Backup(organization, env, sink).0.error.Is(env.polls[ExitIndex(env)].status.error)
    ensures StatusCallCount(Backup(organization, env, sink).1) == ExitIndex(env) + 1
    ensures Backup(organization, env, sink).1[|Backup(organization, env, sink).1| - 1].GetStatus?
  {
    PollingCalls(organization, env, ExitIndex(env) + 1);
  }

  /** The calls of a run that reached the polling loop, up to `n` status calls. */
  lemma {:induction false} PollingCalls(organization: string, env: Collaborators, n: nat)
    requires env.listed.Ok? && env.started.Ok?
    requires n <= |env.polls|
    requires forall i :: 0 <= i < n - 1 ==> env.polls[i].Tick? && env.polls[i].status.Ok?
    ensures var calls := [ListRepos(organization), StartMigration(organization, Names(env.listed.value))]
                         + StatusCalls(organization, env.started.value, env.polls, n);
            StatusCallCount(calls) == n && SaveCount(calls) == 0
  {
    var starting := [ListRepos(organization), StartMigration(organization, Names(env.listed.value))];
    StatusCallsCount(organization, env.started.value, env.polls, n);
    CountsAppend(starting, StatusCalls(organization, env.started.value, env.polls, n));
    CountsTwo(ListRepos(organization), StartMigration(organization, Names(env.listed.value)));
  }

  /** A "failed" export ends the run with the "migration failed" error: no URL is
      resolved, nothing is downloaded or saved, and polling stops. */
  lemma FailedExportStops(organization: string, env: Collaborators, sink: Sink)
    requires env.listed.Ok? && env.started.Ok? && Ends(env.polls)
    requires env.polls[ExitIndex(env)].Tick? && env.polls[ExitIndex(env)].status.Ok?
    requires env.polls[ExitIndex(env)].status.value.state == "failed"
    ensures Backup(organization, env, sink).0 == Err(Message("migration failed"))
    ensures StatusCallCount(Backup(organization, env, sink).1) == ExitIndex(env) + 1
    ensures forall c :: c in Backup(organization, env, sink).1 ==> !c.ResolveArchiveUrl? && !c.Download? && !c.Save?
  {
    PollingCalls(organization, env, ExitIndex(env) + 1);
  }

  /** Any state other than "failed" and "exported" waits for the next tick: when the
      export is reported "exported", the number of status calls is one more than the
      index of that report, and the URL is resolved for the exported migration. */
  lemma ExportedAfterPolling(organization: string, env: Collaborators, sink: Sink)
    requires env.listed.Ok? && env.started.Ok? && Ends(env.polls)
    requires env.polls[ExitIndex(env)].Tick? && env.polls[ExitIndex(env)].status.Ok?
    requires env.polls[ExitIndex(env)].status.value.state == "exported"
    ensures forall j :: 0 <= j < ExitIndex(env) ==>
              env.polls[j].Tick? && env.polls[j].status.Ok? &&
              env.polls[j].status.value.state != "failed" && env.polls[j].status.value.state != "exported"
    ensures StatusCallCount(Backup(organization, env, sink).1) == ExitIndex(env) + 1
    ensures ResolveArchiveUrl(organization, env.polls[ExitIndex(env)].status.value.id) in Backup(organization, env, sink).1
  {
    var k := ExitIndex(env);
    var polling := [ListRepos(organization), StartMigration(organization, Names(env.listed.value))]
                   + StatusCalls(organization, env.started.value, env.polls, k + 1);
    var f := Fetch(organization, env.polls[k].status.value, env, sink);
    PollingCalls(organization, env, k + 1);
    CountsAppend(polling, f.1);
    FetchCounts(organization, env.polls[k].status.value, env, sink);
    assert f.1[0] == (polling + f.1)[|polling|];
  }

  /** The fetch stage makes no status call, saves at most once, and only hands the
      body of a 200 response to the sink. */
  lemma FetchCounts(organization: string, exported: Migration, env: Collaborators, sink: Sink)
    ensures StatusCallCount(Fetch(organization, exported, env, sink).1) == 0
    ensures SaveCount(Fetch(organization, exported, env, sink).1) ==
              (if env.archiveUrl.Ok? && env.download.Ok? && env.download.value.statusCode == StatusOK then 1 else 0)
    ensures Fetch(organization, exported, env, sink).1[0] == ResolveArchiveUrl(organization, exported.id)
  {
    var resolving := [ResolveArchiveUrl(organization, exported.id)];
    CountsOne(ResolveArchiveUrl(organization, exported.id));
    if env.archiveUrl.Ok? {
      var downloading := resolving + [Download(env.archiveUrl.value)];
      CountsOne(Download(env.archiveUrl.value));
      CountsAppend(resolving, [Download(env.archiveUrl.value)]);
      if env.download.Ok? {
        CountsOne(Save(env.download.value.body));
        CountsAppend(downloading, [Save(env.download.value.body)]);
      }
    }
  }

  lemma CountsOne(c: Call)
    ensures StatusCallCount([c]) == (if c.GetStatus? then 1 else 0)
    ensures SaveCount([c]) == (if c.Save? then 1 else 0)
  {
    assert [c][..0] == [];
  }

  lemma CountsTwo(c: Call, d: Call)
    ensures StatusCallCount([c, d]) == (if c.GetStatus? then 1 else 0) + (if d.GetStatus? then 1 else 0)
    ensures SaveCount([c, d]) == (if c.Save? then 1 else 0) + (if d.Save? then 1 else 0)
  {
    CountsOne(c);
    CountsOne(d);
    CountsAppend([c], [d]);
    assert [c] + [d] == [c, d];
  }

  /** The sink runs at most once per run, and only after a 200 download; a run
      succeeds only through the sink, whose result it returns unchanged. */
  lemma SinkAtMostOnce(organization: string, env: Collaborators, sink: Sink)
    requires Finishes(env)
    ensures SaveCount(Backup(organization, env, sink).1) <= 1
    ensures SaveCount(Backup(organization, env, sink).1) == 1 ==>
              env.download.Ok? && env.download.value.statusCode == StatusOK &&
              Backup(organization, env, sink).0 == sink(env.download.value.body)
    ensures Backup(organization, env, sink).0.Ok? ==> SaveCount(Backup(organization, env, sink).1) == 1
  {
    var r := Backup(organization, env, sink);
    if env.listed.Err? {
      CountsOne(ListRepos(organization));
    } else if env.started.Err? {
      CountsTwo(ListRepos(organization), StartMigration(organization, Names(env.listed.value)));
    } else {
      var k := ExitIndex(env);
      match env.polls[k]
      case Done(_) =>
        PollingCalls(organization, env, k);
      case Tick(status) =>
        PollingCalls(organization, env, k + 1);
        if status.Ok? && status.value.state != "failed" {
          var polling := [ListRepos(organization), StartMigration(organization, Names(env.listed.value))]
                         + StatusCalls(organization, env.started.value, env.polls, k + 1);
          var f := Fetch(organization, status.value, env, sink);
          FetchCounts(organization, status.value, env, sink);
          CountsAppend(polling, f.1);
        }
    }
  }

  /** A download answered with a status other than 200 gives an error carrying that
      status line, and the sink is never invoked. */
  lemma BadStatusNeverSaves(organization: string, env: Collaborators, sink: Sink)
    requires Finishes(env)
    requires env.download.Ok? && env.download.value.statusCode != StatusOK
    ensures Backup(organization, env, sink).0.Err?
    ensures SaveCount(Backup(organization, env, sink).1) == 0
    ensures env.listed.Ok? && env.started.Ok? && env.archiveUrl.Ok? &&
            env.polls[ExitIndex(env)].Tick? && env.polls[ExitIndex(env)].status.Ok? &&
            env.polls[ExitIndex(env)].status.value.state == "exported" ==>
              Backup(organization, env, sink).0 ==
                Err(Message("failed to download archive, got status: " + env.download.value.status))
  {
    SinkAtMostOnce(organization, env, sink);
  }

  /** A context that finishes while polling ends the run with the context's error,
      never with a success. */
  lemma CancelledNeverSucceeds(organization: string, env: Collaborators, sink: Sink)
    requires env.listed.Ok? && env.started.Ok? && Ends(env.polls)
    requires env.polls[ExitIndex(env)].Done?
    ensures Backup(organization, env, sink).0 == Err(env.polls[ExitIndex(env)].cause)
    ensures SaveCount(Backup(organization, env, sink).1) == 0
    ensures StatusCallCount(Backup(organization, env, sink).1) == ExitIndex(env)
  {
    PollingCalls(organization, env, ExitIndex(env));
  }

  /** The test scenario: pending, then exported, then a 200 download: exactly two
      status calls, and the sink's location is the result. */
  lemma PendingThenExported(organization: string, repos: seq<Repository>, url: string, body: seq<byte>, sink: Sink)
    requires sink(body) == Ok("/tmp/backup.zip")
    ensures var env := Collaborators(Ok(repos), Ok(Migration(12345, "pending")),
                                     [Tick(Ok(Migration(12345, "pending"))), Tick(Ok(Migration(12345, "exported")))],
                                     Ok(url), Ok(Response(200, "200 OK", body)));
            Finishes(env) &&
            Backup(organization, env, sink).0 == Ok("/tmp/backup.zip") &&
            StatusCallCount(Backup(organization, env, sink).1) == 2
  {
    var env := Collaborators(Ok(repos), Ok(Migration(12345, "pending")),
                             [Tick(Ok(Migration(12345, "pending"))), Tick(Ok(Migration(12345, "exported")))],
                             Ok(url), Ok(Response(200, "200 OK", body)));
    assert Exits(env.polls[1]);
    assert !Exits(env.polls[0]);
    assert ExitIndex(env) == 1;
    ExportedAfterPolling(organization, env, sink);
  }
}
