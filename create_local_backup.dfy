/** The older, local backup use case (`createLocalBackupUseCase`): the same pipeline
    as the orchestrator, but it starts the export through the SDK with only
    attachments excluded, decides on the first event of its polling loop (every
    branch of that loop returns), and writes the archive to a file on disk.

    The file system is a `Disk` object whose `files` map the methods update; the
    answers of `os.Create`, `http.Get`, `io.Copy` and `filepath.Abs` are given. */
module CreateLocalBackup {
  import opened Common
  import opened GitHub
  import CreateBackup

  const PollingInterval := 5 * 1_000_000_000

  /** The options this use case starts the export with: attachments excluded only. */
  const LocalExportPolicy := MigrationOptions(true, false, [])

  /** The answers of the steps of saveMigrationArchive. */
  datatype SaveAnswers = SaveAnswers(
    create: Option<Error>,           // os.Create's error, if any
    download: Result<CreateBackup.Response>, // http.Get of the archive URL
    copyFault: Option<(nat, Error)>, // io.Copy failing after writing that many bytes
    abs: Result<string>)             // filepath.Abs of the file's name

  /** The answers of every collaborator of one run. */
  datatype Collaborators = Collaborators(
    listed: Result<seq<Repository>>, // listPrivateReposUseCase.Do
    started: Result<Migration>,      // Migrations.StartMigration
    first: CreateBackup.Event,       // the first event of the polling loop
    archiveUrl: Result<string>,      // getOrganizationArchiveUrlUseCase.Do
    save: SaveAnswers)

  /** A call this use case makes, in order. */
  datatype Call =
    | ListRepos(organization: string)
    | StartMigration(organization: string, repoNames: seq<string>, options: MigrationOptions)
    | GetStatus(organization: string, migrationId: int)
    | ResolveArchiveUrl(organization: string, migrationId: int)
    | CreateFile(path: string)
    | Download(url: string)

  /** The local file system: file contents by path. */
  class Disk {
    var files: map<string, seq<byte>>

    constructor (initial: map<string, seq<byte>>)
      ensures files == initial
    {
      files := initial;
    }

    /** os.Create: on success the file exists and is empty (an existing one is
        truncated); on failure nothing changes. */
    method Create(path: string, fault: Option<Error>) returns (err: Option<Error>)
      modifies this
      ensures err == fault
      ensures fault.Some? ==> files == old(files)
      ensures fault.None? ==> files == old(files)[path := []]
    {
      err := fault;
      if fault.None? {
        files := files[path := []];
      }
    }

    /** Appends `data` to an open file. */
    method Write(path: string, data: seq<byte>)
      requires path in files
      modifies this
      ensures files == old(files)[path := old(files)[path] + data]
    {
      files := files[path := files[path] + data];
    }
  }

  function Min(a: nat, b: nat): nat {
    if a <= b then a else b
  }

  /** The result of saveMigrationArchive and the file system it leaves. */
  function Save(files: map<string, seq<byte>>, path: string, s: SaveAnswers): (r: (Result<string>, map<string, seq<byte>>))
    ensures s.create.Some? ==> r == (Err(s.create.value), files)
    ensures s.create.None? ==> path in r.1 && r.1 - {path} == files - {path}
    ensures r.0.Ok? ==> s.download.Ok? && r.1 == files[path := s.download.value.body]
  {
    match s.create
    case Some(e) => (Err(e), files)
    case None =>
      var created := files[path := []];
      match s.download
      case Err(e) => (Err(e), created)
      case Ok(resp) =>
        if resp.statusCode != CreateBackup.StatusOK then
          (Err(Message("could not download archive, got status: " + resp.status)), created)
        else
          match s.copyFault
          case Some(fault) => (Err(fault.1), files[path := resp.body[..Min(fault.0, |resp.body|)]])
          case None =>
            var written := files[path := resp.body];
            match s.abs
            case Err(e) => (Err(Wrap("failed to get absolute path", e)), written)
            case Ok(absolute) => (Ok(absolute), written)
  }

  /** saveMigrationArchive: create the file, download, check the status, copy the
      body into the file, return the file's absolute path. */
  method SaveMigrationArchive(disk: Disk, url: string, backupPath: string, s: SaveAnswers) returns (result: Result<string>)
    modifies disk
    ensures (result, disk.files) == Save(old(disk.files), backupPath, s)
  {
    var err := disk.Create(backupPath, s.create);
    if err.Some? {
      result := Err(err.value);
      return;
    }
    if s.download.Err? {
      result := Err(s.download.error);
      return;
    }
    var resp := s.download.value;
    if resp.statusCode != CreateBackup.StatusOK {
      result := Err(Message("could not download archive, got status: " + resp.status));
      return;
    }
    if s.copyFault.Some? {
      var written := resp.body[..Min(s.copyFault.value.0, |resp.body|)];
      disk.Write(backupPath, written);
      assert [] + written == written;
      assert disk.files == old(disk.files)[backupPath := written];
      result := Err(s.copyFault.value.1);
      return;
    }
    disk.Write(backupPath, resp.body);
    assert [] + resp.body == resp.body;
    assert disk.files == old(disk.files)[backupPath := resp.body];
    if s.abs.Err? {
      result := Err(Wrap("failed to get absolute path", s.abs.error));
      return;
    }
    result := Ok(s.abs.value);
  }

  /** The result of a run, the calls made and the file system left behind. */
  function LocalBackup(organization: string, backupPath: string, env: Collaborators, files: map<string, seq<byte>>)
    : (r: (Result<string>, seq<Call>, map<string, seq<byte>>))
    ensures |r.1| > 0 && r.1[0] == ListRepos(organization)
    ensures r.2 != files ==> env.listed.Ok? && env.started.Ok? && env.first.Tick? && env.archiveUrl.Ok?
  {
    match env.listed
    case Err(e) => (Err(Wrap("failed to list private repositories", e)), [ListRepos(organization)], files)
    case Ok(repos) =>
      var starting := [ListRepos(organization), StartMigration(organization, CreateBackup.Names(repos), LocalExportPolicy)];
      match env.started
      case Err(e) => (Err(Wrap("failed to start migration", e)), starting, files)
      case Ok(started) =>
        match env.first
        case Done(cause) => (Err(cause), starting, files)
        case Tick(status) =>
          var polled := starting + [GetStatus(organization, started.id)];
          match status
          case Err(e) => (Err(Wrap("failed to get migration status", e)), polled, files)
          case Ok(m) =>
            if m.state == "failed" then (Err(Message("migration failed")), polled, files)
            else
              var resolving := polled + [ResolveArchiveUrl(organization, m.id)];
              match env.archiveUrl
              case Err(e) => (Err(Wrap("failed to get migration archive URL", e)), resolving, files)
              case Ok(url) =>
                var saved := Save(files, backupPath, env.save);
                (saved.0, resolving + [CreateFile(backupPath)] + (if env.save.create.None? then [Download(url)] else []), saved.1)
  }

  /** createLocalBackupUseCase.Do */
  method Do(organization: string, backupPath: string, env: Collaborators, disk: Disk)
    returns (result: Result<string>, calls: seq<Call>)
    modifies disk
    ensures (result, calls, disk.files) == LocalBackup(organization, backupPath, env, old(disk.files))
  {
    calls := [ListRepos(organization)];
    if env.listed.Err? {
      result := Err(Wrap("failed to list private repositories", env.listed.error));
      return;
    }
    var repos := env.listed.value;

    var repoNames := new string[|repos|];
    for i := 0 to |repos|
      modifies repoNames
      invariant forall j :: 0 <= j < i ==> repoNames[j] == repos[j].name
    {
      repoNames[i] := repos[i].name;
    }
    assert repoNames[..] == CreateBackup.Names(repos);

    calls := calls + [StartMigration(organization, repoNames[..], LocalExportPolicy)];
    assert calls == [ListRepos(organization), StartMigration(organization, CreateBackup.Names(repos), LocalExportPolicy)];
    if env.started.Err? {
      result := Err(Wrap("failed to start migration", env.started.error));
      return;
    }
    var migration := env.started.value;

    // Every branch of the polling loop returns, so its first event decides the run.
    match env.first
    case Done(cause) =>
      result := Err(cause);
    case Tick(status) =>
      calls := calls + [GetStatus(organization, migration.id)];
      if status.Err? {
        result := Err(Wrap("failed to get migration status", status.error));
        return;
      }
      migration := status.value;
      if migration.state == "failed" {
        result := Err(Message("migration failed"));
        return;
      }
      // A state other than "exported" is reported as in progress, and the run goes on.
      calls := calls + [ResolveArchiveUrl(organization, migration.id)];
      if env.archiveUrl.Err? {
        result := Err(Wrap("failed to get migration archive URL", env.archiveUrl.error));
        return;
      }
      var url := env.archiveUrl.value;
      ghost var resolving := calls;
      calls := calls + [CreateFile(backupPath)];
      if env.save.create.None? {
        calls := calls + [Download(url)];
      }
      assert calls == resolving + [CreateFile(backupPath)] + (if env.save.create.None? then [Download(url)] else []);
      result := SaveMigrationArchive(disk, url, backupPath, env.save);
  }

  /** The file is created before the download: once creation succeeds the file
      exists whatever happens next; a failed or non-200 download leaves it empty. */
  lemma FileCreatedFirst(files: map<string, seq<byte>>, path: string, s: SaveAnswers)
    requires s.create.None?
    ensures path in Save(files, path, s).1
    ensures s.download.Err? || s.download.value.statusCode != CreateBackup.StatusOK ==>
              Save(files, path, s).0.Err? && Save(files, path, s).1[path] == []
  {
  }

  /** Saving touches no file but the backup path, and a failed creation touches none. */
  lemma SaveTouchesOnlyPath(files: map<string, seq<byte>>, path: string, s: SaveAnswers)
    ensures forall p :: p != path ==> (p in Save(files, path, s).1 <==> p in files)
    ensures forall p :: p != path && p in files ==> Save(files, path, s).1[p] == files[p]
    ensures s.create.Some? ==> Save(files, path, s) == (Err(s.create.value), files)
  {
  }

  /** Saving succeeds exactly when every step does; then the result is the absolute
      path and the file holds the downloaded body. */
  lemma SaveSucceeds(files: map<string, seq<byte>>, path: string, s: SaveAnswers)
    ensures Save(files, path, s).0.Ok? <==>
              s.create.None? && s.download.Ok? && s.download.value.statusCode == CreateBackup.StatusOK &&
              s.copyFault.None? && s.abs.Ok?
    ensures Save(files, path, s).0.Ok? ==>
              Save(files, path, s).0.value == s.abs.value && Save(files, path, s).1[path] == s.download.value.body
  {
  }

  /** A failure of creation, download or copy is returned unwrapped; a non-200
      status gives the "could not download archive" error with the status line. */
  lemma SaveErrors(files: map<string, seq<byte>>, path: string, s: SaveAnswers)
    ensures s.create.None? && s.download.Err? ==> Save(files, path, s).0 == Err(s.download.error)
    ensures s.create.None? && s.download.Ok? && s.download.value.statusCode != CreateBackup.StatusOK ==>
              Save(files, path, s).0 == Err(Message("could not download archive, got status: " + s.download.value.status))
    ensures s.create.None? && s.download.Ok? && s.download.value.statusCode == CreateBackup.StatusOK && s.copyFault.Some? ==>
              Save(files, path, s).0 == Err(s.copyFault.value.1) &&
              Save(files, path, s).1[path] <= s.download.value.body
  {
  }

  /** A failed listing gives a wrapped error, starts nothing and touches no file. */
  lemma ListingFailureStartsNothing(organization: string, backupPath: string, env: Collaborators, files: map<string, seq<byte>>)
    requires env.listed.Err?
    ensures LocalBackup(organization, backupPath, env, files).0.Err?
    ensures LocalBackup(organization, backupPath, env, files).0.error.Is(env.listed.error)
    ensures LocalBackup(organization, backupPath, env, files).1 == [ListRepos(organization)]
    ensures LocalBackup(organization, backupPath, env, files).2 == files
  {
  }

  /** The export is started with the listed names in order, attachments excluded
      and nothing else. */
  lemma StartsWithListedNames(organization: string, backupPath: string, env: Collaborators, files: map<string, seq<byte>>)
    requires env.listed.Ok?
    ensures var calls := LocalBackup(organization, backupPath, env, files).1;
            |calls| >= 2 && calls[1].StartMigration? &&
            calls[1].options.excludeAttachments && !calls[1].options.excludeReleases && calls[1].options.exclude == [] &&
            |calls[1].repoNames| == |env.listed.value| &&
            forall i :: 0 <= i < |env.listed.value| ==> calls[1].repoNames[i] == env.listed.value[i].name
  {
  }

  /** The number of status calls in `calls`. */
  function StatusCallCount(calls: seq<Call>): (n: nat)
  {
    if |calls| == 0 then 0 else (if calls[0].GetStatus? then 1 else 0) + StatusCallCount(calls[1..])
  }

  /** The quirk of the first tick: any state but "failed", "exported" or not, goes
      straight on to resolving the URL of the migration just reported, after exactly
      one status call. */
  lemma FirstTickDecides(organization: string, backupPath: string, env: Collaborators, files: map<string, seq<byte>>)
    requires env.listed.Ok? && env.started.Ok?
    requires env.first.Tick? && env.first.status.Ok? && env.first.status.value.state != "failed"
    ensures var calls := LocalBackup(organization, backupPath, env, files).1;
            |calls| >= 4 && calls[2] == GetStatus(organization, env.started.value.id) &&
            calls[3] == ResolveArchiveUrl(organization, env.first.status.value.id) &&
            StatusCallCount(calls) == 1
  {
    var calls := LocalBackup(organization, backupPath, env, files).1;
    assert forall j :: 3 <= j < |calls| ==> calls[j].ResolveArchiveUrl? || calls[j].CreateFile? || calls[j].Download?;
    StatusCallsAfter(calls[3..]);
    assert calls[1..][1..] == calls[2..];
    assert calls[2..][1..] == calls[3..];
    assert StatusCallCount(calls[2..]) == 1 + StatusCallCount(calls[3..]);
    assert StatusCallCount(calls[1..]) == StatusCallCount(calls[2..]);
  }

  /** The calls after the first status call contain no other. */
  lemma {:induction false} StatusCallsAfter(calls: seq<Call>)
    requires forall j :: 0 <= j < |calls| ==> !calls[j].GetStatus?
    ensures StatusCallCount(calls) == 0
  {
    if |calls| > 0 {
      assert forall j :: 0 <= j < |calls[1..]| ==> calls[1..][j] == calls[j + 1];
      StatusCallsAfter(calls[1..]);
    }
  }

  /** A status error or a "failed" state on the first tick ends the run with an
      error, after one status call and with no file touched. */
  lemma FirstTickFails(organization: string, backupPath: string, env: Collaborators, files: map<string, seq<byte>>)
    requires env.listed.Ok? && env.started.Ok? && env.first.Tick?
    requires env.first.status.Err? || env.first.status.value.state == "failed"
    ensures LocalBackup(organization, backupPath, env, files).0.Err?
    ensures env.first.status.Err? ==> LocalBackup(organization, backupPath, env, files).0.error.Is(env.first.status.error)
    ensures env.first.status.Ok? ==> LocalBackup(organization, backupPath, env, files).0 == Err(Message("migration failed"))
    ensures LocalBackup(organization, backupPath, env, files).1[|LocalBackup(organization, backupPath, env, files).1| - 1].GetStatus?
    ensures LocalBackup(organization, backupPath, env, files).2 == files
  {
  }

  /** A context that is done first ends the run with its error, no status call and
      no file touched. */
  lemma CancelledReturnsContextError(organization: string, backupPath: string, env: Collaborators, files: map<string, seq<byte>>)
    requires env.listed.Ok? && env.started.Ok? && env.first.Done?
    ensures LocalBackup(organization, backupPath, env, files).0 == Err(env.first.cause)
    ensures StatusCallCount(LocalBackup(organization, backupPath, env, files).1) == 0
    ensures LocalBackup(organization, backupPath, env, files).2 == files
  {
    StatusCallsAfter(LocalBackup(organization, backupPath, env, files).1);
  }

  /** A successful run returns the absolute path of the backup file, which then
      holds exactly the downloaded archive. */
  lemma SuccessWritesArchive(organization: string, backupPath: string, env: Collaborators, files: map<string, seq<byte>>)
    requires LocalBackup(organization, backupPath, env, files).0.Ok?
    ensures env.save.download.Ok? && env.save.abs.Ok?
    ensures LocalBackup(organization, backupPath, env, files).0.value == env.save.abs.value
    ensures backupPath in LocalBackup(organization, backupPath, env, files).2
    ensures LocalBackup(organization, backupPath, env, files).2[backupPath] == env.save.download.value.body
  {
    assert env.listed.Ok? && env.started.Ok? && env.first.Tick? && env.first.status.Ok?;
    SaveSucceeds(files, backupPath, env.save);
  }
}
