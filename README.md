# repo-backup-cli, modelled in Dafny

repo-backup-cli backs up a GitHub organization's private repositories. It lists
the private repositories and drops the archived ones. It then starts one
organization export ("migration") of those repositories and polls the export's
state until it is `exported`. Next it resolves the archive's download URL, retrying
until a deadline, and downloads the archive. Finally it hands the archive to a sink:
a file on disk (the older local use case) or a blob in Azure or MinIO object
storage, named `<YYYY-MM-DD>-<organization>-migration.tar.gz`. It is configured
from a `.env` file and the environment: the GitHub token, the storage backend's
settings and a Sentry DSN.

The model keeps the control logic and treats every network, SDK and file-system
step as an oracle. An oracle is a given answer: an `Ok` value or an `Err`. A polling
loop's `select` becomes a sequence of events. Each event is a tick, carrying the
answer to the call made on it, or the end of the context, carrying the context's
error. Go errors are values built with `errors.New`, `fmt.Errorf` and `%w`
wrapping. `errors.Is` is approximated by `Common.Error.Is`, which follows the `%w`
chain and compares by value (see "## Left out").

One module per source file:

| module | file | form |
|---|---|---|
| `Common` | (shared) | Go errors, `Result`, `Option`, bytes, first-index search |
| `GitHub` | pkg/github/github.go | pass-through functions; `ListOrgRepos` is a method with a loop |
| `ListPrivateRepos` | pkg/uc/listPrivateRepos.go | `Do` runs the paging loop (`FetchPages`), then the filter loop (`DropArchived`) |
| `ArchiveUrl` | pkg/uc/getOrganizationArchiveUrl.go | class `ArchiveUrlResolver`, with its durations as fields and a retry loop |
| `CreateBackup` | pkg/uc/createBackup.go | class `CreateBackupUseCase`, with an array fill and a polling loop |
| `CreateLocalBackup` | pkg/uc/createLocalBackup.go | method over a `Disk` object, whose file map it updates |
| `CreateRemoteBackup` | pkg/uc/createRemoteBackup.go | functions: blob name, date format, sink |
| `Config` | pkg/config/config.go | validation functions; class `Config` |
| `StorageConfig` | pkg/config/storage.go | validation and dispatch functions |
| `MinioBlob` | pkg/storage/minio/blob.go | class `Stream`, with a position that `Seek` changes; URL function |
| `StorageFactory` | context/storageFactory.go | dispatch function |

Each method that loops or changes state is proved equal to a specification
function of its inputs, and the properties are lemmas about that function:
`ListOrgRepos` against `OrgRepos`, `ListPrivateRepos.Do` against `Listed` (its loops
`FetchPages` and `DropArchived` against `Fetched` and `NonArchived`),
`ArchiveUrlResolver.Do` against `Resolve`, `CreateBackupUseCase.Do` against
`Backup`, `CreateLocalBackup.Do` against `LocalBackup`, and `MinioBlob.Upload`
against `UploadSpec`. Each run also returns the calls it made, in order, so the
lemmas can count status calls and sink calls.

The source files come from different snapshots of the repository. Each is modelled
as written:
- `AzureStorageConfig` and its validator appear in both pkg/config/config.go:18-41
  and pkg/config/storage.go:14-37, with the same fields, keys and message. They are
  defined once, in `Config`, and `StorageConfig` uses that definition.
- context/storageFactory.go:13 reads `cfg.StorageBackend`, and
  pkg/storage/minio/blob.go reads `cfg.ObjectStorageConfig`. The `Config` struct
  (pkg/config/config.go:59-64) has neither field. The factory therefore takes the backend name as a
  parameter, and the MinIO repository takes its `ObjectStorageConfig` directly.
- The object-storage key constants used at pkg/config/storage.go:48-52 are not
  defined in any of the modelled files. They are a parameter (`ObjectStorageKeys`).

Two behaviours of the code that a reader might not expect:
- The resolver wraps `ctxTimeout.Err()` (pkg/uc/getOrganizationArchiveUrl.go:72).
  If the caller's context is cancelled, the result is therefore "context timed out
  while getting migration archive URL: context canceled". It is not a separate
  cancellation error.
- `createBackupUseCase.Do` returns `errors.New("migration failed")`, not a sentinel
  error value.

One observation the model does not settle: `createBackupUseCase.Do` hands the sink
`resp.Body` (pkg/uc/createBackup.go:99), the remote sink passes it to `Upload`, and
the MinIO repository refuses any reader that cannot seek
(pkg/storage/minio/blob.go:56-59). If the HTTP response body cannot seek, every
MinIO upload of a backup fails with "cannot cast reader to seeker". Whether it can
is up to `net/http`, which is not part of this model, so `Stream.seekable` stays a
free parameter and `MinioBlob.Upload` is not composed with `CreateRemoteBackup`.

## Model

| member | source | states |
|---|---|---|
| GitHub.GetMigrationArchiveUrl | pkg/github/github.go:31-33 | the SDK's URL or error is returned unchanged |
| GitHub.GetMigrationStatus | pkg/github/github.go:35-42 | an SDK error comes back with no migration; otherwise the reported migration comes back unchanged |
| GitHub.StartMigration | pkg/github/github.go:44-55 | the request carries the given organization and names, with attachments and releases excluded and `exclude = ["repositories"]`; the SDK's answer passes through |
| GitHub.LastRequest | pkg/github/github.go:67-80 | every answer before the last request is a success with a non-zero next page; the last is an error or has next page 0 |
| GitHub.RequestOptions | pkg/github/github.go:58-64 | every request asks for 100 per page with the given visibility; the first is page 1, each later one the previous answer's next page |
| GitHub.OrgRepos | pkg/github/github.go:57-83 | the listing's specification: a success means every request up to the last succeeded; a failure is the last request's error |
| GitHub.ListOrgRepos | pkg/github/github.go:57-83 | the loop gives exactly `OrgRepos(answers)`, making one request per answer up to the one with next page 0 or an error, each built by `RequestOptions` |
| GitHub.OrgReposFailure | pkg/github/github.go:68-71 | the listing fails if and only if some request up to the last fails; it then returns that error unchanged and no pages |
| GitHub.AllReposAt | pkg/github/github.go:73 | repository t of page j is at position offset(j)+t of the result: pages are concatenated in order |
| GitHub.AllReposLength | pkg/github/github.go:73 | the result's length is the sum of the page sizes |
| GitHub.FollowsCursor | pkg/github/github.go:75-79 | each request after the first asks for the non-zero next page the previous answer reported |
| ListPrivateRepos.PagesRequested | pkg/uc/listPrivateRepos.go:28-52 | at least one request is made, and never more than there are answers |
| ListPrivateRepos.Fetched | pkg/uc/listPrivateRepos.go:28-53 | the paging loop's specification: every page's repositories, concatenated in order, or the error of the failing request; its properties are `FetchedFailure` and `PagesIncrease` |
| ListPrivateRepos.NonArchived | pkg/uc/listPrivateRepos.go:55-60 | the filter's specification: never longer than its input, and no archived repository in it |
| ListPrivateRepos.Listed | pkg/uc/listPrivateRepos.go:25-63 | the lister's specification: it fails exactly when fetching fails, with that error; a success holds no archived repository |
| ListPrivateRepos.Do | pkg/uc/listPrivateRepos.go:25-63 | paging then filtering gives exactly `Listed(answers)`; request j is type "private", 100 per page, page `PagesRequested[j]` |
| ListPrivateRepos.FetchPages | pkg/uc/listPrivateRepos.go:26-53 | the paging loop gives exactly `Fetched(answers, 1)`, with request j asking for page `PagesRequested[j]` |
| ListPrivateRepos.DropArchived | pkg/uc/listPrivateRepos.go:55-60 | the filter loop gives exactly `NonArchived(repos)` |
| ListPrivateRepos.PagesIncrease | pkg/uc/listPrivateRepos.go:28-52 | the first page requested is 1 and the requested pages strictly increase, because the page moves only when next page > page |
| ListPrivateRepos.PagesFollowCursor | pkg/uc/listPrivateRepos.go:38-52 | each request after the first asks for the previous answer's NextPage, which was past the page it answered; the last request's answer is an error or a NextPage not past its page |
| ListPrivateRepos.FetchedFailure | pkg/uc/listPrivateRepos.go:30-53 | the listing fails if and only if the last request made fails, and then with that request's error unchanged; every earlier request succeeded |
| ListPrivateRepos.NonArchivedAppend | pkg/uc/listPrivateRepos.go:46-60 | filtering a concatenation filters each part and keeps their order |
| ListPrivateRepos.NonArchivedMembers | pkg/uc/listPrivateRepos.go:55-60 | a repository is in the output if and only if it was listed and is not archived |
| ListPrivateRepos.NonArchivedLength | pkg/uc/listPrivateRepos.go:55-62 | output length = listed count − archived count (so empty gives empty) |
| ListPrivateRepos.DropsArchivedExample | pkg/uc/listPrivateRepos.go:55-60 | repo1, repo2 (archived), repo3 list as repo1, repo3 |
| ArchiveUrl.Resolve | pkg/uc/getOrganizationArchiveUrl.go:46-75 | the resolver's specification: every call is made on a tick, there are no more calls than events, and a returned URL is the last call's answer |
| ArchiveUrl.ArchiveUrlResolver.constructor | pkg/uc/getOrganizationArchiveUrl.go:15-36 | a new resolver waits 30 s and ticks every 5 s |
| ArchiveUrl.ArchiveUrlResolver.WithDurationOptions | pkg/uc/getOrganizationArchiveUrl.go:39-44 | sets both durations and returns the same object |
| ArchiveUrl.ArchiveUrlResolver.Do | pkg/uc/getOrganizationArchiveUrl.go:46-75 | with a positive tick period, the loop's result and call count are exactly `Resolve(events)` |
| ArchiveUrl.ArchiveUrlResolver.DoOnTimeline | pkg/uc/getOrganizationArchiveUrl.go:47-74 | with no cancellation, a run with the object's durations is the run of the timeline those durations produce |
| ArchiveUrl.NeverFabricates | pkg/uc/getOrganizationArchiveUrl.go:66-69 | a returned URL is one the provider answered |
| ArchiveUrl.ErrorIsRetried | pkg/uc/getOrganizationArchiveUrl.go:65-70 | a provider error on a tick is swallowed: same result, one more call |
| ArchiveUrl.FirstSuccessReturns | pkg/uc/getOrganizationArchiveUrl.go:67-69 | the first successful answer is returned verbatim after exactly one call |
| ArchiveUrl.DeadlineWraps | pkg/uc/getOrganizationArchiveUrl.go:71-72 | when the context ends before any success (later events are never reached), the error wraps the context's error, after one call per earlier tick |
| ArchiveUrl.CancelledParentMessage | pkg/uc/getOrganizationArchiveUrl.go:71-72 | a cancelled parent context gives exactly "context timed out while getting migration archive URL: context canceled" |
| ArchiveUrl.TicksBefore | pkg/uc/getOrganizationArchiveUrl.go:47-50 | the number of ticks strictly before the deadline: n ticks fit, n+1 do not |
| ArchiveUrl.Timeline | pkg/uc/getOrganizationArchiveUrl.go:47-74 | every timeline ends (the deadline always comes) |
| ArchiveUrl.TimelineBound | pkg/uc/getOrganizationArchiveUrl.go:47-74 | at most one call per tick before the deadline; if none succeeds, the error wraps DeadlineExceeded after calling on every tick |
| ArchiveUrl.DefaultsCallAtMostFive | pkg/uc/getOrganizationArchiveUrl.go:15-74 | with the defaults the provider is called at most 5 times |
| ArchiveUrl.TinyTimeoutFailsUnasked | pkg/uc/getOrganizationArchiveUrl.go:47-72 | a 1 ns timeout with a 5 ms tick fails with DeadlineExceeded and makes no call |
| CreateBackup.Names | pkg/uc/createBackup.go:54-57 | the names list has the repositories' length, and entry i is repository i's name |
| CreateBackup.StatusId | pkg/uc/createBackup.go:70 | the id each status call asks about: the started migration's, then the one the previous status call returned |
| CreateBackup.Fetch | pkg/uc/createBackup.go:84-99 | after the export: one to three calls, the first resolving the exported migration's URL; a success comes only after a 200 download, and its last call saves that body |
| CreateBackup.Backup | pkg/uc/createBackup.go:48-104 | the orchestrator's specification: the first call lists the repositories; a success comes only after a 200 download, and its last call saves that body |
| CreateBackup.CreateBackupUseCase.constructor | pkg/uc/createBackup.go:14-41 | a new use case polls every 5 s |
| CreateBackup.CreateBackupUseCase.WithPollingInterval | pkg/uc/createBackup.go:43-46 | sets the interval and returns the same object |
| CreateBackup.CreateBackupUseCase.Do | pkg/uc/createBackup.go:48-104 | with a positive polling interval once the ticker is created, the array fill and polling loop give exactly `Backup(organization, env, sink)`: result and call trace |
| CreateBackup.ListingFailureStartsNothing | pkg/uc/createBackup.go:49-52 | a listing failure gives an error wrapping it, and ListRepos is the only call |
| CreateBackup.StartsWithListedNames | pkg/uc/createBackup.go:54-59 | the export is started with exactly the listed names, in order |
| CreateBackup.StatusErrorAborts | pkg/uc/createBackup.go:70-73 | a status error ends the run with an error wrapping it; that status call is the last call |
| CreateBackup.FailedExportStops | pkg/uc/createBackup.go:75-77 | a "failed" state gives "migration failed", with no resolve, download or save, and no further polling |
| CreateBackup.ExportedAfterPolling | pkg/uc/createBackup.go:79-84 | every earlier tick saw an in-progress state; status calls = 1 + index of the "exported" report; the URL is resolved for that migration |
| CreateBackup.FetchCounts | pkg/uc/createBackup.go:84-99 | after export: no status call, and one save if and only if the URL, the download and status 200 all succeed |
| CreateBackup.SinkAtMostOnce | pkg/uc/createBackup.go:95-99 | the sink runs at most once and only on a 200 response; its answer is returned verbatim; success implies it ran |
| CreateBackup.BadStatusNeverSaves | pkg/uc/createBackup.go:95-97 | a non-200 download never calls the sink; once the run reaches it, the error carries the status line |
| CreateBackup.CancelledNeverSucceeds | pkg/uc/createBackup.go:100-101 | an end of the context gives exactly `ctx.Err()`, with no save and one status call per earlier tick |
| CreateBackup.PendingThenExported | pkg/uc/createBackup.go:67-99 | pending then exported, with a 200 download, gives exactly 2 status calls and the sink's location |
| CreateLocalBackup.Disk.Create | pkg/uc/createLocalBackup.go:86-89 | on success the file exists and is empty; on failure nothing changes |
| CreateLocalBackup.Disk.Write | pkg/uc/createLocalBackup.go:102 | appends to the file and changes nothing else |
| CreateLocalBackup.Save | pkg/uc/createLocalBackup.go:85-113 | saving's specification: a failed create changes nothing; otherwise the path exists and no other file changes; a success leaves the downloaded body at the path |
| CreateLocalBackup.LocalBackup | pkg/uc/createLocalBackup.go:36-83 | the local run's specification: the first call lists the repositories; the disk changes only after the listing, the start, a first tick and the URL all succeed |
| CreateLocalBackup.SaveMigrationArchive | pkg/uc/createLocalBackup.go:85-113 | the step sequence gives exactly `Save(files, path, answers)`: result and file system |
| CreateLocalBackup.Do | pkg/uc/createLocalBackup.go:36-83 | the run gives exactly `LocalBackup(...)`: result, call trace and file system |
| CreateLocalBackup.FileCreatedFirst | pkg/uc/createLocalBackup.go:86-100 | the file exists once it is created, even if the download fails or returns non-200, and is then empty |
| CreateLocalBackup.SaveTouchesOnlyPath | pkg/uc/createLocalBackup.go:85-113 | no file except the backup path changes; a failed create changes nothing |
| CreateLocalBackup.SaveSucceeds | pkg/uc/createLocalBackup.go:102-112 | saving succeeds if and only if every step does; it then returns the absolute path, and the file holds the body |
| CreateLocalBackup.SaveErrors | pkg/uc/createLocalBackup.go:92-105 | download and copy errors come back unwrapped; non-200 gives "could not download archive, got status: …"; a failed copy leaves a prefix of the body |
| CreateLocalBackup.ListingFailureStartsNothing | pkg/uc/createLocalBackup.go:37-40 | a listing failure is wrapped; nothing is started and no file is touched |
| CreateLocalBackup.StartsWithListedNames | pkg/uc/createLocalBackup.go:42-49 | the names are the listed ones, in order; only attachments are excluded |
| CreateLocalBackup.FirstTickDecides | pkg/uc/createLocalBackup.go:60-78 | any state except "failed", exported or not, goes straight to resolving the URL, after exactly one status call |
| CreateLocalBackup.FirstTickFails | pkg/uc/createLocalBackup.go:60-67 | a status error (wrapped) or "failed" ends the run after one status call, touching no file |
| CreateLocalBackup.CancelledReturnsContextError | pkg/uc/createLocalBackup.go:79-80 | an end of the context gives `ctx.Err()`, with no status call and no file touched |
| CreateLocalBackup.SuccessWritesArchive | pkg/uc/createLocalBackup.go:73-112 | a successful run returns the absolute path, and the file holds exactly the downloaded body |
| CreateRemoteBackup.FormatDateOnly | pkg/uc/createRemoteBackup.go:33 | the date prints as 10 characters with '-' at positions 4 and 7 |
| CreateRemoteBackup.ParseFormat | pkg/uc/createRemoteBackup.go:33 | parsing a formatted date gives the date back |
| CreateRemoteBackup.FormatParse | pkg/uc/createRemoteBackup.go:33 | a string that parses is the formatting of its date |
| CreateRemoteBackup.BlobName | pkg/uc/createRemoteBackup.go:33 | the name is exactly the date, then "-", then the organization, then "-migration.tar.gz": each part at its place and the length their sum |
| CreateRemoteBackup.BlobNameDeterminesOrgAndDate | pkg/uc/createRemoteBackup.go:33 | on one day different organizations get different names; the date reads back from the name |
| CreateRemoteBackup.RemoteSink | pkg/uc/createRemoteBackup.go:32-35 | the sink passes the body unchanged to Upload under the day's blob name and returns Upload's answer |
| CreateRemoteBackup.Do | pkg/uc/createRemoteBackup.go:31-38 | a success is Upload's answer for the downloaded body under the day's blob name |
| CreateRemoteBackup.DoReturnsUploadAnswer | pkg/uc/createRemoteBackup.go:31-38 | a success is exactly Upload's answer for the downloaded body; without an upload the run fails |
| CreateRemoteBackup.FormatExample | pkg/uc/createRemoteBackup.go:33 | 23 July 2025 prints as 2025-07-23 |
| CreateRemoteBackup.BlobNameExample | pkg/uc/createRemoteBackup.go:33 | 2025-07-23 with "acme" gives "2025-07-23-acme-migration.tar.gz" |
| Config.GetString | pkg/config/config.go:26-29 | a missing key reads as "" |
| Config.NewAzureStorageConfig | pkg/config/config.go:25-41 | a success has four non-empty settings; a failure is the zero config with "azure Storage configuration is incomplete" |
| Config.NewSentryConfig | pkg/config/config.go:47-57 | succeeds exactly when the DSN it returns is non-empty; a failure is the zero config with "sentry config is incomplete" |
| Config.Validate | pkg/config/config.go:66-99 | a failed file read gives an error wrapping it; a success holds a non-empty token, four non-empty Azure settings and a non-empty DSN |
| Config.Config.constructor | pkg/config/config.go:95-99 | the built config holds the validated settings, with no organization |
| Config.Config.WithOrganization | pkg/config/config.go:102-106 | sets only the organization and returns the same object |
| Config.Config.GetSentryConfig | pkg/config/config.go:108-110 | returns the stored Sentry settings |
| Config.New | pkg/config/config.go:66-100 | New succeeds if and only if `Validate` does, giving a fresh object that holds the settings (no organization); otherwise it returns the first failing check's error |
| Config.AzureConfigIff | pkg/config/config.go:25-41 | Azure succeeds if and only if all four keys are non-empty, and copies them; otherwise it returns the zero config and "azure Storage configuration is incomplete" |
| Config.SentryConfigIff | pkg/config/config.go:47-57 | Sentry succeeds if and only if the DSN is non-empty; otherwise it returns the zero config with the error |
| Config.TokenCheckedFirst | pkg/config/config.go:80-83 | a missing token fails with the token error, whatever the other settings are |
| Config.AzureCheckedBeforeSentry | pkg/config/config.go:85-93 | with a token, incomplete Azure settings fail with the Azure error before Sentry is checked |
| Config.ValidateIff | pkg/config/config.go:74-99 | New succeeds if and only if the file read did not fail and the token, the four Azure settings and the DSN are present; the settings then hold the token, the four Azure values and the DSN |
| StorageConfig.GetBool | pkg/config/storage.go:52 | a true flag comes only from a key that is present |
| StorageConfig.NewObjectStorageConfig | pkg/config/storage.go:47-65 | a success has four non-empty settings; a failure is the zero config with "object storage configuration is incomplete" |
| StorageConfig.CreateStorageConfigs | pkg/config/storage.go:67-88 | success only for "azure" or "object"; the config of the backend not named is always zero |
| StorageConfig.ObjectConfigIff | pkg/config/storage.go:47-65 | object storage succeeds if and only if endpoint, keys and bucket are non-empty, and copies them; otherwise it returns the zero config |
| StorageConfig.UseSslIrrelevant | pkg/config/storage.go:52-55 | changing or removing UseSSL never changes validity or the other fields |
| StorageConfig.AzureBackendOnly | pkg/config/storage.go:73-77 | "azure" fills only the Azure config; object stays zero; errors wrap the Azure error |
| StorageConfig.ObjectBackendOnly | pkg/config/storage.go:78-82 | "object" fills only the object config; Azure stays zero; errors wrap the object error |
| StorageConfig.UnknownBackendFails | pkg/config/storage.go:83-85 | another name fails naming itself and "azure, object"; both configs are zero |
| MinioBlob.Stream.Seek | pkg/storage/minio/blob.go:61-69 | a seek to the end or the start sets and returns that offset; a failed seek leaves the position |
| MinioBlob.Size | pkg/storage/minio/blob.go:55-72 | the probe succeeds exactly when the stream can seek and both seeks succeed, giving the length and position 0 |
| MinioBlob.GetUrl | pkg/storage/minio/blob.go:40-53 | the URL is built exactly when the join succeeds; a join error is wrapped |
| MinioBlob.UploadSpec | pkg/storage/minio/blob.go:24-38 | at most one PutObject call; a success put the whole stream with its length under the bucket and name |
| MinioBlob.GetSize | pkg/storage/minio/blob.go:55-72 | the probe gives exactly `Size(...)`, and leaves the stream at the position it states |
| MinioBlob.Upload | pkg/storage/minio/blob.go:24-38 | the steps give exactly `UploadSpec(...)`: result and PutObject calls; without a PutObject call the stream is left where the size probe left it, and after one it has been read to its end |
| MinioBlob.UrlShape | pkg/storage/minio/blob.go:40-53 | "https" if and only if UseSSL; the URL is exactly scheme://endpoint/bucket/name: each part at its place and the length their sum |
| MinioBlob.NotSeekableNeverPuts | pkg/storage/minio/blob.go:24-59 | a non-seekable stream fails with "cannot cast reader to seeker", wrapped, and no PutObject call is made |
| MinioBlob.SizeProbe | pkg/storage/minio/blob.go:55-72 | the probe succeeds if and only if both seeks do; it then gives the length and leaves position 0; a seek error is propagated |
| MinioBlob.UploadOutcome | pkg/storage/minio/blob.go:30-37 | PutObject gets the whole stream and its size; its error is wrapped; on success the answer is `GetUrl(blobName)` |
| StorageFactory.NewBlobRepository | context/storageFactory.go:12-31 | a repository is the MinIO one only for "object" and the Azure one only for "azure" |
| StorageFactory.DispatchesOnBackend | context/storageFactory.go:12-26 | a repository is returned if and only if the named backend's client is built; it is that backend's repository; the other client is unused |
| StorageFactory.ClientErrorWrapped | context/storageFactory.go:16-25 | a client error gives no repository and an error wrapping it |
| StorageFactory.UnknownBackendRefused | context/storageFactory.go:28-29 | another name is refused, naming itself and "azure, object" |

## Left out

- Network, SDK and file I/O (GitHub API calls, `http.Get`, `os.Create`, `io.Copy`, `filepath.Abs`, `PutObject`, client construction) are oracles: their answers are parameters, not behaviour.
- `ticker.Stop`, `resp.Body.Close`, `out.Close`, `cancel()` and the logging and progress printing have no effect the model could observe.
- Time and concurrency are events. A polling run is a sequence of ticks and context ends, and which event comes next in a `select` is given, not modelled.
- Common.Error.Is: Go's `errors.Is` compares `errors.New` and `fmt.Errorf` values by identity; the model compares them by value, so two separately built errors with the same text count as equal here. An `Is` claim whose target is a collaborator's error or a context error (`context.DeadlineExceeded` and `context.Canceled` are shared values) agrees with Go. Where the target is a message the code builds afresh on each call (`AzureIncomplete` in StorageConfig.AzureBackendOnly, `ObjectIncomplete` in StorageConfig.ObjectBackendOnly, `Message("migration failed")` in CreateBackup.FailedExportStops and CreateLocalBackup.FirstTickFails), the claim identifies the error by its text only: in Go, `errors.Is` against a separately built error with that text is false.
- ArchiveUrl.ArchiveUrlResolver.Do: requires a positive tick duration, because `time.NewTicker` panics on zero or a negative duration before the first call; the panic is not modelled.
- CreateBackup.CreateBackupUseCase.Do: requires a positive polling interval whenever the listing and the start succeed, because the ticker is created only then and `time.NewTicker` would panic; the panic, which comes after StartMigration has already started the export, is not modelled.
- ArchiveUrl.ArchiveUrlResolver.DoOnTimeline: assumes an uncancelled parent context and a deadline that wins a tie with a tick. Provider calls are taken to return before the next tick, so no tick is dropped and no call outlasts the deadline. In Go a slow call can make `time.Ticker` drop ticks, and the call uses the parent context, so it can run past the deadline. It requires a positive tick duration, because `time.NewTicker` panics on zero or a negative duration.
- ArchiveUrl.ArchiveUrlResolver.Do, CreateBackup.CreateBackupUseCase.Do: the Go loops can run forever (a provider that keeps failing, a context that never ends). The model requires the event sequence to contain an event on which the loop returns, so non-terminating runs are not modelled.
- CreateBackup.CreateBackupUseCase.Do: the polling interval field does not shape the event sequence; only the resolver's timeline is derived from durations.
- ListPrivateRepos.Do, ListPrivateRepos.FetchPages: the answer sequence must contain a stopping answer (an error, or a next page not past the page asked for); a provider whose cursors grow for ever is not modelled.
- GitHub.ListOrgRepos: the answer sequence must contain an error or an answer with next page 0. This loop goes on for any non-zero next page, so a provider that answers page 1 with next page 1 for ever makes the Go loop run for ever, appending the same page again and again; such runs are not modelled. (The lister in pkg/uc/listPrivateRepos.go stops on that input, because it moves on only when the next page is greater.)
- A sink in Go returns a string and an error together; the model's sink returns one `Result`.
- A repository whose `Name` is nil makes `*repo.Name` panic; names are plain strings here.
- MinioBlob.Upload: PutObject is taken to read the stream to its end, whether or not it then fails; how far a failing PutObject reads is not modelled.
- ArchiveUrl.TimelineBound: its "a call on every tick before the deadline" rests on the timeline's fast-provider assumption above; with slow calls the program calls less often. Its upper bound, and ArchiveUrl.DefaultsCallAtMostFive, hold either way.
- MinioBlob.GetUrl: `url.JoinPath` is a plain "/"-join and its parse failure is an oracle. Its path cleaning (dot segments, duplicate slashes) and percent-escaping (a space becomes `%20`) are not modelled, so MinioBlob.UrlShape's exact URL holds only for names that need no escaping; dates and GitHub organization names need none.
- StorageConfig.GetBool: viper's string-to-bool conversion is taken to be `strconv.ParseBool`'s true spellings, with anything else false.
- Config.New: reading the `.env` file and the process environment is one map from key to value plus the outcome of the file read; configuration precedence is not modelled.
- CreateRemoteBackup.Do: `time.Now()` is a `Date` parameter; time zones are not modelled, and the date check does not exclude invalid days such as 31 February.
- The Azure blob repository (pkg/storage/azure/blob.go) and its `Upload` are not part of this model; the factory's Azure result is only the repository value.
- The construct-once client singletons (context/minioClient.go, context/azureBlobClient.go, context/githubClient.go), the CLI commands, `main.go` and the logger are not part of this model.
- Integer widths: migration and page numbers are unbounded integers; `int64` overflow is not reachable in the modelled logic.
