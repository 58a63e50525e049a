# Backups in trasa: a verified model

This project models the backup handlers of the trasa server. There are three of them.

- **Take a backup now.** It looks up the caller's organisation and loads that organisation's timezone. From the current time it names the run `trasa-backup-<timestamp>`. It runs `cockroach dump trasadb` into `/var/trasa/backup/<name>/cockroach-back.sql` and zips the directory to `/var/trasa/backup/<name>.zip`. Then it stores a `SYSTEM` backup record and replies with the organisation's full listing.
- **List backups.** It returns the whole listing. With `latest=true` it returns only the first record, with the listing's length.
- **Download a backup.** It serves `/var/trasa/backup/<name>.zip` as an `application/zip` attachment named `<name>.zip`.

Every external call is an input to the model: the organisation lookup, timezone loading, directory and file creation, the pipe, process start and wait, the archiver, and the metadata store. Each such input is an `Outcome` (pass or error) or a `Result` (value or error). The handlers that issue calls in sequence return the `seq<Effect>` of calls they issued. The properties below are stated over that trace.

Modules:

- `Wrappers`: `Option`, `Result`, `Outcome`.
- `BackupModel`: the `Backup` record, its zero value, the database configuration, the dump `Command` and the `Effect` calls.
- `Naming`: the pure derivations. These are the backup name, working directory, dump file, artifact path, download path, `Content-Disposition` value and the SSL-dependent `cockroach` arguments.
- `Dump`: `backupCRDB`, a chain of early-return calls, plus the `FailIndex`/`FirstError`/`Issued` account of such chains.
- `Handlers`: `TakeBackupNow`, `takeSysBackup`, `archive`, `GetBackups` and `DownloadBackupFile`. `TakeCalls` is the specification of the take-backup trace; the lemmas about it state which failure stops which call.

What the code does, and the model with it:

- An archive failure is logged and ignored, and the metadata record is still written, because `archive` returns nothing.
- With `latest=true` the listing handler returns the first record of the store's listing. Nothing in this file orders that listing, so the model does not claim it is the newest record.

## Model

| member | source | states |
|---|---|---|
| `Naming.BackupName` | server/api/backups/handlers.go:43 | the name is the prefix `trasa-backup-` followed by the formatted timestamp, unchanged |
| `Naming.StampRoundTrip` | server/api/backups/handlers.go:43 | a timestamp and the name built from it determine each other, in both directions |
| `Naming.PlainNameIffSlashFree` | server/api/backups/handlers.go:43 | a backup name is a single path component exactly when its timestamp holds no slash |
| `Naming.BackupDir` | server/api/backups/handlers.go:45 | the directory path is `/var/trasa/backup/` followed by the name (a direct entry of the root when the name is one component: see `Naming.ArtifactBesideDir`) |
| `Naming.ArchivePath` | server/api/backups/handlers.go:54 | the artifact is the working directory's path followed by `.zip` |
| `Naming.DumpFile` | server/api/backups/handlers.go:113 | the dump output file is `cockroach-back.sql` inside the working directory |
| `Naming.DownloadPath` | server/api/backups/handlers.go:183 | the path served for a name equals the archive path of that name's working directory, as written at take time |
| `Naming.AttachmentFileName` | server/api/backups/handlers.go:186 | the attachment's file name is the served path with the `/var/trasa/backup/` root removed |
| `Naming.ContentDisposition` | server/api/backups/handlers.go:186-188 | the header is `attachment; filename=` followed by the attachment file name `<name>.zip` |
| `Naming.DumpArgs` | server/api/backups/handlers.go:103-107 | always `dump trasadb`; `--insecure` present exactly when SSL is off; the certificate directory present exactly when SSL is on, with `--host=<server>:<port>` last |
| `Naming.DownloadPathInjective` | server/api/backups/handlers.go:183 | two names served from the same path are the same name |
| `Naming.DistinctNamesDistinctPaths` | server/api/backups/handlers.go:43-45 | distinct names never give equal directory, dump-file or artifact path strings, nor equal attachment headers |
| `Naming.ArtifactBesideDir` | server/api/backups/handlers.go:54 | for a name that is one path component (prefixed, slash-free), the directory and the artifact are two different entries directly in the backup root, and the dump file is an entry directly in the directory; the artifact is not inside the directory it packs |
| `Dump.FailIndex` | server/api/backups/handlers.go:95-130 | the index of the first failing step of an early-return chain: every step before it passed, and it failed |
| `Dump.FirstError` | server/api/backups/handlers.go:95-133 | the chain reports success exactly when every step passed, and otherwise the error of the first failing step (`FailIndex`), unchanged |
| `Dump.Issued` | server/api/backups/handlers.go:95-133 | the chain issues every call up to and including the first failing one, and all of them when none fails |
| `Dump.DumpCallsKinds` | server/api/backups/handlers.go:95-133 | a dump, wherever it stops, issues no lookup, archive or metadata call |
| `Dump.BackupCRDB` | server/api/backups/handlers.go:91-135 | returns the first failing step's error unchanged and issues the dump's calls up to that step. The process starts only after the directory, output file and pipe all succeeded. Every started process is `cockroach` with `DumpArgs` of the configuration, run in the working directory |
| `Handlers.TakeSysBackup` | server/api/backups/handlers.go:75-89 | sets type `SYSTEM` and the creation time and leaves id, organisation and name as given. It returns the dump's error unchanged along with the record |
| `Handlers.Archive` | server/api/backups/handlers.go:161-168 | issues the archiver call on the one source directory, and gives its caller no result, whatever the archiver returned |
| `Handlers.TakeBackupNow` | server/api/backups/handlers.go:20-72 | issues exactly the calls of `TakeCalls`. Each failing step except the archive gets its own failed reply. It succeeds exactly when the lookup, timezone, dump, store and listing all succeed, and then carries the full listing |
| `Handlers.UnresolvedRunTouchesNothing` | server/api/backups/handlers.go:28-40 | a failed org lookup or timezone issues only those calls: no directory, dump, archive, record or listing |
| `Handlers.FailedDumpStoresNothing` | server/api/backups/handlers.go:47-52 | a failed dump has always issued the directory creation, but never archives, stores metadata or lists |
| `Handlers.MetaStoredIffDumped` | server/api/backups/handlers.go:47-64 | metadata is written, and the archive tried, exactly when lookup, timezone and dump succeeded. The listing is read exactly when the write also succeeded |
| `Handlers.ArchiveResultIgnored` | server/api/backups/handlers.go:54 | changing the archiver's result changes no call the run issues |
| `Handlers.StoredRecordFields` | server/api/backups/handlers.go:23-87 | a record is written only after the dump process was waited for. It holds the fresh id, the user's organisation, the prefixed name, type `SYSTEM` and the creation time |
| `Handlers.ServedArtifactIsArchived` | server/api/backups/handlers.go:45-54 | for the stored record, the download handler serves exactly the file the archiver was asked to write in that run, from the run's directory; for a slash-free timestamp that file is not inside the directory |
| `Handlers.GetBackups` | server/api/backups/handlers.go:137-159 | fails exactly when the store fails. With `latest=true` it returns the first record, or the zero record for an empty listing, with the listing's length. Otherwise it returns the whole listing |
| `Handlers.LatestIsHeadOfListing` | server/api/backups/handlers.go:147-157 | the latest view is the head of the full view (or the zero record) together with the full view's length |
| `Handlers.LatestViewsEqualIff` | server/api/backups/handlers.go:148-153 | two listings give the same latest view exactly when their lengths agree and their first records agree; the count tells "none" from "one" |
| `Handlers.DownloadBackupFile` | server/api/backups/handlers.go:170-192 | refuses exactly when the metadata lookup fails. Otherwise it serves the artifact path of the record's name, with the attachment header of that name and type `application/zip` |

## Left out

- HTTP plumbing: the request context and user extraction, `chi.URLParam`, the wire format of `utils.TrasaResponse` and `http.ServeFile`. Only the status, message, intent, payload, headers and served path are modelled.
- The metadata lookups made by the listing and download handlers. `GetBackups` and `DownloadBackupFile` take the store's answer as input, so the keys they query with are not part of their result. The keys are the user's organisation id for the listing, and the backup id with the session organisation id for the download.
- The store's own behaviour: ordering of the listing, uniqueness of names or ids, tenant scoping. None of it is enforced in this file, so the listing and records are arbitrary inputs.
- `utils.GetUUID`, `time.Now`, `time.LoadLocation` and RFC 3339 formatting are not modelled. The id, the formatted timestamp, the epoch seconds and the timezone outcome are inputs; the two readings of the clock are independent inputs.
- Logging (`logrus`) is not recorded in the trace.
- The process-wide configuration is not read; the SSL flag, server and port are a parameter.
- The external process is not run. Its output stream, its exit code beyond ok/error, the `go io.Copy` goroutine, and the deferred `Flush`/`Close` of the output file are left out. The model therefore says nothing about the dump file's contents or completeness: the copy is never joined before `cmd.Wait` returns.
- The timestamp text is an arbitrary string. The file-system reading of the path lemmas (`Naming.ArtifactBesideDir`, the last clause of `Handlers.ServedArtifactIsArchived`) holds only for a slash-free timestamp, which every RFC 3339 text is. For other strings only the path-string facts hold.
- The archiver library is an opaque ok/error result. The zip's contents are not modelled.
- Directory permissions (the code creates the directory with mode `0655`) and the semantics of `os.MkdirAll`/`os.Create` beyond success or failure are not modelled.
