/**
 * The three backup handlers: take a backup now, list the organisation's
 * backups, and serve one backup's artifact. Each external result is an
 * input; each handler returns the reply it sends and, where it issues
 * external calls in sequence, the calls it issued.
 */
module Handlers {
  import opened Wrappers
  import opened BackupModel
  import opened Naming
  import opened Dump

  /** A handler's reply: status, message, intent and an optional payload. */
  datatype Reply<D> = Reply(status: string, reason: string, intent: string, data: Option<D>)

  const StatusFailed: string := "failed"
  const StatusSuccess: string := "success"
  const NotTaken: string := "Backup not taken"
  const ListIntent: string := "GetBackups"

  function Failed<D>(reason: string, intent: string): Reply<D>
  {
    Reply(StatusFailed, reason, intent, None)
  }

  function Succeeded<D>(reason: string, intent: string, data: D): Reply<D>
  {
    Reply(StatusSuccess, reason, intent, Some(data))
  }

  /** The caller: the user's own organisation and the organisation of the session. */
  datatype UserContext = UserContext(userOrgID: string, orgID: string)

  /** The part of an organisation's details the handlers read. */
  datatype OrgDetails = OrgDetails(timezone: string)

  /** Everything the take-backup handler obtains from outside itself. */
  datatype TakeInputs = TakeInputs(
    uuid: string,                              // the fresh backup id
    org: Result<OrgDetails, string>,           // organisation lookup
    location: Outcome<string>,                 // loading the organisation's timezone
    nowText: string,                           // the current time, formatted in that timezone
    nowUnix: int,                              // the current time in epoch seconds
    dump: DumpOracle,                          // the dump executor's calls
    archive: Outcome<string>,                  // the archiver
    store: Outcome<string>,                    // writing the metadata record
    metas: Result<seq<Backup>, string>)        // reading the organisation's listing

  /** The organisation was found and its timezone loads. */
  predicate Resolved(env: TakeInputs)
  {
    env.org.Success? && env.location.Pass?
  }

  /** Resolved, and the dump reported no error. */
  predicate Dumped(env: TakeInputs)
  {
    Resolved(env) && FirstError(DumpSteps(env.dump)).Pass?
  }

  /** The working directory of the run. */
  function TargetDir(env: TakeInputs): string
  {
    BackupDir(BackupName(env.nowText))
  }

  /**
   * Marks the record as a system backup created at `nowUnix`, runs the dump
   * into `dir` and returns the record together with the dump's error,
   * unchanged, whether or not the dump succeeded.
   */
  method TakeSysBackup(dir: string, backup: Backup, nowUnix: int, cfg: DbConfig, o: DumpOracle)
    returns (back: Backup, err: Outcome<string>, calls: seq<Effect>)
    ensures back.backupID == backup.backupID && back.orgID == backup.orgID
    ensures back.backupName == backup.backupName
    ensures back.backupType == SystemBackup && back.createdAt == nowUnix
    ensures err == FirstError(DumpSteps(o))
    ensures calls == DumpCalls(dir, cfg)[..Issued(DumpSteps(o))]
  {
    back := backup;
    back := back.(backupType := SystemBackup);
    back := back.(createdAt := nowUnix);
    err, calls := BackupCRDB(dir, cfg, o);
  }

  /**
   * Packs `source` into `output`. The archiver's error is dropped: the
   * caller learns nothing of it, and the only trace is the call itself.
   */
  method Archive(source: string, output: string, result: Outcome<string>) returns (calls: seq<Effect>)
    ensures calls == [ArchiveFiles([source], output)]
  {
    calls := [ArchiveFiles([source], output)];
  }

  /** The record a run stores: its fields as the handler fills them in, one by one. */
  function NewRecord(ctx: UserContext, env: TakeInputs): (b: Backup)
  {
    Backup(env.uuid, ctx.userOrgID, BackupName(env.nowText), SystemBackup, env.nowUnix)
  }

  /**
   * The calls a take-backup run issues, in order: the lookup, the timezone,
   * the dump up to its first failure, then the archive and the record, then
   * the listing, each group only when everything before it succeeded (the
   * archive's own result excepted).
   */
  ghost function TakeCalls(ctx: UserContext, cfg: DbConfig, env: TakeInputs): seq<Effect>
  {
    var lookup := [GetOrg(ctx.orgID)];
    if env.org.Failure? then lookup
    else
      var resolved := lookup + [LoadLocation(env.org.value.timezone)];
      if env.location.Fail? then resolved
      else
        var dir := TargetDir(env);
        var dumped := resolved + DumpCalls(dir, cfg)[..Issued(DumpSteps(env.dump))];
        if FirstError(DumpSteps(env.dump)).Fail? then dumped
        else
          var stored := dumped + [ArchiveFiles([dir], ArchivePath(dir)), StoreBackupMeta(NewRecord(ctx, env))];
          if env.store.Fail? then stored
          else stored + [GetBackupMetas(ctx.userOrgID)]
  }

  /**
   * Takes a backup for the caller's organisation: look up the organisation,
   * load its timezone, name the run, dump, archive, store the record, read
   * the listing. Each failing step but the archive ends the run with a
   * failed reply and issues nothing after it.
   */
  method TakeBackupNow(ctx: UserContext, cfg: DbConfig, env: TakeInputs)
    returns (reply: Reply<seq<Backup>>, calls: seq<Effect>)
    ensures calls == TakeCalls(ctx, cfg, env)
    ensures env.org.Failure? ==> reply == Failed("failed to org data", NotTaken)
    ensures env.org.Success? && env.location.Fail? ==> reply == Failed("Invalid timezone", NotTaken)
    ensures Resolved(env) && !Dumped(env) ==> reply == Failed("failed to take backup", NotTaken)
    ensures Dumped(env) && env.store.Fail? ==> reply == Failed("failed to store backup meta", NotTaken)
    ensures Dumped(env) && env.store.Pass? && env.metas.Failure? ==>
      reply == Failed("failed to fetch backup meta", NotTaken)
    ensures reply.status == StatusSuccess <==> Dumped(env) && env.store.Pass? && env.metas.Success?
    ensures reply.status == StatusSuccess ==>
      reply == Succeeded("backup created", "Backup taken", env.metas.value)
  {
    var backup := ZeroBackup;
    backup := backup.(backupID := env.uuid);
    backup := backup.(orgID := ctx.userOrgID);

    calls := [GetOrg(ctx.orgID)];
    if env.org.Failure? {
      reply := Failed("failed to org data", NotTaken);
      return;
    }
    var orgDetails := env.org.value;

    calls := calls + [LoadLocation(orgDetails.timezone)];
    if env.location.Fail? {
      reply := Failed("Invalid timezone", NotTaken);
      return;
    }

    backup := backup.(backupName := BackupName(env.nowText));
    var dir := BackupDir(backup.backupName);

    var back, err, dumpCalls := TakeSysBackup(dir, backup, env.nowUnix, cfg, env.dump);
    calls := calls + dumpCalls;
    if err.Fail? {
      reply := Failed("failed to take backup", NotTaken);
      return;
    }

    var archiveCalls := Archive(dir, ArchivePath(dir), env.archive);
    calls := calls + archiveCalls;

    calls := calls + [StoreBackupMeta(back)];
    if env.store.Fail? {
      reply := Failed("failed to store backup meta", NotTaken);
      return;
    }

    calls := calls + [GetBackupMetas(ctx.userOrgID)];
    if env.metas.Failure? {
      reply := Failed("failed to fetch backup meta", NotTaken);
      return;
    }

    reply := Succeeded("backup created", "Backup taken", env.metas.value);
  }

  /**
   * A failed organisation lookup or timezone ends the run before anything
   * touches the disk, the dump tool, the archiver or the metadata store.
   */
  lemma UnresolvedRunTouchesNothing(ctx: UserContext, cfg: DbConfig, env: TakeInputs)
    requires !Resolved(env)
    ensures forall e | e in TakeCalls(ctx, cfg, env) :: e.GetOrg? || e.LoadLocation?
    ensures !StartsDump(TakeCalls(ctx, cfg, env)) && !Archives(TakeCalls(ctx, cfg, env))
    ensures !StoresMeta(TakeCalls(ctx, cfg, env)) && !ListsMetas(TakeCalls(ctx, cfg, env))
  {
  }

  /**
   * A failed dump ends the run: neither the archiver nor the metadata store
   * nor the listing is reached, though the directory may have been created.
   */
  lemma FailedDumpStoresNothing(ctx: UserContext, cfg: DbConfig, env: TakeInputs)
    requires Resolved(env) && !Dumped(env)
    ensures MkdirAll(TargetDir(env)) in TakeCalls(ctx, cfg, env)
    ensures !Archives(TakeCalls(ctx, cfg, env)) && !StoresMeta(TakeCalls(ctx, cfg, env))
    ensures !ListsMetas(TakeCalls(ctx, cfg, env))
  {
    var calls := TakeCalls(ctx, cfg, env);
    var n := Issued(DumpSteps(env.dump));
    var prefix := [GetOrg(ctx.orgID), LoadLocation(env.org.value.timezone)];
    assert calls == prefix + DumpCalls(TargetDir(env), cfg)[..n];
    assert 0 < n;
    assert calls[2] == MkdirAll(TargetDir(env));
    DumpCallsKinds(TargetDir(env), cfg, n);
    forall e | e in calls
      ensures !e.ArchiveFiles? && !e.StoreBackupMeta? && !e.GetBackupMetas?
    {
      if e !in prefix {
        assert e in DumpCalls(TargetDir(env), cfg)[..n];
      }
    }
  }

  /**
   * Metadata is written exactly when the lookup, the timezone and the dump
   * all succeeded; the archive is attempted in exactly the same runs, and
   * its result plays no part. The listing is read only after the record
   * was written.
   */
  lemma MetaStoredIffDumped(ctx: UserContext, cfg: DbConfig, env: TakeInputs)
    ensures StoresMeta(TakeCalls(ctx, cfg, env)) <==> Dumped(env)
    ensures Archives(TakeCalls(ctx, cfg, env)) <==> Dumped(env)
    ensures ListsMetas(TakeCalls(ctx, cfg, env)) <==> Dumped(env) && env.store.Pass?
    ensures StartsDump(TakeCalls(ctx, cfg, env)) ==> Resolved(env)
  {
    var calls := TakeCalls(ctx, cfg, env);
    if !Resolved(env) {
      UnresolvedRunTouchesNothing(ctx, cfg, env);
    } else if !Dumped(env) {
      FailedDumpStoresNothing(ctx, cfg, env);
    } else {
      var dir := TargetDir(env);
      assert Issued(DumpSteps(env.dump)) == 5;
      assert calls[7] == ArchiveFiles([dir], ArchivePath(dir));
      assert calls[8] == StoreBackupMeta(NewRecord(ctx, env));
      if env.store.Pass? {
        assert calls[9] == GetBackupMetas(ctx.userOrgID);
      } else {
        DumpCallsKinds(dir, cfg, 5);
        forall e | e in calls
          ensures !e.GetBackupMetas?
        {
          if e !in calls[..7] {
            assert e in calls[7..];
          } else {
            var i :| 0 <= i < 7 && calls[..7][i] == e;
            if 2 <= i { assert e in DumpCalls(dir, cfg)[..5]; }
          }
        }
      }
    }
  }

  /** The archiver's result changes nothing the run does. */
  lemma ArchiveResultIgnored(ctx: UserContext, cfg: DbConfig, env: TakeInputs, archive: Outcome<string>)
    ensures TakeCalls(ctx, cfg, env.(archive := archive)) == TakeCalls(ctx, cfg, env)
  {
  }

  /**
   * A record is written only after the dump process was waited for, and it
   * carries the fresh id, the user's organisation, the prefixed name, the
   * SYSTEM type and the creation time.
   */
  lemma StoredRecordFields(ctx: UserContext, cfg: DbConfig, env: TakeInputs, i: nat)
    requires i < |TakeCalls(ctx, cfg, env)| && TakeCalls(ctx, cfg, env)[i].StoreBackupMeta?
    ensures WaitProcess in TakeCalls(ctx, cfg, env)[..i]
    ensures var b := TakeCalls(ctx, cfg, env)[i].record;
      b.backupID == env.uuid && b.orgID == ctx.userOrgID
      && b.backupName == BackupName(env.nowText) && HasPrefix(b.backupName, NamePrefix)
      && b.backupType == SystemBackup && b.createdAt == env.nowUnix
  {
    var calls := TakeCalls(ctx, cfg, env);
    assert StoresMeta(calls);
    MetaStoredIffDumped(ctx, cfg, env);
    assert Issued(DumpSteps(env.dump)) == 5;
    assert calls[6] == WaitProcess;
    assert i == 8;
    assert calls[..i][6] == WaitProcess;
  }

  /**
   * The file the download handler serves for the stored record is the
   * artifact the archiver was asked to write in the same run, and it lies
   * beside the directory that holds the dump, not inside it.
   */
  lemma ServedArtifactIsArchived(ctx: UserContext, cfg: DbConfig, env: TakeInputs, i: nat, j: nat)
    requires i < |TakeCalls(ctx, cfg, env)| && TakeCalls(ctx, cfg, env)[i].ArchiveFiles?
    requires j < |TakeCalls(ctx, cfg, env)| && TakeCalls(ctx, cfg, env)[j].StoreBackupMeta?
    ensures DownloadBackupFile(Success(TakeCalls(ctx, cfg, env)[j].record)).ServeFile?
    ensures DownloadBackupFile(Success(TakeCalls(ctx, cfg, env)[j].record)).path
         == TakeCalls(ctx, cfg, env)[i].output
    ensures TakeCalls(ctx, cfg, env)[i].sources == [TargetDir(env)]
    ensures '/' !in env.nowText ==> !IsInside(TakeCalls(ctx, cfg, env)[i].output, TargetDir(env))
  {
    var calls := TakeCalls(ctx, cfg, env);
    assert StoresMeta(calls);
    MetaStoredIffDumped(ctx, cfg, env);
    assert Issued(DumpSteps(env.dump)) == 5;
    var dir := TargetDir(env);
    assert calls[..9] == [GetOrg(ctx.orgID), LoadLocation(env.org.value.timezone)] + DumpCalls(dir, cfg)
                         + [ArchiveFiles([dir], ArchivePath(dir)), StoreBackupMeta(NewRecord(ctx, env))];
    assert |calls| <= 10 && (|calls| == 10 ==> calls[9].GetBackupMetas?);
    assert i == 7 && j == 8;
    if '/' !in env.nowText {
      PlainNameIffSlashFree(env.nowText);
      ArtifactBesideDir(BackupName(env.nowText));
    }
  }

  /** What the listing handler sends on success. */
  datatype BackupsView =
    | Latest(latest: Backup, total: nat)   // `latest=true`: one record and the list's length
    | All(backups: seq<Backup>)            // otherwise: the whole list

  /**
   * The listing handler over the store's answer and the `latest` query
   * value (the empty string when the parameter is absent).
   */
  function GetBackups(metas: Result<seq<Backup>, string>, latestParam: string): (reply: Reply<BackupsView>)
    ensures reply.status == StatusSuccess <==> metas.Success?
    ensures metas.Failure? ==> reply == Failed("failed to fetch backup meta", ListIntent)
    ensures metas.Success? && latestParam == "true" ==>
      reply.data.Some? && reply.data.value.Latest?
      && reply.data.value.total == |metas.value|
      && (|metas.value| > 0 ==> reply.data.value.latest == metas.value[0])
      && (|metas.value| == 0 ==> reply.data.value.latest == ZeroBackup)
    ensures metas.Success? && latestParam != "true" ==> reply.data == Some(All(metas.value))
  {
    match metas
    case Failure(_) => Failed("failed to fetch backup meta", ListIntent)
    case Success(resp) =>
      if latestParam == "true" then
        var latestBackup := if |resp| > 0 then resp[0] else ZeroBackup;
        Succeeded("Backups fetched", ListIntent, Latest(latestBackup, |resp|))
      else
        Succeeded("Backups fetched", ListIntent, All(resp))
  }

  /**
   * The `latest=true` view is the head of the full listing (or the zero
   * record when the listing is empty) paired with the full listing's length.
   */
  lemma LatestIsHeadOfListing(metas: seq<Backup>, other: string)
    requires other != "true"
    ensures var full := GetBackups(Success(metas), other).data.value.backups;
      var view := GetBackups(Success(metas), "true").data.value;
      view.total == |full|
      && view.latest == (if full == [] then ZeroBackup else full[0])
  {
  }

  /**
   * Two listings give the same `latest=true` view exactly when they have the
   * same length and, if non-empty, the same first record: the count, not the
   * record, tells "no backups" from "one backup".
   */
  lemma LatestViewsEqualIff(a: seq<Backup>, b: seq<Backup>)
    ensures GetBackups(Success(a), "true") == GetBackups(Success(b), "true")
        <==> |a| == |b| && (a == [] || a[0] == b[0])
  {
  }

  /** What the download handler does. */
  datatype Download =
    | Refused(reply: Reply<Backup>)
    | ServeFile(contentDisposition: string, contentType: string, path: string)

  /**
   * The download handler over the store's answer for the requested id: a
   * failed lookup refuses, a found record serves its artifact as a zip
   * attachment named after the record.
   */
  function DownloadBackupFile(meta: Result<Backup, string>): (d: Download)
    ensures d.Refused? <==> meta.Failure?
    ensures d.Refused? ==> d.reply == Failed("failed to fetch backup meta", ListIntent)
    ensures d.ServeFile? ==>
      d.path == ArchivePath(BackupDir(meta.value.backupName))
      && d.path == BackupRoot + AttachmentFileName(meta.value.backupName)
      && d.contentDisposition == ContentDisposition(meta.value.backupName)
      && d.contentType == ZipContentType
  {
    match meta
    case Failure(_) => Refused(Failed("failed to fetch backup meta", ListIntent))
    case Success(backup) =>
      ServeFile(ContentDisposition(backup.backupName), ZipContentType, DownloadPath(backup.backupName))
  }
}
