/**
 * The entities the backup handlers work on: the stored `Backup` record,
 * the database configuration that selects the dump command line, and the
 * external calls ("effects") that the handlers issue.
 */
module BackupModel {

  /** One snapshot run, as written to and read from the metadata store. */
  datatype Backup = Backup(
    backupID: string,
    orgID: string,
    backupName: string,
    backupType: string,
    createdAt: int)

  /** The zero value of the record: what Go's `var b models.Backup` holds. */
  const ZeroBackup: Backup := Backup("", "", "", "", 0)

  /** The only backup type the handlers produce. */
  const SystemBackup: string := "SYSTEM"

  /** The database part of the process-wide configuration. */
  datatype DbConfig = DbConfig(sslEnabled: bool, server: string, port: string)

  /** An external process: program name, arguments after it, working directory. */
  datatype Command = Command(program: string, args: seq<string>, dir: string)

  /** An external call issued by a handler, in the order it is issued. */
  datatype Effect =
    | GetOrg(orgID: string)
    | LoadLocation(timezone: string)
    | MkdirAll(path: string)
    | CreateFile(path: string)
    | StdoutPipe
    | StartProcess(cmd: Command)
    | WaitProcess
    | ArchiveFiles(sources: seq<string>, output: string)
    | StoreBackupMeta(record: Backup)
    | GetBackupMetas(ownerOrgID: string)

  /** The trace starts the dump process. */
  predicate StartsDump(calls: seq<Effect>)
  {
    exists e :: e in calls && e.StartProcess?
  }

  /** The trace calls the archiver. */
  predicate Archives(calls: seq<Effect>)
  {
    exists e :: e in calls && e.ArchiveFiles?
  }

  /** The trace writes a metadata record. */
  predicate StoresMeta(calls: seq<Effect>)
  {
    exists e :: e in calls && e.StoreBackupMeta?
  }

  /** The trace reads the organisation's listing. */
  predicate ListsMetas(calls: seq<Effect>)
  {
    exists e :: e in calls && e.GetBackupMetas?
  }
}
