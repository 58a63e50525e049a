/**
 * Names, paths, header values and the dump command line that the backup
 * handlers derive from a backup's name and the database configuration.
 * All of them are pure string functions.
 */
module Naming {
  import opened Wrappers
  import opened BackupModel

  const BackupRoot: string := "/var/trasa/backup/"
  const NamePrefix: string := "trasa-backup-"
  const ArchiveSuffix: string := ".zip"
  const DumpFileName: string := "cockroach-back.sql"
  const CockroachBinary: string := "cockroach"
  const CertsFlag: string := "--certs-dir=/etc/trasa/certs"
  const InsecureFlag: string := "--insecure"
  const HostFlagPrefix: string := "--host="
  const AttachmentPrefix: string := "attachment; filename="
  const ZipContentType: string := "application/zip"

  /** `path` begins with `prefix`. */
  predicate HasPrefix(path: string, prefix: string)
  {
    |prefix| <= |path| && path[..|prefix|] == prefix
  }

  /** `path` names something strictly inside the directory `dir`. */
  predicate IsInside(path: string, dir: string)
  {
    HasPrefix(path, dir + "/")
  }

  /**
   * `path` names an entry directly in the directory `parent` (which ends in
   * a slash): `parent` followed by one non-empty, slash-free component.
   */
  predicate DirectChild(path: string, parent: string)
  {
    HasPrefix(path, parent) && |parent| < |path| && '/' !in path[|parent|..]
  }

  /**
   * A name that is a single path component other than `.` and `..`: it
   * carries the backup prefix and no slash. Every name built from an RFC 3339
   * timestamp is one, since such a timestamp holds no slash.
   */
  predicate PlainName(name: string)
  {
    HasPrefix(name, NamePrefix) && '/' !in name
  }

  /**
   * The backup name for a run whose formatted timestamp is `stamp`: the
   * fixed prefix followed by the timestamp, unchanged.
   */
  function BackupName(stamp: string): (name: string)
    ensures HasPrefix(name, NamePrefix)
    ensures name[|NamePrefix|..] == stamp
  {
    NamePrefix + stamp
  }

  /** A name is a single path component exactly when its timestamp holds no slash. */
  lemma PlainNameIffSlashFree(stamp: string)
    ensures PlainName(BackupName(stamp)) <==> '/' !in stamp
  {
  }

  /** Recovers the timestamp from a backup name, if the name has the prefix. */
  function StampOf(name: string): (r: Option<string>)
    ensures r.Some? <==> HasPrefix(name, NamePrefix)
    ensures r.Some? ==> BackupName(r.value) == name
  {
    if HasPrefix(name, NamePrefix) then Some(name[|NamePrefix|..]) else None
  }

  /** The working directory of a run: the backup root followed by the name. */
  function BackupDir(name: string): (dir: string)
    ensures HasPrefix(dir, BackupRoot)
    ensures dir[|BackupRoot|..] == name
  {
    BackupRoot + name
  }

  /** The artifact the archiver writes for a working directory. */
  function ArchivePath(dir: string): (zip: string)
    ensures HasPrefix(zip, dir)
    ensures zip[|dir|..] == ArchiveSuffix
  {
    dir + ArchiveSuffix
  }

  /** The file the dump is streamed into: inside the working directory. */
  function DumpFile(dir: string): (path: string)
    ensures IsInside(path, dir)
    ensures path[|dir| + 1..] == DumpFileName
  {
    dir + "/" + DumpFileName
  }

  /**
   * The file served for download of a backup with this name: the very path
   * the archiver was given when that backup was taken.
   */
  function DownloadPath(name: string): (path: string)
    ensures path == ArchivePath(BackupDir(name))
  {
    BackupRoot + name + ArchiveSuffix
  }

  /** The file name offered to the browser: the served path without the backup root. */
  function AttachmentFileName(name: string): (file: string)
    ensures DownloadPath(name) == BackupRoot + file
  {
    name + ArchiveSuffix
  }

  /** The Content-Disposition header value for a download. */
  function ContentDisposition(name: string): (header: string)
    ensures HasPrefix(header, AttachmentPrefix)
    ensures header[|AttachmentPrefix|..] == AttachmentFileName(name)
  {
    AttachmentPrefix + AttachmentFileName(name)
  }

  /** The host flag of the certificate-authenticated dump. */
  function HostFlag(cfg: DbConfig): string
  {
    HostFlagPrefix + cfg.server + ":" + cfg.port
  }

  /** Arguments of the plaintext (local, insecure) dump. */
  const InsecureArgs: seq<string> := ["dump", "trasadb", InsecureFlag]

  /** Arguments of the certificate-authenticated dump against an explicit host. */
  function SecureArgs(cfg: DbConfig): seq<string>
  {
    ["dump", "trasadb", CertsFlag, HostFlag(cfg)]
  }

  /**
   * The arguments `cockroach` is started with: always a dump of `trasadb`;
   * insecure exactly when SSL is off; certificates and host exactly when on.
   */
  function DumpArgs(cfg: DbConfig): (args: seq<string>)
    ensures |args| >= 3 && args[..2] == ["dump", "trasadb"]
    ensures InsecureFlag in args <==> !cfg.sslEnabled
    ensures CertsFlag in args <==> cfg.sslEnabled
    ensures !cfg.sslEnabled ==> args == ["dump", "trasadb", InsecureFlag]
    ensures cfg.sslEnabled ==> |args| == 4 && args[3] == HostFlagPrefix + cfg.server + ":" + cfg.port
  {
    if cfg.sslEnabled then
      assert HostFlag(cfg)[2] == 'h' && InsecureFlag[2] == 'i' && CertsFlag[2] == 'c';
      SecureArgs(cfg)
    else
      InsecureArgs
  }

  /** The dump process for a working directory under a configuration. */
  function DumpCommand(dir: string, cfg: DbConfig): Command
  {
    Command(CockroachBinary, DumpArgs(cfg), dir)
  }

  /** A timestamp and the name built from it determine each other. */
  lemma StampRoundTrip(stamp: string, name: string)
    ensures StampOf(BackupName(stamp)) == Some(stamp)
    ensures StampOf(name).Some? ==> BackupName(StampOf(name).value) == name
  {
  }

  /** Two names with the same served artifact are the same name. */
  lemma DownloadPathInjective(a: string, b: string)
    requires DownloadPath(a) == DownloadPath(b)
    ensures a == b
  {
  }

  /**
   * Distinct backup names never give equal path strings for the working
   * directory, the dump file or the artifact, nor equal attachment headers.
   * (These are facts about strings; `ArtifactBesideDir` says when a path
   * string denotes the directory entry it reads as.)
   */
  lemma DistinctNamesDistinctPaths(a: string, b: string)
    requires a != b
    ensures BackupDir(a) != BackupDir(b)
    ensures DumpFile(BackupDir(a)) != DumpFile(BackupDir(b))
    ensures DownloadPath(a) != DownloadPath(b)
    ensures ContentDisposition(a) != ContentDisposition(b)
  {
    if DownloadPath(a) == DownloadPath(b) {
      DownloadPathInjective(a, b);
    }
    var da, db := BackupDir(a), BackupDir(b);
    assert DumpFile(da)[..|da|] == da;
    assert DumpFile(db)[..|db|] == db;
    assert |DumpFile(da)| == |da| + 1 + |DumpFileName|;
  }

  /**
   * For a name that is one path component, the working directory and the
   * artifact are two different entries directly in the backup root, and the
   * dump file is an entry directly in the working directory: the artifact
   * lies beside the directory it packs, not inside it.
   */
  lemma ArtifactBesideDir(name: string)
    requires PlainName(name)
    ensures DirectChild(BackupDir(name), BackupRoot)
    ensures DirectChild(ArchivePath(BackupDir(name)), BackupRoot)
    ensures BackupDir(name) != ArchivePath(BackupDir(name))
    ensures DirectChild(DumpFile(BackupDir(name)), BackupDir(name) + "/")
    ensures !IsInside(ArchivePath(BackupDir(name)), BackupDir(name))
  {
    var dir := BackupDir(name);
    var zip := ArchivePath(dir);
    assert dir[|BackupRoot|..] == name;
    assert zip[|BackupRoot|..] == name + ArchiveSuffix;
    assert '/' !in ArchiveSuffix;
    assert DumpFile(dir)[|dir + "/"|..] == DumpFileName;
    assert zip[|dir|] == '.';
    assert (dir + "/")[|dir|] == '/';
  }

}
