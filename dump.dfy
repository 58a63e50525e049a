/**
 * The dump executor: create the working directory, choose the `cockroach`
 * command line, open the output file, start the process and wait for it.
 * Every external call is an oracle result; the method returns the error it
 * reports and the calls it issued.
 */
module Dump {
  import opened Wrappers
  import opened BackupModel
  import opened Naming

  /**
   * Index of the first failing step of a chain of early-return calls, or
   * the length of the chain when no step fails.
   */
  function FailIndex<E>(steps: seq<Outcome<E>>): (k: nat)
    ensures k <= |steps|
    ensures forall j :: 0 <= j < k ==> steps[j].Pass?
    ensures k < |steps| ==> steps[k].Fail?
  {
    if steps == [] then 0
    else if steps[0].Fail? then 0
    else 1 + FailIndex(steps[1..])
  }

  /** The contract of `FailIndex` determines it: the index it describes is unique. */
  lemma FailIndexIs<E>(steps: seq<Outcome<E>>, k: nat)
    requires k <= |steps|
    requires forall j :: 0 <= j < k ==> steps[j].Pass?
    requires k < |steps| ==> steps[k].Fail?
    ensures FailIndex(steps) == k
  {
  }

  /** What the chain reports: the first step's failure, unchanged, or success. */
  function FirstError<E>(steps: seq<Outcome<E>>): (r: Outcome<E>)
    ensures r.Pass? <==> forall j :: 0 <= j < |steps| ==> steps[j].Pass?
    ensures r.Fail? ==> FailIndex(steps) < |steps| && r == steps[FailIndex(steps)]
  {
    var k := FailIndex(steps);
    if k < |steps| then steps[k] else Pass
  }

  /**
   * How many calls of the chain are issued: every call up to and including
   * the first failing one, and no call after it.
   */
  function Issued<E>(steps: seq<Outcome<E>>): (n: nat)
    ensures n <= |steps|
    ensures forall j :: 0 <= j < n - 1 ==> steps[j].Pass?
    ensures n < |steps| ==> 0 < n && steps[n - 1].Fail?
    ensures FirstError(steps).Pass? <==> n == |steps| && (n == 0 || steps[n - 1].Pass?)
  {
    var k := FailIndex(steps);
    if k < |steps| then k + 1 else |steps|
  }

  /** The results the operating system gives the dump executor's calls. */
  datatype DumpOracle = DumpOracle(
    mkdirAll: Outcome<string>,
    create: Outcome<string>,
    stdoutPipe: Outcome<string>,
    start: Outcome<string>,
    wait: Outcome<string>)

  /** The fallible steps of a dump, in the order they are attempted. */
  function DumpSteps(o: DumpOracle): seq<Outcome<string>>
  {
    [o.mkdirAll, o.create, o.stdoutPipe, o.start, o.wait]
  }

  /** The calls of a dump that runs to the end, one per step of `DumpSteps`. */
  function DumpCalls(dir: string, cfg: DbConfig): (calls: seq<Effect>)
    ensures |calls| == 5
  {
    [MkdirAll(dir), CreateFile(DumpFile(dir)), StdoutPipe, StartProcess(DumpCommand(dir, cfg)), WaitProcess]
  }

  /** A dump issues only its own kinds of call, whichever step it stops at. */
  lemma DumpCallsKinds(dir: string, cfg: DbConfig, n: nat)
    requires n <= 5
    ensures forall e | e in DumpCalls(dir, cfg)[..n] ::
      !e.GetOrg? && !e.LoadLocation? && !e.ArchiveFiles? && !e.StoreBackupMeta? && !e.GetBackupMetas?
  {
  }

  /**
   * Runs a dump into `dir`. Reports the first failing step's error, issues
   * the calls of `DumpCalls` up to that step, and starts the process only
   * once the directory, the output file and the pipe all exist.
   */
  method BackupCRDB(dir: string, cfg: DbConfig, o: DumpOracle) returns (err: Outcome<string>, calls: seq<Effect>)
    ensures err == FirstError(DumpSteps(o))
    ensures calls == DumpCalls(dir, cfg)[..Issued(DumpSteps(o))]
    ensures StartsDump(calls) <==> o.mkdirAll.Pass? && o.create.Pass? && o.stdoutPipe.Pass?
    ensures forall e | e in calls && e.StartProcess? ::
      e.cmd.program == CockroachBinary && e.cmd.args == DumpArgs(cfg) && e.cmd.dir == dir
    ensures err.Pass? ==> calls == DumpCalls(dir, cfg)
  {
    ghost var steps := DumpSteps(o);
    ghost var full := DumpCalls(dir, cfg);
    calls := [MkdirAll(dir)];
    if o.mkdirAll.Fail? {
      FailIndexIs(steps, 0);
      return o.mkdirAll, calls;
    }
    var cmd := Command(CockroachBinary, InsecureArgs, "");
    if cfg.sslEnabled {
      cmd := Command(CockroachBinary, SecureArgs(cfg), "");
    }
    cmd := cmd.(dir := dir);
    calls := calls + [CreateFile(DumpFile(dir))];
    if o.create.Fail? {
      FailIndexIs(steps, 1);
      return o.create, calls;
    }
    calls := calls + [StdoutPipe];
    if o.stdoutPipe.Fail? {
      FailIndexIs(steps, 2);
      return o.stdoutPipe, calls;
    }
    calls := calls + [StartProcess(cmd)];
    assert calls[3] == StartProcess(cmd);
    if o.start.Fail? {
      FailIndexIs(steps, 3);
      return o.start, calls;
    }
    calls := calls + [WaitProcess];
    err := o.wait;
    FailIndexIs(steps, if o.wait.Fail? then 4 else 5);
  }
}
