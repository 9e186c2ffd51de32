/**
 * The deployment workflow over the working directory: compute the hosts of
 * `hosts.txt` not yet in `deployed_hosts.txt`, overwrite `target_hosts.txt`
 * with them, take a batch, open a batch remote-response session for it, run
 * the deployment script against the session, and append every batch host to
 * `deployed_hosts.txt`.
 *
 * The working directory is a map from file name to the CSV records of the
 * file; a name that is not a key is a missing file. The two remote calls are
 * recorded, with their fixed arguments, in a log of issued calls; whether the
 * vendor SDK raises is a parameter, and so is the batch id that the session
 * response parser yields.
 */
module Deployment {
  import opened Wrappers
  import opened HostFiles
  import opened BatchSelector

  const HostsPath := "hosts.txt"
  const DeployedPath := "deployed_hosts.txt"
  const TargetPath := "target_hosts.txt"

  /** The batch size the script's entry point passes to `deploy`. */
  const DefaultBatchSize := 1000

  // The fixed arguments of the two remote calls.
  const InitTimeout := 45
  const InitTimeoutDuration := "30s"
  const RunBaseCommand := "runscript"
  const RunCommandString := "runscript -CloudFile='Deploy Binalzye'  -CommandLine=''"
  const RunTimeout := 45
  const RunTimeoutDuration := "60s"

  /** File name to the records of that file. */
  type FileSystem = map<string, seq<Row>>

  /** What aborts a run: a file `read_file` cannot open, or an exception from the vendor SDK. */
  datatype Error = FileNotFound(path: string) | RemoteError

  /** A call issued to the vendor's remote-response API, with its arguments. */
  datatype RemoteCall =
    | InitSessions(hostIds: seq<HostId>, timeout: nat, timeoutDuration: string)
    | RunScript(baseCommand: string, batchId: Option<string>, commandString: string,
                optionalHosts: seq<HostId>, timeout: nat, timeoutDuration: string)

  /** Whether the vendor SDK returns from both calls or raises in one of them. */
  datatype SdkBehaviour = CallsReturn | InitRaises | RunRaises

  /** How a run of `deploy` ends: normally, or with an exception. */
  datatype Outcome = Completed | Aborted(error: Error)

  /** The effect of one run: the files afterwards, the remote calls issued, and how it ended. */
  datatype Run = Run(files: FileSystem, calls: seq<RemoteCall>, outcome: Outcome)

  /** `read_file(path)`: the hosts of the file, or the error for a missing file. */
  function ReadHosts(fs: FileSystem, path: string): Result<seq<HostId>, Error>
  {
    if path in fs then Success(FirstFields(fs[path])) else Failure(FileNotFound(path))
  }

  /** The list `create_undeployed_hosts_list` returns for the files `fs`. */
  function Undeployed(fs: FileSystem): Result<seq<HostId>, Error>
  {
    match ReadHosts(fs, HostsPath)
    case Failure(e) => Failure(e)
    case Success(allHosts) =>
      match ReadHosts(fs, DeployedPath)
      case Failure(e) => Failure(e)
      case Success(deployed) => Success(Pending(allHosts, SetOf(deployed)))
  }

  /** The records of the deployed-hosts ledger; appending to a missing file starts from none. */
  function Ledger(fs: FileSystem): seq<Row>
  {
    if DeployedPath in fs then fs[DeployedPath] else []
  }

  /** The session-opening call for a batch. */
  function InitCall(targets: seq<HostId>): RemoteCall
  {
    InitSessions(targets, InitTimeout, InitTimeoutDuration)
  }

  /** The script-running call for a batch, against whatever batch id was parsed. */
  function RunCall(targets: seq<HostId>, batchId: Option<string>): RemoteCall
  {
    RunScript(RunBaseCommand, batchId, RunCommandString, targets, RunTimeout, RunTimeoutDuration)
  }

  /** The effect of `deploy(batchSize)` on the files `fs`. */
  function DeployRun(fs: FileSystem, batchSize: int, batchId: Option<string>, sdk: SdkBehaviour): Run
  {
    match Undeployed(fs)
    case Failure(e) => Run(fs, [], Aborted(e))
    case Success(pending) =>
      var targets := Take(pending, batchSize);
      var written := fs[TargetPath := LinesOf(pending)];
      if sdk == InitRaises then
        Run(written, [InitCall(targets)], Aborted(RemoteError))
      else if sdk == RunRaises then
        Run(written, [InitCall(targets), RunCall(targets, batchId)], Aborted(RemoteError))
      else
        Run(written[DeployedPath := Ledger(fs) + LinesOf(targets)],
            [InitCall(targets), RunCall(targets, batchId)], Completed)
  }

  /** The working directory of the script and the calls it has issued to the remote API. */
  class Workspace {
    var files: FileSystem
    var remoteLog: seq<RemoteCall>

    constructor (initialFiles: FileSystem)
      ensures files == initialFiles && remoteLog == []
    {
      files := initialFiles;
      remoteLog := [];
    }

    /** `read_file`: the first field of every non-empty record of the file, in order. */
    method ReadFile(path: string) returns (r: Result<seq<HostId>, Error>)
      ensures path !in files ==> r == Failure(FileNotFound(path))
      ensures path in files ==> r == Success(FirstFields(files[path]))
    {
      if path !in files {
        return Failure(FileNotFound(path));
      }
      var rows := files[path];
      var hosts := [];
      var i := 0;
      while i < |rows|
        invariant 0 <= i <= |rows|
        invariant hosts == FirstFields(rows[..i])
      {
        FirstFieldsAppend(rows[..i], [rows[i]]);
        assert rows[..i + 1] == rows[..i] + [rows[i]];
        if rows[i] != [] {
          hosts := hosts + [rows[i][0]];
        }
        i := i + 1;
      }
      assert rows[..i] == rows;
      return Success(hosts);
    }

    /** `append_to_deployed_hosts`: one more line at the end of the ledger, which is created if missing. */
    method AppendToDeployedHosts(host: HostId)
      modifies this`files
      ensures files == old(files)[DeployedPath := Ledger(old(files)) + [LineRow(host)]]
    {
      files := files[DeployedPath := Ledger(files) + [LineRow(host)]];
    }

    /**
     * `create_undeployed_hosts_list`: the hosts not yet deployed, written line
     * by line over `target_hosts.txt`. A missing input file aborts before
     * anything is written.
     */
    method CreateUndeployedHostsList() returns (r: Result<seq<HostId>, Error>)
      modifies this`files
      ensures r == Undeployed(old(files))
      ensures files == if r.Success? then old(files)[TargetPath := LinesOf(r.value)] else old(files)
    {
      var allHosts := ReadFile(HostsPath);
      if allHosts.Failure? {
        return Failure(allHosts.error);
      }
      var deployedHosts := ReadFile(DeployedPath);
      if deployedHosts.Failure? {
        return Failure(deployedHosts.error);
      }
      var deployedSet := SetOf(deployedHosts.value);
      var targetHosts := Pending(allHosts.value, deployedSet);
      files := files[TargetPath := []];
      assert LinesOf(targetHosts[..0]) == [];
      var i := 0;
      while i < |targetHosts|
        invariant 0 <= i <= |targetHosts|
        invariant files == old(files)[TargetPath := LinesOf(targetHosts[..i])]
      {
        assert targetHosts[..i + 1] == targetHosts[..i] + [targetHosts[i]];
        LinesOfAppend(targetHosts[..i], [targetHosts[i]]);
        assert LinesOf([targetHosts[i]]) == [LineRow(targetHosts[i])];
        files := files[TargetPath := files[TargetPath] + [LineRow(targetHosts[i])]];
        i := i + 1;
      }
      assert targetHosts[..i] == targetHosts;
      return Success(targetHosts);
    }

    /**
     * `deploy(batchSize)`. `parsedBatchId` stands for what `parse_session_id`
     * makes of the session response; the script runs against it even when it
     * is `None`, and every batch host is recorded once both calls return.
     */
    method Deploy(batchSize: int, parsedBatchId: Option<string>, sdk: SdkBehaviour) returns (outcome: Outcome)
      modifies this
      ensures files == DeployRun(old(files), batchSize, parsedBatchId, sdk).files
      ensures remoteLog == old(remoteLog) + DeployRun(old(files), batchSize, parsedBatchId, sdk).calls
      ensures outcome == DeployRun(old(files), batchSize, parsedBatchId, sdk).outcome
    {
      var undeployedHosts := CreateUndeployedHostsList();
      if undeployedHosts.Failure? {
        return Aborted(undeployedHosts.error);
      }
      var targetHosts := Take(undeployedHosts.value, batchSize);
      remoteLog := remoteLog + [InitCall(targetHosts)];
      if sdk == InitRaises {
        return Aborted(RemoteError);
      }
      var batchId := parsedBatchId;
      remoteLog := remoteLog + [RunCall(targetHosts, batchId)];
      if sdk == RunRaises {
        return Aborted(RemoteError);
      }
      ghost var dispatched := files;
      ghost var log := remoteLog;
      assert Ledger(dispatched) + LinesOf(targetHosts[..0]) == Ledger(dispatched);
      assert files == dispatched[DeployedPath := Ledger(dispatched)];
      var i := 0;
      while i < |targetHosts|
        invariant 0 <= i <= |targetHosts|
        invariant files == dispatched[DeployedPath := Ledger(dispatched) + LinesOf(targetHosts[..i])]
        invariant remoteLog == log
      {
        assert targetHosts[..i + 1] == targetHosts[..i] + [targetHosts[i]];
        LinesOfAppend(targetHosts[..i], [targetHosts[i]]);
        assert LinesOf([targetHosts[i]]) == [LineRow(targetHosts[i])];
        ghost var recorded := Ledger(dispatched) + LinesOf(targetHosts[..i]);
        assert Ledger(files) == recorded;
        AppendToDeployedHosts(targetHosts[i]);
        assert recorded + [LineRow(targetHosts[i])] == Ledger(dispatched) + LinesOf(targetHosts[..i + 1]);
        i := i + 1;
      }
      assert targetHosts[..i] == targetHosts;
      return Completed;
    }
  }

  /**
   * The pending list exists exactly when both input files do, and it holds
   * exactly the listed hosts that are not in the ledger.
   */
  lemma UndeployedMembers(fs: FileSystem, h: HostId)
    ensures Undeployed(fs).Success? <==> HostsPath in fs && DeployedPath in fs
    ensures Undeployed(fs).Success? ==>
              (h in Undeployed(fs).value <==>
                 h in FirstFields(fs[HostsPath]) && h !in FirstFields(fs[DeployedPath]))
  {
    if HostsPath in fs && DeployedPath in fs {
      PendingMembership(FirstFields(fs[HostsPath]), SetOf(FirstFields(fs[DeployedPath])), h);
    }
  }

  /**
   * A run that gets past the reads overwrites `target_hosts.txt` with the whole
   * pending list, opens the session for the batch only, and leaves
   * `hosts.txt` as it was.
   */
  lemma TargetFileHoldsFullPendingList(fs: FileSystem, batchSize: int, batchId: Option<string>, sdk: SdkBehaviour)
    requires Undeployed(fs).Success?
    ensures DeployRun(fs, batchSize, batchId, sdk).files[TargetPath] == LinesOf(Undeployed(fs).value)
    ensures DeployRun(fs, batchSize, batchId, sdk).calls[0] == InitCall(Take(Undeployed(fs).value, batchSize))
    ensures DeployRun(fs, batchSize, batchId, sdk).files[HostsPath] == fs[HostsPath]
  {
  }

  /** Whatever happens, no file other than the target file and the ledger changes, and the ledger only grows. */
  lemma LedgerAppendOnly(fs: FileSystem, batchSize: int, batchId: Option<string>, sdk: SdkBehaviour, path: string)
    requires path != TargetPath && path != DeployedPath
    ensures path in DeployRun(fs, batchSize, batchId, sdk).files <==> path in fs
    ensures path in fs ==> DeployRun(fs, batchSize, batchId, sdk).files[path] == fs[path]
    ensures DeployedPath in fs ==>
              DeployedPath in DeployRun(fs, batchSize, batchId, sdk).files &&
              fs[DeployedPath] <= DeployRun(fs, batchSize, batchId, sdk).files[DeployedPath]
  {
  }

  /**
   * When both remote calls return, the ledger is the old ledger followed by
   * one line per batch host, in batch order; read back, it lists the old
   * deployed hosts followed by the batch hosts (an empty id leaves a blank line).
   */
  lemma LedgerRecordsBatch(fs: FileSystem, batchSize: int, batchId: Option<string>)
    requires Undeployed(fs).Success?
    ensures var batch := Take(Undeployed(fs).value, batchSize);
            var after := DeployRun(fs, batchSize, batchId, CallsReturn).files;
            && DeployedPath in after
            && after[DeployedPath] == fs[DeployedPath] + LinesOf(batch)
            && ReadHosts(after, DeployedPath) == Success(FirstFields(fs[DeployedPath]) + NonEmptyIds(batch))
  {
    var batch := Take(Undeployed(fs).value, batchSize);
    FirstFieldsAppend(fs[DeployedPath], LinesOf(batch));
    ReadBackLines(batch);
  }

  /**
   * An exception from either remote call aborts the run after the target
   * file was written and before any host is recorded.
   */
  lemma SdkFailureRecordsNothing(fs: FileSystem, batchSize: int, batchId: Option<string>, sdk: SdkBehaviour)
    requires Undeployed(fs).Success? && sdk != CallsReturn
    ensures DeployedPath in DeployRun(fs, batchSize, batchId, sdk).files
    ensures DeployRun(fs, batchSize, batchId, sdk).files[DeployedPath] == fs[DeployedPath]
    ensures DeployRun(fs, batchSize, batchId, sdk).files[TargetPath] == LinesOf(Undeployed(fs).value)
    ensures DeployRun(fs, batchSize, batchId, sdk).outcome == Aborted(RemoteError)
  {
  }

  /** What is recorded does not depend on the batch id the parser produced, `None` included. */
  lemma RecordingIgnoresBatchId(fs: FileSystem, batchSize: int, id1: Option<string>, id2: Option<string>, sdk: SdkBehaviour)
    ensures DeployRun(fs, batchSize, id1, sdk).files == DeployRun(fs, batchSize, id2, sdk).files
    ensures DeployRun(fs, batchSize, id1, sdk).outcome == DeployRun(fs, batchSize, id2, sdk).outcome
  {
  }

  /** With nothing pending the ledger is unchanged, though the (empty) session calls are still issued. */
  lemma NothingPendingLeavesLedger(fs: FileSystem, batchSize: int, batchId: Option<string>, sdk: SdkBehaviour)
    requires Undeployed(fs) == Success([])
    ensures DeployRun(fs, batchSize, batchId, sdk).files[DeployedPath] == fs[DeployedPath]
    ensures DeployRun(fs, batchSize, batchId, sdk).calls[0] == InitCall([])
  {
    assert LinesOf([]) == [];
  }

  /** `target_hosts.txt` is not an input: running the selection again gives the same list and file. */
  lemma SelectionIdempotent(fs: FileSystem, written: seq<Row>)
    ensures Undeployed(fs[TargetPath := written]) == Undeployed(fs)
  {
  }

  /** The set of ids read from a ledger after appending lines for `hosts`. */
  lemma LedgerSetAfterAppend(ledger: seq<Row>, hosts: seq<HostId>)
    ensures SetOf(FirstFields(ledger + LinesOf(hosts))) == SetOf(FirstFields(ledger)) + SetOf(NonEmptyIds(hosts))
  {
    FirstFieldsAppend(ledger, LinesOf(hosts));
    ReadBackLines(hosts);
  }

  /**
   * After a completed run, the next run's pending list is this run's pending
   * list without the (non-empty) ids of this run's batch.
   */
  lemma NextRunPending(fs: FileSystem, batchSize: int, batchId: Option<string>)
    requires Undeployed(fs).Success?
    ensures var pending := Undeployed(fs).value;
            Undeployed(DeployRun(fs, batchSize, batchId, CallsReturn).files)
              == Success(Pending(pending, SetOf(NonEmptyIds(Take(pending, batchSize)))))
  {
    var pending := Undeployed(fs).value;
    var batch := Take(pending, batchSize);
    var after := DeployRun(fs, batchSize, batchId, CallsReturn).files;
    LedgerSetAfterAppend(fs[DeployedPath], batch);
    assert after[HostsPath] == fs[HostsPath];
    assert after[DeployedPath] == fs[DeployedPath] + LinesOf(batch);
    PendingNested(FirstFields(fs[HostsPath]), SetOf(FirstFields(fs[DeployedPath])), SetOf(NonEmptyIds(batch)));
  }

  /** A completed run with no empty id pending shortens the next run's pending list by at least the batch. */
  lemma RunsMakeProgress(fs: FileSystem, batchSize: int, batchId: Option<string>)
    requires Undeployed(fs).Success? && "" !in Undeployed(fs).value
    ensures Undeployed(DeployRun(fs, batchSize, batchId, CallsReturn).files).Success?
    ensures |Undeployed(DeployRun(fs, batchSize, batchId, CallsReturn).files).value|
              <= |Undeployed(fs).value| - |Take(Undeployed(fs).value, batchSize)|
  {
    var pending := Undeployed(fs).value;
    var batch := Take(pending, batchSize);
    NextRunPending(fs, batchSize, batchId);
    ReadBackLines(batch);
    assert batch == pending[..|batch|];
    PendingShrinks(pending, |batch|);
  }

  /**
   * An empty host id (a record such as `,x` in `hosts.txt`) is written to the
   * ledger as a blank line, which reading skips: it stays pending after every run.
   */
  lemma EmptyIdStaysPending(fs: FileSystem, batchSize: int, batchId: Option<string>)
    requires Undeployed(fs).Success? && "" in Undeployed(fs).value
    ensures Undeployed(DeployRun(fs, batchSize, batchId, CallsReturn).files).Success?
    ensures "" in Undeployed(DeployRun(fs, batchSize, batchId, CallsReturn).files).value
  {
    var pending := Undeployed(fs).value;
    var batch := Take(pending, batchSize);
    NextRunPending(fs, batchSize, batchId);
    NonEmptyIdsExcludesEmpty(batch);
    PendingMembership(pending, SetOf(NonEmptyIds(batch)), "");
  }

  /** The example files of the scenario below. */
  function ScenarioFiles(): FileSystem
  {
    map[HostsPath := [["h1"], ["h2"], ["h3"], ["h4"]], DeployedPath := [["h1"]]]
  }

  /** The scenario's pending list: every listed host but the deployed `h1`, in order. */
  lemma ScenarioPending()
    ensures Undeployed(ScenarioFiles()) == Success(["h2", "h3", "h4"])
  {
    var rows: seq<Row> := [["h1"], ["h2"], ["h3"], ["h4"]];
    assert FirstFields(rows) == ["h1", "h2", "h3", "h4"] by {
      assert rows[1..] == [["h2"], ["h3"], ["h4"]];
      assert rows[1..][1..] == [["h3"], ["h4"]];
      assert rows[1..][1..][1..] == [["h4"]];
    }
    assert FirstFields([["h1"]]) == ["h1"];
    assert SetOf(["h1"]) == {"h1"};
    var all: seq<HostId> := ["h1", "h2", "h3", "h4"];
    assert Pending(all, {"h1"}) == ["h2", "h3", "h4"] by {
      assert all[1..] == ["h2", "h3", "h4"];
      assert all[1..][1..] == ["h3", "h4"];
      assert all[1..][1..][1..] == ["h4"];
    }
  }

  /**
   * Four listed hosts, the first already deployed, batch size two: the target
   * file lists the other three, and the ledger gains the next two.
   */
  lemma EndToEndScenario(batchId: Option<string>)
    ensures var run := DeployRun(ScenarioFiles(), 2, batchId, CallsReturn);
            && run.files[TargetPath] == [["h2"], ["h3"], ["h4"]]
            && run.files[DeployedPath] == [["h1"], ["h2"], ["h3"]]
            && run.calls[0] == InitCall(["h2", "h3"])
            && run.outcome == Completed
  {
    ScenarioPending();
    var pending: seq<HostId> := ["h2", "h3", "h4"];
    assert Take(pending, 2) == ["h2", "h3"];
    assert LinesOf(pending) == [["h2"], ["h3"], ["h4"]];
    assert LinesOf(["h2", "h3"]) == [["h2"], ["h3"]];
  }
}
