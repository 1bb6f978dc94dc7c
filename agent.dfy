/**
 * The agent (`RemoteCmd.Client/Program.cs`): the decisions its polling loop
 * makes, lifted out of the HTTP and file-system calls.  Each I/O call is
 * represented by its outcome (completed, or threw with a message), supplied
 * as a parameter; what is modelled is which calls the agent then makes and
 * in which order, the retry delay it keeps between cycles, and the strings it
 * builds.
 */
module Agent {
  import opened Common
  import opened Text

  const DefaultPort: string := "7890"
  const MaxRetryDelay: int := 30
  /** Pause after a successful cycle, in milliseconds. */
  const IdlePauseMs: int := 800
  const KilledOutput: string := "[KILLED] Command exceeded 60s timeout"
  const StderrHeader: string := "\n[STDERR]\n"

  // ---- the server address ----

  /** An argument that starts with "http" is a URL and loses its trailing
      slashes; anything else is a host name on port 7890. */
  function BaseUrl(serverArg: string): (url: string)
    ensures "http" <= serverArg ==>
              "http" <= url && url <= serverArg && url[|url| - 1] != '/'
              && forall i :: |url| <= i < |serverArg| ==> serverArg[i] == '/'
    ensures !("http" <= serverArg) ==> url == "http://" + serverArg + ":" + DefaultPort
  {
    if "http" <= serverArg then
      var url := TrimEnd(serverArg, c => c == '/');
      assert serverArg[3] == 'p';
      assert |url| >= 4 && url[..4] == serverArg[..4];
      url
    else "http://" + serverArg + ":" + DefaultPort
  }

  // ---- the retry delay ----

  datatype Cycle = Succeeded | Failed

  /** `retryDelay` after one cycle: back to 1 on success, doubled up to 30 on failure. */
  function NextRetryDelay(retryDelay: int, cycle: Cycle): (d: int)
    ensures cycle.Succeeded? ==> d == 1
    ensures cycle.Failed? ==> d <= MaxRetryDelay && d <= 2 * retryDelay && (d == 2 * retryDelay || d == MaxRetryDelay)
    ensures cycle.Failed? && 1 <= retryDelay ==> retryDelay < d || d == MaxRetryDelay
  {
    match cycle
    case Succeeded => 1
    case Failed => if retryDelay * 2 < MaxRetryDelay then retryDelay * 2 else MaxRetryDelay
  }

  /** `retryDelay` after the given cycles, starting from 1. */
  function RetryDelayAfter(cycles: seq<Cycle>): (d: int)
    ensures 1 <= d <= MaxRetryDelay
  {
    if cycles == [] then 1 else NextRetryDelay(RetryDelayAfter(cycles[..|cycles| - 1]), cycles[|cycles| - 1])
  }

  /** The pause, in milliseconds, that ends a cycle: 800 after success, the
      current retry delay in seconds after failure. */
  function PauseMs(retryDelay: int, cycle: Cycle): (ms: int)
    ensures cycle.Succeeded? ==> ms == IdlePauseMs
    ensures cycle.Failed? ==> ms / 1000 == retryDelay && ms % 1000 == 0
    ensures 1 <= retryDelay <= MaxRetryDelay ==> ms == IdlePauseMs || 1000 <= ms <= 1000 * MaxRetryDelay
  {
    match cycle
    case Succeeded => IdlePauseMs
    case Failed => retryDelay * 1000
  }

  /** The pauses the loop takes over the given cycles: each is the pause for
      that cycle's outcome at the delay the cycles before it left. */
  function PausesAfter(cycles: seq<Cycle>): (pauses: seq<int>)
    ensures |pauses| == |cycles|
    ensures forall i {:trigger pauses[i]} :: 0 <= i < |cycles| ==> pauses[i] == PauseMs(RetryDelayAfter(cycles[..i]), cycles[i])
  {
    if cycles == [] then []
    else
      var before := cycles[..|cycles| - 1];
      assert forall i :: 0 <= i < |before| ==> before[..i] == cycles[..i] && before[i] == cycles[i];
      PausesAfter(before) + [PauseMs(RetryDelayAfter(before), cycles[|cycles| - 1])]
  }

  /** The main loop's `retryDelay` bookkeeping over a run of cycles whose
      outcomes are given: the pauses it takes and the delay it ends with. */
  method RunCycles(cycles: seq<Cycle>) returns (retryDelay: int, pauses: seq<int>)
    ensures retryDelay == RetryDelayAfter(cycles) && 1 <= retryDelay <= MaxRetryDelay
    ensures pauses == PausesAfter(cycles)
    ensures forall i :: 0 <= i < |pauses| ==> pauses[i] == IdlePauseMs || 1000 <= pauses[i] <= 1000 * MaxRetryDelay
  {
    retryDelay := 1;
    pauses := [];
    var i := 0;
    while i < |cycles|
      invariant 0 <= i <= |cycles|
      invariant retryDelay == RetryDelayAfter(cycles[..i])
      invariant pauses == PausesAfter(cycles[..i])
      invariant forall j :: 0 <= j < |pauses| ==> pauses[j] == IdlePauseMs || 1000 <= pauses[j] <= 1000 * MaxRetryDelay
    {
      assert cycles[..i + 1][..i] == cycles[..i];
      match cycles[i] {
        case Succeeded =>
          pauses := pauses + [IdlePauseMs];
          retryDelay := 1;
        case Failed =>
          pauses := pauses + [retryDelay * 1000];
          retryDelay := if retryDelay * 2 < MaxRetryDelay then retryDelay * 2 else MaxRetryDelay;
      }
      i := i + 1;
    }
    assert cycles[..i] == cycles;
  }

  function Power2(k: nat): nat {
    if k == 0 then 1 else 2 * Power2(k - 1)
  }

  function Failures(k: nat): (s: seq<Cycle>)
    ensures |s| == k && forall i :: 0 <= i < k ==> s[i] == Failed
  {
    seq(k, _ => Failed)
  }

  /** After a start or a success, k failures in a row leave the delay at
      min(2^k, 30): 1, 2, 4, 8, 16, 30, 30, ... */
  lemma {:induction false} RetryDelayAfterFailures(history: seq<Cycle>, k: nat)
    requires history == [] || history[|history| - 1] == Succeeded
    ensures RetryDelayAfter(history + Failures(k)) == if Power2(k) < MaxRetryDelay then Power2(k) else MaxRetryDelay
  {
    if k == 0 {
      assert history + Failures(0) == history;
    } else {
      var run := history + Failures(k);
      assert run[..|run| - 1] == history + Failures(k - 1);
      RetryDelayAfterFailures(history, k - 1);
    }
  }

  /** One success resets the delay whatever came before. */
  lemma SuccessResets(history: seq<Cycle>)
    ensures RetryDelayAfter(history + [Succeeded]) == 1
  {
    assert (history + [Succeeded])[..|history|] == history;
  }

  // ---- file-poll dispatch ----

  /** What the file-poll answer tells the agent to do; at most one branch. */
  datatype FileAction = ReceiveUpload(path: string) | SendDownload(path: string) | NoAction

  function Dispatch(answer: Option<FilePollReport>): (a: FileAction)
    ensures a.ReceiveUpload? <==> answer.Some? && answer.value.action == Some("upload") && answer.value.path.Some?
    ensures a.SendDownload? <==> answer.Some? && answer.value.action == Some("download") && answer.value.path.Some?
    ensures !a.NoAction? ==> Some(a.path) == answer.value.path
  {
    if answer.Some? && answer.value.action == Some("upload") && answer.value.path.Some? then
      ReceiveUpload(answer.value.path.value)
    else if answer.Some? && answer.value.action == Some("download") && answer.value.path.Some? then
      SendDownload(answer.value.path.value)
    else
      NoAction
  }

  // ---- the two transfer branches ----

  /** How one I/O call ended. */
  datatype Attempt = Completed | Threw(message: string)

  /** The relay calls a transfer branch makes. */
  datatype Call =
    | FetchFileData                                   // GET  /api/file-data
    | AcknowledgeUpload                               // POST /api/file-done
    | ReportDownload(error: Option<string>, data: Option<seq<byte>>)   // POST /api/file-upload

  /** The calls a branch attempted, and the exception, if any, that escaped it
      into the loop's retry handler. */
  datatype BranchRun = BranchRun(calls: seq<Call>, escaped: Option<string>)

  function EscapedFrom(a: Attempt): Option<string> {
    match a
    case Completed => None
    case Threw(m) => Some(m)
  }

  /** The upload branch: fetch the bytes, write the file, acknowledge; any
      exception before the acknowledgement completes is caught and the upload
      acknowledged again from the handler. */
  function ReceiveUploadBranch(fetch: Attempt, write: Attempt, acknowledge: Attempt, retryAcknowledge: Attempt)
    : (run: BranchRun)
    ensures |run.calls| >= 2 && run.calls[..2] == [FetchFileData, AcknowledgeUpload]
    ensures |run.calls| == if fetch.Completed? && write.Completed? && acknowledge.Threw? then 3 else 2
    ensures run.escaped.None? <==>
              (fetch.Completed? && write.Completed? && acknowledge.Completed?) || retryAcknowledge.Completed?
    ensures run.escaped.Some? ==> run.escaped == Some(retryAcknowledge.message)
  {
    if fetch.Threw? || write.Threw? then
      BranchRun([FetchFileData, AcknowledgeUpload], EscapedFrom(retryAcknowledge))
    else if acknowledge.Threw? then
      BranchRun([FetchFileData, AcknowledgeUpload, AcknowledgeUpload], EscapedFrom(retryAcknowledge))
    else
      BranchRun([FetchFileData, AcknowledgeUpload], None)
  }

  /** The upload is acknowledged whatever became of the fetch and the write,
      and an exception escapes only when an acknowledgement itself failed. */
  lemma UploadAlwaysAcknowledged(fetch: Attempt, write: Attempt, acknowledge: Attempt, retryAcknowledge: Attempt)
    ensures var run := ReceiveUploadBranch(fetch, write, acknowledge, retryAcknowledge);
            run.calls[0] == FetchFileData && run.calls[1] == AcknowledgeUpload
            && (forall i :: 1 <= i < |run.calls| ==> run.calls[i] == AcknowledgeUpload)
            && (run.escaped.Some? ==> acknowledge.Threw? || retryAcknowledge.Threw?)
            && (fetch == write == acknowledge == Completed ==> run == BranchRun([FetchFileData, AcknowledgeUpload], None))
  {
  }

  /** Reading the requested local file. */
  datatype LocalFile = Missing | Read(data: seq<byte>) | ReadFailed(message: string)

  function NotFoundMessage(path: string): string {
    "File not found: " + path
  }

  /** The download branch: a missing file is reported as an error, a read file
      is sent; any exception is caught and its message reported as the error. */
  function SendDownloadBranch(path: string, file: LocalFile, report: Attempt, retryReport: Attempt)
    : (run: BranchRun)
    ensures |run.calls| == if report.Threw? && !file.ReadFailed? then 2 else 1
    ensures |run.calls| == 2 ==> run.calls[1] == ReportDownload(Some(report.message), None)
    ensures file.Read? ==> run.calls[0] == ReportDownload(None, Some(file.data))
    ensures run.escaped.Some? <==> (report.Threw? || file.ReadFailed?) && retryReport.Threw?
    ensures run.escaped.Some? ==> run.escaped == Some(retryReport.message)
  {
    match file
    case Missing =>
      var first := ReportDownload(Some(NotFoundMessage(path)), None);
      if report.Threw? then BranchRun([first, ReportDownload(Some(report.message), None)], EscapedFrom(retryReport))
      else BranchRun([first], None)
    case ReadFailed(message) =>
      BranchRun([ReportDownload(Some(message), None)], EscapedFrom(retryReport))
    case Read(data) =>
      var first := ReportDownload(None, Some(data));
      if report.Threw? then BranchRun([first, ReportDownload(Some(report.message), None)], EscapedFrom(retryReport))
      else BranchRun([first], None)
  }

  /** Exactly one report reaches the relay in an undisturbed run; data is sent
      only when the file was read, and then exactly its bytes; a missing file
      is reported with "File not found: " and its path, a failed read with the
      exception's message. */
  lemma DownloadReports(path: string, file: LocalFile, report: Attempt, retryReport: Attempt)
    ensures var run := SendDownloadBranch(path, file, report, retryReport);
            |run.calls| >= 1
            && (forall i :: 0 <= i < |run.calls| ==> run.calls[i].ReportDownload?)
            && (forall i :: 0 <= i < |run.calls| ==> run.calls[i].error.Some? != run.calls[i].data.Some?)
            && (forall i :: 0 <= i < |run.calls| && run.calls[i].data.Some? ==>
                  file.Read? && run.calls[i].data.value == file.data)
            && (file.Read? ==> run.calls[0] == ReportDownload(None, Some(file.data)))
            && (file.Missing? ==> run.calls[0] == ReportDownload(Some("File not found: " + path), None))
            && (file.ReadFailed? ==> run.calls == [ReportDownload(Some(file.message), None)])
            && (report.Completed? && !file.ReadFailed? ==> |run.calls| == 1 && run.escaped == None)
  {
  }

  // ---- running a command ----

  /** The `Arguments` string handed to powershell.exe: the command inside
      double quotes, every quote in it preceded by a backslash. */
  function PowerShellArguments(command: string): (args: string)
    ensures "-NoProfile -NonInteractive -Command \"" <= args && args[|args| - 1] == '"'
    ensures |args| == 38 + |EscapeQuotes(command)|
  {
    "-NoProfile -NonInteractive -Command \"" + EscapeQuotes(command) + "\""
  }

  /** The argument string ends in a quote and its middle reads back as the command. */
  lemma PowerShellArgumentsQuoted(command: string)
    ensures var args := PowerShellArguments(command);
            var prefix := "-NoProfile -NonInteractive -Command \"";
            prefix <= args && args[|args| - 1] == '"'
            && UnescapeQuotes(args[|prefix|..|args| - 1]) == command
  {
    var args := PowerShellArguments(command);
    var prefix := "-NoProfile -NonInteractive -Command \"";
    assert args[|prefix|..|args| - 1] == EscapeQuotes(command);
    UnescapeEscapeQuotes(command);
  }

  /** stdout, then a labelled stderr section when stderr has any non-white-space
      character, with trailing white space trimmed. */
  function CombineOutput(stdout: string, stderr: string): (combined: string)
    ensures combined == [] || !IsWhiteSpace(combined[|combined| - 1])
  {
    var joined := if IsBlank(stderr) then stdout else stdout + StderrHeader + stderr;
    TrimEnd(joined, IsWhiteSpace)
  }

  /** With stderr blank, the output is stdout trimmed. */
  lemma CombineOutputBlankStderr(stdout: string, stderr: string)
    requires IsBlank(stderr)
    ensures CombineOutput(stdout, stderr) == TrimEnd(stdout, IsWhiteSpace)
  {
  }

  /** With stderr present, all of stdout and the label survive, and only
      stderr's trailing white space is trimmed. */
  lemma {:induction false} CombineOutputWithStderr(stdout: string, stderr: string)
    requires !IsBlank(stderr)
    ensures CombineOutput(stdout, stderr) == stdout + StderrHeader + TrimEnd(stderr, IsWhiteSpace)
  {
    var i :| 0 <= i < |stderr| && !IsWhiteSpace(stderr[i]);
    TrimEndAppend(stdout + StderrHeader, stderr, IsWhiteSpace);
  }

  /** How the process run ended. */
  datatype ProcessRun =
    | Exited(stdout: string, stderr: string, exitCode: int32)
    | StillRunningAfter60s      // killed
    | Raised(message: string)   // starting, waiting or killing threw

  /** `ExecuteCommand(command)` with the process runner as a parameter: it is
      given the argument string and says how the run ended. */
  function ExecuteCommand(command: string, run: string -> ProcessRun): (r: CommandResult)
    ensures run(PowerShellArguments(command)).StillRunningAfter60s? ==> r == CommandResult(KilledOutput, -1)
    ensures run(PowerShellArguments(command)).Raised? ==>
              r == CommandResult("[EXEC ERROR] " + run(PowerShellArguments(command)).message, -1)
    ensures run(PowerShellArguments(command)).Exited? ==>
              var ended := run(PowerShellArguments(command));
              r == CommandResult(CombineOutput(ended.stdout, ended.stderr), ended.exitCode)
  {
    match run(PowerShellArguments(command))
    case StillRunningAfter60s => CommandResult(KilledOutput, -1)
    case Raised(message) => CommandResult("[EXEC ERROR] " + message, -1)
    case Exited(stdout, stderr, exitCode) => CommandResult(CombineOutput(stdout, stderr), exitCode)
  }

  /** The command half of a cycle: a polled command is run and its result is
      what the agent posts back; no command, nothing is posted. */
  function CommandStep(polled: Option<string>, run: string -> ProcessRun): (posted: Option<CommandResult>)
    ensures posted.Some? <==> polled.Some?
    ensures polled.Some? && run(PowerShellArguments(polled.value)).StillRunningAfter60s? ==>
              posted == Some(CommandResult(KilledOutput, -1))
    ensures polled.Some? && run(PowerShellArguments(polled.value)).Raised? ==>
              posted == Some(CommandResult("[EXEC ERROR] " + run(PowerShellArguments(polled.value)).message, -1))
    ensures polled.Some? && run(PowerShellArguments(polled.value)).Exited? ==>
              var ended := run(PowerShellArguments(polled.value));
              posted == Some(CommandResult(CombineOutput(ended.stdout, ended.stderr), ended.exitCode))
  {
    if polled.Some? then Some(ExecuteCommand(polled.value, run)) else None
  }
}
