/**
 * The relay server (`RemoteCmd.Server/Program.cs`).  Its handlers share eight
 * variables; here they are the fields of one `Relay` object and every endpoint
 * is a method on it.
 *
 * Time is a parameter `now`, in .NET ticks (100 ns); `DateTime.MinValue` is
 * tick 0.  The semaphore is the boolean `busy`; a `TaskCompletionSource` is a
 * `Waiter`, a one-shot cell whose first `TrySet` wins.  A handler that awaits
 * (exec, upload, download) is split into a begin step, which ends by handing
 * back the handler's suspended locals, and the two ways its await can end: the
 * waiter was fulfilled (resolve) or the timer fired (timeout).
 */
module Relay {
  import opened Common
  import opened Text

  const TicksPerSecond: int := 10_000_000
  /** An agent is connected while its last poll is less than 10 s old. */
  const LivenessWindow: int := 10 * TicksPerSecond
  /** `DateTime.MinValue`: the agent has never polled. */
  const NeverPolled: int := 0
  const DefaultTimeoutSeconds: int := 30
  /** `Timer.MaxSupportedTimeout`: the longest delay, in milliseconds, that a
      `CancellationTokenSource` accepts. */
  const MaxTimerMilliseconds: int := 0xFFFF_FFFE
  const ApiPrefix: string := "/api/"
  const OctetStream: string := "application/octet-stream"

  const InvalidToken: string := "Invalid token"
  const NoClientConnected: string := "[ERROR] No client connected"
  const AnotherCommandPending: string := "[ERROR] Another command is pending"

  /** The help text served at `/`. */
  const Usage: string :=
    "Remote CMD Relay Server\n" +
    "GET  /api/status                    - Check client\n" +
    "POST /api/exec                      - Run command {\"command\":\"...\", \"timeoutSeconds\":30}\n" +
    "POST /api/upload?path=C:\\dest\\f.zip  - Upload file to remote (--data-binary @local.zip)\n" +
    "GET  /api/download?path=C:\\src\\f.zip - Download file from remote\n" +
    "All endpoints need ?token=<TOKEN>"

  // ---- records ----

  /** `CommandRequest(Command, TimeoutSeconds)` as the JSON body deserialises. */
  datatype CommandRequest = CommandRequest(command: Option<string>, timeoutSeconds: int32)

  /** `FileTransfer { Path, Data, Error }`. */
  datatype FileTransfer = FileTransfer(path: Option<string>, data: Option<seq<byte>>, error: Option<string>)

  /** What a handler writes back. */
  datatype Body =
    | NoBody
    | PlainText(text: string)
    | CommandBody(command: Option<string>)               // { command }
    | ResultBody(result: CommandResult)                  // CommandResult
    | ErrorBody(error: string)                           // { error }
    | UploadOkBody(status: string, size: int)            // { status, size }
    | FileActionBody(report: FilePollReport)             // { action, path, size }
    | StatusBody(clientConnected: bool, lastPoll: int, secondsAgo: int)
    | FileBody(data: seq<byte>, contentType: string, fileName: Option<string>)

  datatype Response = Response(code: int, body: Body)

  function Ok(body: Body): Response { Response(200, body) }

  // ---- time ----

  /** `(UtcNow - lastClientPoll).TotalSeconds < 10`: the elapsed time is under
      10 s exactly when its whole seconds are, so the fraction plays no part. */
  predicate Connected(now: int, lastPoll: int): (b: bool)
    ensures b <==> WholeSeconds(now - lastPoll) < 10
  {
    now - lastPoll < LivenessWindow
  }

  /** The initial `DateTime.MinValue` counts as disconnected at any clock
      reading at least 10 s past it, as every real reading is. */
  lemma NeverPolledIsDisconnected(now: int)
    requires now >= LivenessWindow
    ensures !Connected(now, NeverPolled)
  {
  }

  /** `(int)elapsed.TotalSeconds`: whole seconds, truncated toward zero. */
  function WholeSeconds(ticks: int): (s: int)
    ensures ticks >= 0 ==> 0 <= s * TicksPerSecond <= ticks < (s + 1) * TicksPerSecond
    ensures ticks < 0 ==> (s - 1) * TicksPerSecond < ticks <= s * TicksPerSecond <= 0
  {
    if ticks >= 0 then ticks / TicksPerSecond else -((-ticks) / TicksPerSecond)
  }

  /** How long exec waits: the requested seconds when positive, else 30. */
  function EffectiveTimeout(requested: int32): (t: int)
    ensures t > 0
    ensures requested > 0 ==> t == requested
    ensures requested <= 0 ==> t == DefaultTimeoutSeconds
  {
    if requested > 0 then requested else DefaultTimeoutSeconds
  }

  /** `new CancellationTokenSource(TimeSpan.FromSeconds(seconds))` does not throw. */
  predicate TimerAccepts(seconds: int) {
    -1 <= seconds * 1000 <= MaxTimerMilliseconds
  }

  /** A positive timeout is accepted exactly up to 4,294,967 s, about 49.7 days. */
  lemma TimerAcceptsExactly(seconds: int)
    requires seconds > 0
    ensures TimerAccepts(seconds) <==> seconds <= 4_294_967
  {
  }

  /** `$"[TIMEOUT] No response after {timeout}s"`. */
  function TimeoutMessage(timeout: nat): string {
    "[TIMEOUT] No response after " + NatToString(timeout) + "s"
  }

  // ---- authentication ----

  /** `Query["token"].FirstOrDefault() ?? Headers["X-Token"].FirstOrDefault()`. */
  function PresentedToken(queryToken: Option<string>, headerToken: Option<string>): Option<string> {
    if queryToken.Some? then queryToken else headerToken
  }

  /** The middleware as written lets a request through: its path test is a
      case-sensitive prefix test. */
  predicate Admits(token: string, path: string, queryToken: Option<string>, headerToken: Option<string>): (b: bool)
    ensures queryToken == Some(token) ==> b
    ensures ApiPrefix <= path && queryToken.Some? && queryToken != Some(token) ==> !b
  {
    ApiPrefix <= path ==> PresentedToken(queryToken, headerToken) == Some(token)
  }

  /** A request under `/api/` passes exactly when the query token equals the
      configured one, or, when there is no query token, the header does; any
      other path always passes. */
  lemma AdmitsExactly(token: string, path: string, queryToken: Option<string>, headerToken: Option<string>)
    ensures Admits(token, path, queryToken, headerToken)
            <==> (!(ApiPrefix <= path)
                  || queryToken == Some(token)
                  || (queryToken == None && headerToken == Some(token)))
  {
  }

  // ---- the file-poll answer ----

  /** What `/api/file-poll` reports for the given transfer slots: the pending
      upload first; otherwise the download whose waiter is set, with the pending
      download's path; otherwise nothing. */
  function FilePollAnswer(pendingUpload: Option<FileTransfer>, downloadWaiting: bool,
                          pendingDownload: Option<FileTransfer>): (report: FilePollReport)
    requires pendingUpload.Some? ==> pendingUpload.value.data.Some?
    ensures pendingUpload.Some? ==>
              report == FilePollReport(Some("upload"), pendingUpload.value.path, |pendingUpload.value.data.value|)
    ensures pendingUpload.None? && downloadWaiting ==>
              report.action == Some("download") && report.size == 0
              && report.path == (if pendingDownload.Some? then pendingDownload.value.path else None)
    ensures pendingUpload.None? && !downloadWaiting ==> report == FilePollReport(None, None, 0)
  {
    if pendingUpload.Some? then
      FilePollReport(Some("upload"), pendingUpload.value.path, |pendingUpload.value.data.value|)
    else if downloadWaiting then
      FilePollReport(Some("download"), if pendingDownload.Some? then pendingDownload.value.path else None, 0)
    else
      FilePollReport(None, None, 0)
  }

  // ---- one-shot waiters ----

  /** `TaskCompletionSource<T>`: unset until the first `TrySetResult`. */
  class Waiter<T> {
    var value: Option<T>

    constructor ()
      ensures value == None
    {
      value := None;
    }

    /** `TrySetResult(v)`: only the first call takes effect. */
    method TrySet(v: T) returns (accepted: bool)
      modifies this
      ensures accepted == old(value).None?
      ensures value == if accepted then Some(v) else old(value)
    {
      accepted := value == None;
      if accepted {
        value := Some(v);
      }
    }
  }

  /** A handler suspended in its await, with the locals it resumes with. */
  datatype ExecWait = ExecWait(waiter: Waiter<CommandResult>, timeout: nat)
  datatype UploadWait = UploadWait(waiter: Waiter<bool>, size: nat)
  datatype DownloadWait = DownloadWait(waiter: Waiter<FileTransfer>, remotePath: string)

  /** How a handler's first step ends: it answered, or it is awaiting. */
  datatype Started<W> = Answered(response: Response) | Awaiting(wait: W)

  datatype Pending = ExecPending(exec: ExecWait) | UploadPending(upload: UploadWait) | DownloadPending(download: DownloadWait)

  /** The requests the server routes. */
  datatype Endpoint =
    | Index
    | Poll
    | PostResult(result: Option<CommandResult>)
    | Exec(request: Option<CommandRequest>)
    | Upload(remotePath: Option<string>, data: seq<byte>)
    | FilePoll
    | FileData
    | FileDone
    | Download(remotePath: Option<string>)
    | FileUpload(error: Option<string>, data: seq<byte>)
    | Status

  function PathOf(e: Endpoint): string {
    match e
    case Index => "/"
    case Poll => "/api/poll"
    case PostResult(_) => "/api/result"
    case Exec(_) => "/api/exec"
    case Upload(_, _) => "/api/upload"
    case FilePoll => "/api/file-poll"
    case FileData => "/api/file-data"
    case FileDone => "/api/file-done"
    case Download(_) => "/api/download"
    case FileUpload(_, _) => "/api/file-upload"
    case Status => "/api/status"
  }

  /** The router matches a request path to an endpoint's template ignoring case. */
  predicate RoutesTo(path: string, e: Endpoint) {
    EqualsIgnoreCase(path, PathOf(e))
  }

  /** Every endpoint but the root page lives under `/api/`. */
  lemma ApiEndpoints(e: Endpoint)
    ensures !e.Index? <==> ApiPrefix <= PathOf(e)
  {
  }

  /** The gate as written and the router disagree on case: "/API/exec" routes to
      exec, yet the middleware does not read it as an `/api/` path, so it is let
      through with no token at all. */
  lemma UppercasePathSkipsGate(token: string, request: Option<CommandRequest>)
    ensures RoutesTo("/API/exec", Exec(request))
    ensures Admits(token, "/API/exec", None, None)
    ensures !AdmitsAnyCase(token, "/API/exec", None, None)
  {
    var path := "/API/exec";
    assert path[1] == 'A' != ApiPrefix[1];
    assert FoldCase(path[1]) == 'a' && FoldCase(path[2]) == 'p' && FoldCase(path[3]) == 'i';
    assert PathOf(Exec(request)) == "/api/exec";
    EqualsIgnoreCasePrefix(path, PathOf(Exec(request)), ApiPrefix);
  }

  /** The gate with the path test the router uses, `StartsWith("/api/",
      StringComparison.OrdinalIgnoreCase)`. */
  predicate AdmitsAnyCase(token: string, path: string, queryToken: Option<string>, headerToken: Option<string>): (b: bool)
    ensures b ==> Admits(token, path, queryToken, headerToken)
  {
    StartsWithIgnoreCase(path, ApiPrefix) ==> PresentedToken(queryToken, headerToken) == Some(token)
  }

  /** With that gate, any path that routes to an `/api/` endpoint, in whatever
      case it is written, passes exactly when the presented token is the
      configured one. */
  lemma AnyCaseGateGuardsApi(token: string, path: string, e: Endpoint,
                             queryToken: Option<string>, headerToken: Option<string>)
    requires RoutesTo(path, e) && !e.Index?
    ensures AdmitsAnyCase(token, path, queryToken, headerToken)
            <==> PresentedToken(queryToken, headerToken) == Some(token)
  {
    ApiEndpoints(e);
    EqualsIgnoreCasePrefix(path, PathOf(e), ApiPrefix);
  }

  // ---- the server ----

  class Relay {
    const token: string
    /** The directory separators of the host's `Path.GetFileName`. */
    const separators: set<char>

    var pendingCommand: Option<string>
    var resultTcs: Waiter?<CommandResult>
    var lastClientPoll: int
    var busy: bool
    var pendingUpload: Option<FileTransfer>
    var uploadTcs: Waiter?<bool>
    var pendingDownload: Option<FileTransfer>
    var downloadTcs: Waiter?<FileTransfer>

    /** Every upload waiter this relay has created. */
    ghost var uploadWaiters: set<Waiter<bool>>

    ghost predicate Valid()
      reads this, uploadWaiters
    {
      // the command waiter exists exactly while exec holds the lock
      busy == (resultTcs != null)
      // a pending upload always carries its path and bytes, and has a waiter
      && (pendingUpload.Some? ==>
            pendingUpload.value.path.Some? && pendingUpload.value.data.Some? && uploadTcs != null)
      // upload waiters are only ever fulfilled with true
      && (uploadTcs != null ==> uploadTcs in uploadWaiters)
      && (forall w :: w in uploadWaiters ==> w.value != Some(false))
      // the download slot and its waiter are installed and cleared together
      && (pendingDownload.Some? <==> downloadTcs != null)
      && (pendingDownload.Some? ==> pendingDownload.value.path.Some?)
    }

    /** The three slots, for saying what an operation leaves alone. */
    function CommandSlot(): (Option<string>, Waiter?<CommandResult>, bool)
      reads this
    {
      (pendingCommand, resultTcs, busy)
    }

    function UploadSlot(): (Option<FileTransfer>, Waiter?<bool>)
      reads this
    {
      (pendingUpload, uploadTcs)
    }

    function DownloadSlot(): (Option<FileTransfer>, Waiter?<FileTransfer>)
      reads this
    {
      (pendingDownload, downloadTcs)
    }

    constructor (token: string, separators: set<char>)
      ensures Valid()
      ensures this.token == token && this.separators == separators
      ensures CommandSlot() == (None, null, false) && lastClientPoll == NeverPolled
      ensures UploadSlot() == (None, null) && DownloadSlot() == (None, null)
      ensures uploadWaiters == {}
    {
      this.token := token;
      this.separators := separators;
      pendingCommand := None;
      resultTcs := null;
      lastClientPoll := NeverPolled;
      busy := false;
      pendingUpload := None;
      uploadTcs := null;
      pendingDownload := None;
      downloadTcs := null;
      uploadWaiters := {};
    }

    // ---- command execution ----

    /** `GET /api/poll`: a heartbeat that takes the pending command, if any. */
    method Poll(now: int) returns (r: Response)
      requires Valid()
      modifies this
      ensures Valid()
      ensures lastClientPoll == now
      ensures r == Ok(CommandBody(old(pendingCommand)))
      ensures pendingCommand == None
      ensures resultTcs == old(resultTcs) && busy == old(busy)
      ensures UploadSlot() == old(UploadSlot()) && DownloadSlot() == old(DownloadSlot())
      ensures uploadWaiters == old(uploadWaiters)
    {
      lastClientPoll := now;
      if pendingCommand != None {
        var command := pendingCommand;
        pendingCommand := None;
        return Ok(CommandBody(command));
      }
      return Ok(CommandBody(None));
    }

    /** `POST /api/result`: fulfils the command waiter if there is one and the
        body is a result; the first fulfilment wins; the answer is always 200. */
    method PostResult(result: Option<CommandResult>) returns (r: Response)
      requires Valid()
      modifies resultTcs
      ensures Valid()
      ensures r == Ok(NoBody)
      ensures resultTcs != null ==>
                resultTcs.value == if result.Some? && old(resultTcs.value) == None then result
                                   else old(resultTcs.value)
    {
      if result != None && resultTcs != null {
        var _ := resultTcs.TrySet(result.value);
      }
      return Ok(NoBody);
    }

    /** `POST /api/exec`, up to its await.  A missing command, a disconnected
        agent and a held lock answer at once and change nothing; otherwise the
        lock is taken, a fresh waiter installed and the command made pending.
        A timeout too long for the timer throws once the command is pending:
        the caller gets 500, and the command stays pending with no waiter. */
    method ExecBegin(request: Option<CommandRequest>, now: int) returns (s: Started<ExecWait>)
      requires Valid()
      modifies this
      ensures Valid()
      ensures lastClientPoll == old(lastClientPoll)
      ensures UploadSlot() == old(UploadSlot()) && DownloadSlot() == old(DownloadSlot())
      ensures uploadWaiters == old(uploadWaiters)
      ensures request.None? || request.value.command.None? ==>
                s == Answered(Response(400, ErrorBody("Missing command"))) && CommandSlot() == old(CommandSlot())
      ensures request.Some? && request.value.command.Some? && !Connected(now, old(lastClientPoll)) ==>
                s == Answered(Ok(ResultBody(CommandResult(NoClientConnected, -1)))) && CommandSlot() == old(CommandSlot())
      ensures request.Some? && request.value.command.Some? && Connected(now, old(lastClientPoll)) && old(busy) ==>
                s == Answered(Ok(ResultBody(CommandResult(AnotherCommandPending, -1)))) && CommandSlot() == old(CommandSlot())
      ensures request.Some? && request.value.command.Some? && Connected(now, old(lastClientPoll)) && !old(busy)
              && !TimerAccepts(EffectiveTimeout(request.value.timeoutSeconds)) ==>
                s == Answered(Response(500, NoBody)) && CommandSlot() == (request.value.command, null, false)
      ensures request.Some? && request.value.command.Some? && Connected(now, old(lastClientPoll)) && !old(busy)
              && TimerAccepts(EffectiveTimeout(request.value.timeoutSeconds)) ==>
                s.Awaiting? && fresh(s.wait.waiter) && s.wait.waiter.value == None
                && s.wait.timeout == EffectiveTimeout(request.value.timeoutSeconds)
                && CommandSlot() == (request.value.command, s.wait.waiter, true)
    {
      if request == None || request.value.command == None {
        return Answered(Response(400, ErrorBody("Missing command")));
      }
      if !Connected(now, lastClientPoll) {
        return Answered(Ok(ResultBody(CommandResult(NoClientConnected, -1))));
      }
      if busy {
        return Answered(Ok(ResultBody(CommandResult(AnotherCommandPending, -1))));
      }
      var timeout := EffectiveTimeout(request.value.timeoutSeconds);
      pendingCommand := request.value.command;
      if !TimerAccepts(timeout) {
        // the timer throws after the command is installed; `finally` drops the
        // waiter and releases the lock, and the exception becomes a 500
        return Answered(Response(500, NoBody));
      }
      busy := true;
      var waiter := new Waiter<CommandResult>();
      resultTcs := waiter;
      return Awaiting(ExecWait(waiter, timeout));
    }

    /** Exec's await ends with the submitted result: it is answered, the waiter
        dropped and the lock released.  A command the agent never polled stays
        pending. */
    method ExecResolve(k: ExecWait) returns (r: Response)
      requires Valid() && busy && resultTcs == k.waiter && k.waiter.value.Some?
      modifies this
      ensures Valid()
      ensures r == Ok(ResultBody(k.waiter.value.value))
      ensures CommandSlot() == (old(pendingCommand), null, false)
      ensures lastClientPoll == old(lastClientPoll)
      ensures UploadSlot() == old(UploadSlot()) && DownloadSlot() == old(DownloadSlot())
      ensures uploadWaiters == old(uploadWaiters)
    {
      r := Ok(ResultBody(k.waiter.value.value));
      resultTcs := null;
      busy := false;
    }

    /** Exec's await ends by its timer: the command is withdrawn, the waiter
        dropped and the lock released. */
    method ExecTimeout(k: ExecWait) returns (r: Response)
      requires Valid() && busy && resultTcs == k.waiter
      modifies this
      ensures Valid()
      ensures r == Ok(ResultBody(CommandResult(TimeoutMessage(k.timeout), -1)))
      ensures CommandSlot() == (None, null, false)
      ensures lastClientPoll == old(lastClientPoll)
      ensures UploadSlot() == old(UploadSlot()) && DownloadSlot() == old(DownloadSlot())
      ensures uploadWaiters == old(uploadWaiters)
    {
      pendingCommand := None;
      r := Ok(ResultBody(CommandResult(TimeoutMessage(k.timeout), -1)));
      resultTcs := null;
      busy := false;
    }

    // ---- upload: controller to agent ----

    /** `POST /api/upload`, up to its await.  A missing path or a disconnected
        agent is refused; otherwise the transfer is installed, replacing any
        pending one, with a fresh waiter. */
    method UploadBegin(remotePath: Option<string>, data: seq<byte>, now: int) returns (s: Started<UploadWait>)
      requires Valid()
      modifies this
      ensures Valid()
      ensures CommandSlot() == old(CommandSlot()) && lastClientPoll == old(lastClientPoll)
      ensures DownloadSlot() == old(DownloadSlot())
      ensures IsNullOrEmpty(remotePath) ==>
                s == Answered(Response(400, ErrorBody("Missing ?path= parameter")))
                && UploadSlot() == old(UploadSlot()) && uploadWaiters == old(uploadWaiters)
      ensures !IsNullOrEmpty(remotePath) && !Connected(now, old(lastClientPoll)) ==>
                s == Answered(Response(400, ErrorBody("No client connected")))
                && UploadSlot() == old(UploadSlot()) && uploadWaiters == old(uploadWaiters)
      ensures !IsNullOrEmpty(remotePath) && Connected(now, old(lastClientPoll)) ==>
                s.Awaiting? && fresh(s.wait.waiter) && s.wait.waiter.value == None && s.wait.size == |data|
                && UploadSlot() == (Some(FileTransfer(remotePath, Some(data), None)), s.wait.waiter)
                && uploadWaiters == old(uploadWaiters) + {s.wait.waiter}
    {
      if IsNullOrEmpty(remotePath) {
        return Answered(Response(400, ErrorBody("Missing ?path= parameter")));
      }
      if !Connected(now, lastClientPoll) {
        return Answered(Response(400, ErrorBody("No client connected")));
      }
      pendingUpload := Some(FileTransfer(remotePath, Some(data), None));
      var waiter := new Waiter<bool>();
      uploadTcs := waiter;
      uploadWaiters := uploadWaiters + {waiter};
      return Awaiting(UploadWait(waiter, |data|));
    }

    /** Upload's await ends with the agent's acknowledgement.  The waiter is only
        ever fulfilled with true, so the answer is always `{status: ok, size}`
        and never 500. */
    method UploadResolve(k: UploadWait) returns (r: Response)
      requires Valid() && k.waiter in uploadWaiters && k.waiter.value.Some?
      ensures r == Ok(UploadOkBody("ok", k.size))
    {
      if k.waiter.value.value {
        r := Ok(UploadOkBody("ok", k.size));
      } else {
        r := Response(500, NoBody);
      }
    }

    /** Upload's await ends by its 5-minute timer: the pending upload (whichever
        it now is) is cleared; the upload waiter is left in place. */
    method UploadTimeout(k: UploadWait) returns (r: Response)
      requires Valid()
      modifies this
      ensures Valid()
      ensures r == Ok(ErrorBody("Upload timeout"))
      ensures pendingUpload == None && uploadTcs == old(uploadTcs)
      ensures CommandSlot() == old(CommandSlot()) && lastClientPoll == old(lastClientPoll)
      ensures DownloadSlot() == old(DownloadSlot()) && uploadWaiters == old(uploadWaiters)
    {
      pendingUpload := None;
      return Ok(ErrorBody("Upload timeout"));
    }

    /** `GET /api/file-poll`: a heartbeat that reports one pending transfer. */
    method FilePoll(now: int) returns (r: Response)
      requires Valid()
      modifies this
      ensures Valid()
      ensures lastClientPoll == now
      ensures r == Ok(FileActionBody(FilePollAnswer(pendingUpload, downloadTcs != null, pendingDownload)))
      ensures CommandSlot() == old(CommandSlot())
      ensures UploadSlot() == old(UploadSlot()) && DownloadSlot() == old(DownloadSlot())
      ensures uploadWaiters == old(uploadWaiters)
    {
      lastClientPoll := now;
      if pendingUpload != None {
        return Ok(FileActionBody(FilePollReport(Some("upload"), pendingUpload.value.path,
                                                |pendingUpload.value.data.value|)));
      }
      if downloadTcs != null {
        var path := if pendingDownload != None then pendingDownload.value.path else None;
        return Ok(FileActionBody(FilePollReport(Some("download"), path, 0)));
      }
      return Ok(FileActionBody(FilePollReport(None, None, 0)));
    }

    /** `GET /api/file-data`: the pending upload's bytes, or 404. */
    method FileData() returns (r: Response)
      requires Valid()
      ensures pendingUpload.None? ==> r == Response(404, NoBody)
      ensures pendingUpload.Some? ==>
                pendingUpload.value.data.Some? && r == Ok(FileBody(pendingUpload.value.data.value, OctetStream, None))
    {
      if pendingUpload == None || pendingUpload.value.data == None {
        return Response(404, NoBody);
      }
      return Ok(FileBody(pendingUpload.value.data.value, OctetStream, None));
    }

    /** `POST /api/file-done`: clears the pending upload and fulfils its waiter
        with true.  A repeated call changes nothing. */
    method FileDone() returns (r: Response)
      requires Valid()
      modifies this, uploadTcs
      ensures Valid()
      ensures r == Ok(NoBody)
      ensures pendingUpload == None && uploadTcs == old(uploadTcs)
      ensures uploadTcs != null ==>
                uploadTcs.value == if old(uploadTcs.value) == None then Some(true) else old(uploadTcs.value)
      ensures CommandSlot() == old(CommandSlot()) && lastClientPoll == old(lastClientPoll)
      ensures DownloadSlot() == old(DownloadSlot()) && uploadWaiters == old(uploadWaiters)
    {
      pendingUpload := None;
      if uploadTcs != null {
        var _ := uploadTcs.TrySet(true);
      }
      return Ok(NoBody);
    }

    // ---- download: agent to controller ----

    /** `GET /api/download`, up to its await.  A missing path or a disconnected
        agent is refused; otherwise the request is installed, replacing any
        pending one, with a fresh waiter. */
    method DownloadBegin(remotePath: Option<string>, now: int) returns (s: Started<DownloadWait>)
      requires Valid()
      modifies this
      ensures Valid()
      ensures CommandSlot() == old(CommandSlot()) && lastClientPoll == old(lastClientPoll)
      ensures UploadSlot() == old(UploadSlot()) && uploadWaiters == old(uploadWaiters)
      ensures IsNullOrEmpty(remotePath) ==>
                s == Answered(Response(400, ErrorBody("Missing ?path= parameter")))
                && DownloadSlot() == old(DownloadSlot())
      ensures !IsNullOrEmpty(remotePath) && !Connected(now, old(lastClientPoll)) ==>
                s == Answered(Response(400, ErrorBody("No client connected")))
                && DownloadSlot() == old(DownloadSlot())
      ensures !IsNullOrEmpty(remotePath) && Connected(now, old(lastClientPoll)) ==>
                s.Awaiting? && fresh(s.wait.waiter) && s.wait.waiter.value == None
                && s.wait.remotePath == remotePath.value
                && DownloadSlot() == (Some(FileTransfer(remotePath, None, None)), s.wait.waiter)
    {
      if IsNullOrEmpty(remotePath) {
        return Answered(Response(400, ErrorBody("Missing ?path= parameter")));
      }
      if !Connected(now, lastClientPoll) {
        return Answered(Response(400, ErrorBody("No client connected")));
      }
      pendingDownload := Some(FileTransfer(remotePath, None, None));
      var waiter := new Waiter<FileTransfer>();
      downloadTcs := waiter;
      return Awaiting(DownloadWait(waiter, remotePath.value));
    }

    /** Download's await ends with the agent's report: an error becomes 404
        carrying it, data becomes the file named after the requested path. */
    method DownloadResolve(k: DownloadWait) returns (r: Response)
      requires k.waiter.value.Some?
      ensures k.waiter.value.value.data.None? ==>
                r == Response(404, ErrorBody(k.waiter.value.value.error.GetOr("File not found")))
      ensures k.waiter.value.value.data.Some? ==>
                r == Ok(FileBody(k.waiter.value.value.data.value, OctetStream,
                                 Some(FileName(k.remotePath, separators))))
    {
      var result := k.waiter.value.value;
      if result.data == None {
        return Response(404, ErrorBody(result.error.GetOr("File not found")));
      }
      return Ok(FileBody(result.data.value, OctetStream, Some(FileName(k.remotePath, separators))));
    }

    /** Download's await ends by its 5-minute timer: the download slot (whichever
        request it now holds) is cleared and the caller gets 504. */
    method DownloadTimeout(k: DownloadWait) returns (r: Response)
      requires Valid()
      modifies this
      ensures Valid()
      ensures r == Response(504, NoBody)
      ensures DownloadSlot() == (None, null)
      ensures CommandSlot() == old(CommandSlot()) && lastClientPoll == old(lastClientPoll)
      ensures UploadSlot() == old(UploadSlot()) && uploadWaiters == old(uploadWaiters)
    {
      pendingDownload := None;
      downloadTcs := null;
      return Response(504, NoBody);
    }

    /** `POST /api/file-upload`: a non-empty `error` fulfils the download waiter
        with that error, anything else with the body's bytes; both clear the
        download slot. */
    method FileUpload(error: Option<string>, data: seq<byte>) returns (r: Response)
      requires Valid()
      modifies this, downloadTcs
      ensures Valid()
      ensures r == Ok(NoBody)
      ensures DownloadSlot() == (None, null)
      ensures old(downloadTcs) != null ==>
                old(downloadTcs).value
                == if old(downloadTcs.value) != None then old(downloadTcs.value)
                   else if !IsNullOrEmpty(error) then Some(FileTransfer(None, None, error))
                   else Some(FileTransfer(None, Some(data), None))
      ensures CommandSlot() == old(CommandSlot()) && lastClientPoll == old(lastClientPoll)
      ensures UploadSlot() == old(UploadSlot()) && uploadWaiters == old(uploadWaiters)
    {
      if !IsNullOrEmpty(error) {
        if downloadTcs != null {
          var _ := downloadTcs.TrySet(FileTransfer(None, None, error));
        }
        pendingDownload := None;
        downloadTcs := null;
        return Ok(NoBody);
      }
      if downloadTcs != null {
        var _ := downloadTcs.TrySet(FileTransfer(None, Some(data), None));
      }
      pendingDownload := None;
      downloadTcs := null;
      return Ok(NoBody);
    }

    // ---- status ----

    /** `GET /api/status`: whether the agent polled within 10 s, when, and how
        many whole seconds ago (-1 when disconnected).  Never changes state. */
    method Status(now: int) returns (r: Response)
      ensures r.code == 200 && r.body.StatusBody?
      ensures r.body.clientConnected == Connected(now, lastClientPoll)
      ensures r.body.lastPoll == lastClientPoll
      ensures r.body.clientConnected ==>
                r.body.secondsAgo < 10 && r.body.secondsAgo == WholeSeconds(now - lastClientPoll)
      ensures !r.body.clientConnected ==> r.body.secondsAgo == -1
    {
      var connected := Connected(now, lastClientPoll);
      var secondsAgo := if connected then WholeSeconds(now - lastClientPoll) else -1;
      return Ok(StatusBody(connected, lastClientPoll, secondsAgo));
    }

    // ---- the pipeline ----

    /** What the handler of `e` did between the old state and this one, as
        each handler's own contract states it; `s` is how it ended.
        `oldDownload` is the download waiter of the old state, which the
        file-upload handler fulfils and then drops. */
    twostate predicate Routed(e: Endpoint, now: int, new s: Started<Pending>, oldDownload: Waiter?<FileTransfer>)
      reads this, resultTcs, uploadTcs, downloadTcs, oldDownload
    {
      match e
      case Index =>
        s == Answered(Ok(PlainText(Usage)))
        && CommandSlot() == old(CommandSlot()) && lastClientPoll == old(lastClientPoll)
        && UploadSlot() == old(UploadSlot()) && DownloadSlot() == old(DownloadSlot())
      case Poll =>
        s == Answered(Ok(CommandBody(old(pendingCommand))))
        && lastClientPoll == now && pendingCommand == None
        && resultTcs == old(resultTcs) && busy == old(busy)
        && UploadSlot() == old(UploadSlot()) && DownloadSlot() == old(DownloadSlot())
      case PostResult(result) =>
        s == Answered(Ok(NoBody))
        && CommandSlot() == old(CommandSlot()) && lastClientPoll == old(lastClientPoll)
        && UploadSlot() == old(UploadSlot()) && DownloadSlot() == old(DownloadSlot())
        && (resultTcs != null ==>
              resultTcs.value == if result.Some? && old(resultTcs.value) == None then result
                                 else old(resultTcs.value))
      case Exec(request) =>
        lastClientPoll == old(lastClientPoll)
        && UploadSlot() == old(UploadSlot()) && DownloadSlot() == old(DownloadSlot())
        && (request.None? || request.value.command.None? ==>
              s == Answered(Response(400, ErrorBody("Missing command"))) && CommandSlot() == old(CommandSlot()))
        && (request.Some? && request.value.command.Some? && !Connected(now, old(lastClientPoll)) ==>
              s == Answered(Ok(ResultBody(CommandResult(NoClientConnected, -1)))) && CommandSlot() == old(CommandSlot()))
        && (request.Some? && request.value.command.Some? && Connected(now, old(lastClientPoll)) && old(busy) ==>
              s == Answered(Ok(ResultBody(CommandResult(AnotherCommandPending, -1)))) && CommandSlot() == old(CommandSlot()))
        && (request.Some? && request.value.command.Some? && Connected(now, old(lastClientPoll)) && !old(busy)
            && !TimerAccepts(EffectiveTimeout(request.value.timeoutSeconds)) ==>
              s == Answered(Response(500, NoBody)) && CommandSlot() == (request.value.command, null, false))
        && (request.Some? && request.value.command.Some? && Connected(now, old(lastClientPoll)) && !old(busy)
            && TimerAccepts(EffectiveTimeout(request.value.timeoutSeconds)) ==>
              s.Awaiting? && s.wait.ExecPending? && fresh(s.wait.exec.waiter)
              && CommandSlot() == (request.value.command, s.wait.exec.waiter, true)
              && s.wait.exec.waiter.value == None
              && s.wait.exec.timeout == EffectiveTimeout(request.value.timeoutSeconds))
      case Upload(remotePath, data) =>
        CommandSlot() == old(CommandSlot()) && lastClientPoll == old(lastClientPoll)
        && DownloadSlot() == old(DownloadSlot())
        && (IsNullOrEmpty(remotePath) ==>
              s == Answered(Response(400, ErrorBody("Missing ?path= parameter"))) && UploadSlot() == old(UploadSlot()))
        && (!IsNullOrEmpty(remotePath) && !Connected(now, old(lastClientPoll)) ==>
              s == Answered(Response(400, ErrorBody("No client connected"))) && UploadSlot() == old(UploadSlot()))
        && (!IsNullOrEmpty(remotePath) && Connected(now, old(lastClientPoll)) ==>
              s.Awaiting? && s.wait.UploadPending? && fresh(s.wait.upload.waiter)
              && UploadSlot() == (Some(FileTransfer(remotePath, Some(data), None)), s.wait.upload.waiter)
              && s.wait.upload.waiter.value == None && s.wait.upload.size == |data|)
      case FilePoll =>
        lastClientPoll == now && CommandSlot() == old(CommandSlot())
        && UploadSlot() == old(UploadSlot()) && DownloadSlot() == old(DownloadSlot())
        && (pendingUpload.Some? ==> pendingUpload.value.data.Some?)
        && s == Answered(Ok(FileActionBody(FilePollAnswer(pendingUpload, downloadTcs != null, pendingDownload))))
      case FileData =>
        CommandSlot() == old(CommandSlot()) && lastClientPoll == old(lastClientPoll)
        && UploadSlot() == old(UploadSlot()) && DownloadSlot() == old(DownloadSlot())
        && (pendingUpload.None? ==> s == Answered(Response(404, NoBody)))
        && (pendingUpload.Some? ==>
              pendingUpload.value.data.Some?
              && s == Answered(Ok(FileBody(pendingUpload.value.data.value, OctetStream, None))))
      case FileDone =>
        s == Answered(Ok(NoBody))
        && pendingUpload == None && uploadTcs == old(uploadTcs)
        && (uploadTcs != null ==>
              uploadTcs.value == if old(uploadTcs.value) == None then Some(true) else old(uploadTcs.value))
        && CommandSlot() == old(CommandSlot()) && lastClientPoll == old(lastClientPoll)
        && DownloadSlot() == old(DownloadSlot())
      case Download(remotePath) =>
        CommandSlot() == old(CommandSlot()) && lastClientPoll == old(lastClientPoll)
        && UploadSlot() == old(UploadSlot())
        && (IsNullOrEmpty(remotePath) ==>
              s == Answered(Response(400, ErrorBody("Missing ?path= parameter"))) && DownloadSlot() == old(DownloadSlot()))
        && (!IsNullOrEmpty(remotePath) && !Connected(now, old(lastClientPoll)) ==>
              s == Answered(Response(400, ErrorBody("No client connected"))) && DownloadSlot() == old(DownloadSlot()))
        && (!IsNullOrEmpty(remotePath) && Connected(now, old(lastClientPoll)) ==>
              s.Awaiting? && s.wait.DownloadPending? && fresh(s.wait.download.waiter)
              && DownloadSlot() == (Some(FileTransfer(remotePath, None, None)), s.wait.download.waiter)
              && s.wait.download.waiter.value == None && s.wait.download.remotePath == remotePath.value)
      case FileUpload(error, data) =>
        s == Answered(Ok(NoBody))
        && DownloadSlot() == (None, null)
        && oldDownload == old(downloadTcs)
        && (oldDownload != null ==>
              oldDownload.value
              == if old(downloadTcs.value) != None then old(downloadTcs.value)
                 else if !IsNullOrEmpty(error) then Some(FileTransfer(None, None, error))
                 else Some(FileTransfer(None, Some(data), None)))
        && CommandSlot() == old(CommandSlot()) && lastClientPoll == old(lastClientPoll)
        && UploadSlot() == old(UploadSlot())
      case Status =>
        CommandSlot() == old(CommandSlot()) && lastClientPoll == old(lastClientPoll)
        && UploadSlot() == old(UploadSlot()) && DownloadSlot() == old(DownloadSlot())
        && s.Answered? && s.response.code == 200 && s.response.body.StatusBody?
        && s.response.body.clientConnected == Connected(now, lastClientPoll)
        && s.response.body.lastPoll == lastClientPoll
        && (s.response.body.clientConnected ==>
              s.response.body.secondsAgo == WholeSeconds(now - lastClientPoll))
        && (!s.response.body.clientConnected ==> s.response.body.secondsAgo == -1)
    }

    /** The router: runs the handler of a request the middleware let through.
        Its effect is that handler's (`Routed`); only exec, upload and download
        can be left waiting, no handler answers 401, and only result, file-done
        and file-upload touch a waiter that was already there. */
    method Route(e: Endpoint, now: int) returns (s: Started<Pending>)
      requires Valid()
      modifies this, resultTcs, uploadTcs, downloadTcs
      ensures Valid()
      ensures s.Answered? ==> s.response.code != 401
      ensures !(e.Exec? || e.Upload? || e.Download?) ==> s.Answered?
      ensures Routed(e, now, s, old(downloadTcs))
      ensures resultTcs == null || resultTcs == old(resultTcs) || fresh(resultTcs)
      ensures uploadTcs == null || uploadTcs == old(uploadTcs) || fresh(uploadTcs)
      ensures downloadTcs == null || downloadTcs == old(downloadTcs) || fresh(downloadTcs)
      ensures !e.PostResult? && old(resultTcs) != null ==> unchanged(old(resultTcs))
      ensures !e.FileDone? && old(uploadTcs) != null ==> unchanged(old(uploadTcs))
      ensures !e.FileUpload? && old(downloadTcs) != null ==> unchanged(old(downloadTcs))
    {
      match e {
        case Index =>
          s := Answered(Ok(PlainText(Usage)));
        case Poll =>
          var r := Poll(now);
          s := Answered(r);
        case PostResult(result) =>
          var r := PostResult(result);
          s := Answered(r);
        case Exec(request) =>
          var started := ExecBegin(request, now);
          s := if started.Answered? then Answered(started.response) else Awaiting(ExecPending(started.wait));
        case Upload(remotePath, data) =>
          var started := UploadBegin(remotePath, data, now);
          s := if started.Answered? then Answered(started.response) else Awaiting(UploadPending(started.wait));
        case FilePoll =>
          var r := FilePoll(now);
          s := Answered(r);
        case FileData =>
          var r := FileData();
          s := Answered(r);
        case FileDone =>
          var r := FileDone();
          s := Answered(r);
        case Download(remotePath) =>
          var started := DownloadBegin(remotePath, now);
          s := if started.Answered? then Answered(started.response) else Awaiting(DownloadPending(started.wait));
        case FileUpload(error, data) =>
          var r := FileUpload(error, data);
          s := Answered(r);
        case Status =>
          var r := Status(now);
          s := Answered(r);
      }
    }

    /** One request, with the raw path it was sent to, through the token
        middleware as written and the router.  A request the middleware refuses
        gets 401 and reaches no handler; an admitted one is routed.  Because the
        middleware's path test is case-sensitive and the router's is not, an
        `/API/...` request is routed without any token check. */
    method Handle(e: Endpoint, path: string, queryToken: Option<string>, headerToken: Option<string>, now: int)
      returns (s: Started<Pending>)
      requires Valid() && RoutesTo(path, e)
      modifies this, resultTcs, uploadTcs, downloadTcs
      ensures Valid()
      ensures !Admits(token, path, queryToken, headerToken) ==>
                s == Answered(Response(401, PlainText(InvalidToken)))
                && unchanged(this)
                && (old(resultTcs) != null ==> unchanged(old(resultTcs)))
                && (old(uploadTcs) != null ==> unchanged(old(uploadTcs)))
                && (old(downloadTcs) != null ==> unchanged(old(downloadTcs)))
      ensures Admits(token, path, queryToken, headerToken) && s.Answered? ==> s.response.code != 401
      ensures !(e.Exec? || e.Upload? || e.Download?) ==> s.Answered?
      ensures Admits(token, path, queryToken, headerToken) ==> Routed(e, now, s, old(downloadTcs))
      ensures resultTcs == null || resultTcs == old(resultTcs) || fresh(resultTcs)
      ensures uploadTcs == null || uploadTcs == old(uploadTcs) || fresh(uploadTcs)
      ensures downloadTcs == null || downloadTcs == old(downloadTcs) || fresh(downloadTcs)
      ensures !e.PostResult? && old(resultTcs) != null ==> unchanged(old(resultTcs))
      ensures !e.FileDone? && old(uploadTcs) != null ==> unchanged(old(uploadTcs))
      ensures !e.FileUpload? && old(downloadTcs) != null ==> unchanged(old(downloadTcs))
    {
      if !Admits(token, path, queryToken, headerToken) {
        return Answered(Response(401, PlainText(InvalidToken)));
      }
      s := Route(e, now);
    }

    /** The same pipeline with the middleware's path test made case-insensitive,
        as the router's is: a request to any endpoint but the root page, in
        whatever case its path is written, is routed only with the configured
        token. */
    method HandleWithAnyCaseGate(e: Endpoint, path: string, queryToken: Option<string>,
                                 headerToken: Option<string>, now: int)
      returns (s: Started<Pending>)
      requires Valid() && RoutesTo(path, e)
      modifies this, resultTcs, uploadTcs, downloadTcs
      ensures Valid()
      ensures !e.Index? && PresentedToken(queryToken, headerToken) != Some(token) ==>
                s == Answered(Response(401, PlainText(InvalidToken)))
                && unchanged(this)
                && (old(resultTcs) != null ==> unchanged(old(resultTcs)))
                && (old(uploadTcs) != null ==> unchanged(old(uploadTcs)))
                && (old(downloadTcs) != null ==> unchanged(old(downloadTcs)))
      ensures (e.Index? || PresentedToken(queryToken, headerToken) == Some(token)) && s.Answered? ==>
                s.response.code != 401
      ensures !(e.Exec? || e.Upload? || e.Download?) ==> s.Answered?
      ensures e.Index? || PresentedToken(queryToken, headerToken) == Some(token) ==>
                Routed(e, now, s, old(downloadTcs))
      ensures resultTcs == null || resultTcs == old(resultTcs) || fresh(resultTcs)
      ensures uploadTcs == null || uploadTcs == old(uploadTcs) || fresh(uploadTcs)
      ensures downloadTcs == null || downloadTcs == old(downloadTcs) || fresh(downloadTcs)
      ensures !e.PostResult? && old(resultTcs) != null ==> unchanged(old(resultTcs))
      ensures !e.FileDone? && old(uploadTcs) != null ==> unchanged(old(uploadTcs))
      ensures !e.FileUpload? && old(downloadTcs) != null ==> unchanged(old(downloadTcs))
    {
      if !e.Index? {
        AnyCaseGateGuardsApi(token, path, e, queryToken, headerToken);
      } else {
        assert !StartsWithIgnoreCase(path, ApiPrefix) by {
          assert |path| == 1;
        }
      }
      if !AdmitsAnyCase(token, path, queryToken, headerToken) {
        return Answered(Response(401, PlainText(InvalidToken)));
      }
      s := Route(e, now);
    }
  }
}
