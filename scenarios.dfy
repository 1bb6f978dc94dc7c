/**
 * The relay and the agent together: what the agent makes of the relay's
 * file-poll answer, and client code that drives a `Relay` through the
 * exchanges of a command timeout, an upload, a missing download, liveness and
 * the token check, proving what each caller sees from the specifications alone.
 */
module Scenarios {
  import opened Common
  import opened Text
  import opened Relay
  import Agent

  /** The agent acts on exactly what the relay reports: the pending upload's
      path, else the pending download's path, else nothing. */
  lemma {:induction false} AgentFollowsFilePoll(pendingUpload: Option<FileTransfer>, downloadWaiting: bool,
                                                pendingDownload: Option<FileTransfer>)
    requires pendingUpload.Some? ==> pendingUpload.value.path.Some? && pendingUpload.value.data.Some?
    requires pendingDownload.Some? <==> downloadWaiting
    requires pendingDownload.Some? ==> pendingDownload.value.path.Some?
    ensures var action := Agent.Dispatch(Some(FilePollAnswer(pendingUpload, downloadWaiting, pendingDownload)));
            (pendingUpload.Some? ==> action == Agent.ReceiveUpload(pendingUpload.value.path.value))
            && (pendingUpload.None? && pendingDownload.Some? ==>
                  action == Agent.SendDownload(pendingDownload.value.path.value))
            && (pendingUpload.None? && pendingDownload.None? ==> action == Agent.NoAction)
  {
    var report := FilePollAnswer(pendingUpload, downloadWaiting, pendingDownload);
    if pendingUpload.Some? {
      assert report.action == Some("upload") && report.path == pendingUpload.value.path;
    } else if pendingDownload.Some? {
      assert report.action == Some("download") && report.path == pendingDownload.value.path;
    } else {
      assert report.action == None;
    }
  }

  const T0: int := 1000 * TicksPerSecond

  lemma TimeoutAfterOneSecond()
    ensures TimeoutMessage(1) == "[TIMEOUT] No response after 1s"
  {
  }

  /** The file name of a path is what follows its last separator. */
  lemma FileNameOfLog()
    ensures FileName("/srv/a.log", {'/'}) == "a.log"
  {
    var p := "/srv/a.log";
    FileNameAfterLastSeparator(p, {'/'}, 4);
    assert p[5..] == "a.log";
  }

  /** A command nobody answers times out after 1 s with the timeout message,
      and the slot is free for the next command at once. */
  method CommandTimeout() {
    var relay := new Relay("secret", {'/'});
    var _ := relay.Poll(T0);
    var started := relay.ExecBegin(Some(CommandRequest(Some("sleep forever"), 1)), T0 + TicksPerSecond);
    assert started.Awaiting? && started.wait.timeout == 1;
    var answer := relay.ExecTimeout(started.wait);
    TimeoutAfterOneSecond();
    assert answer == Ok(ResultBody(CommandResult("[TIMEOUT] No response after 1s", -1)));
    assert relay.CommandSlot() == (None, null, false);
    var next := relay.ExecBegin(Some(CommandRequest(Some("hostname"), 0)), T0 + 2 * TicksPerSecond);
    assert next.Awaiting? && next.wait.timeout == 30;
  }

  /** A second command while the first is in flight is turned away. */
  method SingleFlight() {
    var relay := new Relay("secret", {'/'});
    var _ := relay.Poll(T0);
    var first := relay.ExecBegin(Some(CommandRequest(Some("a"), 30)), T0);
    var second := relay.ExecBegin(Some(CommandRequest(Some("b"), 30)), T0);
    assert first.Awaiting?;
    assert second == Answered(Ok(ResultBody(CommandResult(AnotherCommandPending, -1))));
    assert relay.pendingCommand == Some("a");
  }

  /** The agent polls, runs the command and submits; the controller gets the result. */
  method CommandRoundTrip() {
    var relay := new Relay("secret", {'/'});
    var _ := relay.Poll(T0);
    var started := relay.ExecBegin(Some(CommandRequest(Some("hostname"), 30)), T0);
    assert started.Awaiting?;
    var polled := relay.Poll(T0 + 1);
    assert polled == Ok(CommandBody(Some("hostname")));
    var again := relay.Poll(T0 + 2);
    assert again == Ok(CommandBody(None));
    var _ := relay.PostResult(Some(CommandResult("box", 0)));
    var late := relay.PostResult(Some(CommandResult("late", 1)));
    assert late == Ok(NoBody);
    var answer := relay.ExecResolve(started.wait);
    assert answer == Ok(ResultBody(CommandResult("box", 0)));
  }

  /** Upload: install, poll, fetch, acknowledge; the caller gets {ok, size}. */
  method UploadExchange() {
    var relay := new Relay("secret", {'/'});
    var _ := relay.Poll(T0);
    var data: seq<byte> := [1, 2, 3];
    var started := relay.UploadBegin(Some("/tmp/x"), data, T0);
    assert started.Awaiting?;
    var polled := relay.FilePoll(T0 + 1);
    assert polled == Ok(FileActionBody(FilePollReport(Some("upload"), Some("/tmp/x"), 3)));
    var fetched := relay.FileData();
    assert fetched == Ok(FileBody(data, OctetStream, None));
    var _ := relay.FileDone();
    assert started.wait.waiter.value == Some(true);
    var answer := relay.UploadResolve(started.wait);
    assert answer == Ok(UploadOkBody("ok", 3));
    var gone := relay.FileData();
    assert gone == Response(404, NoBody);
  }

  /** A second upload replaces the first.  When the first caller's timer then
      fires it clears the pending upload: later polls report nothing, while the
      second upload's waiter stays installed and unset. */
  method UploadOverwritten() {
    var relay := new Relay("secret", {'/'});
    var _ := relay.Poll(T0);
    var first := relay.UploadBegin(Some("/a"), [1], T0);
    var second := relay.UploadBegin(Some("/b"), [2, 3], T0);
    assert first.Awaiting? && second.Awaiting?;
    var polled := relay.FilePoll(T0 + 1);
    assert polled == Ok(FileActionBody(FilePollReport(Some("upload"), Some("/b"), 2)));
    var _ := relay.UploadTimeout(first.wait);
    var after := relay.FilePoll(T0 + 2);
    assert after == Ok(FileActionBody(FilePollReport(None, None, 0)));
    assert relay.uploadTcs == second.wait.waiter && second.wait.waiter.value == None;
  }

  /** Download of a file the agent reports missing: the caller gets 404 with
      the agent's own message, not a timeout. */
  method DownloadMissing() {
    var relay := new Relay("secret", {'/'});
    var _ := relay.Poll(T0);
    var started := relay.DownloadBegin(Some("/srv/a.log"), T0);
    assert started.Awaiting?;
    var polled := relay.FilePoll(T0 + 1);
    assert polled == Ok(FileActionBody(FilePollReport(Some("download"), Some("/srv/a.log"), 0)));
    assert relay.downloadTcs == started.wait.waiter;
    var message := Agent.NotFoundMessage("/srv/a.log");
    assert message == "File not found: /srv/a.log";
    var _ := relay.FileUpload(Some(message), []);
    assert started.wait.waiter.value == Some(FileTransfer(None, None, Some(message)));
    var answer := relay.DownloadResolve(started.wait);
    assert answer == Response(404, ErrorBody("File not found: /srv/a.log"));
    assert relay.DownloadSlot() == (None, null);
  }

  /** Download of a file the agent sends: the caller gets the bytes under the
      file's name. */
  method DownloadFound() {
    var relay := new Relay("secret", {'/'});
    var _ := relay.Poll(T0);
    var started := relay.DownloadBegin(Some("/srv/a.log"), T0);
    assert started.Awaiting?;
    var _ := relay.FileUpload(None, [7]);
    assert started.wait.waiter.value == Some(FileTransfer(None, Some([7]), None));
    FileNameOfLog();
    var answer := relay.DownloadResolve(started.wait);
    assert answer == Ok(FileBody([7], OctetStream, Some("a.log")));
  }

  /** Connected right after a poll; disconnected once 10 s have passed. */
  method Liveness() {
    var relay := new Relay("secret", {'/'});
    var before := relay.Status(T0);
    assert !before.body.clientConnected && before.body.secondsAgo == -1;
    var _ := relay.Poll(T0);
    var now := relay.Status(T0 + 3 * TicksPerSecond + 5);
    assert now.body.clientConnected && now.body.secondsAgo == 3;
    var later := relay.Status(T0 + 10 * TicksPerSecond);
    assert !later.body.clientConnected;
    var refused := relay.ExecBegin(Some(CommandRequest(Some("a"), 30)), T0 + 10 * TicksPerSecond);
    assert refused == Answered(Ok(ResultBody(CommandResult(NoClientConnected, -1))));
  }

  /** A wrong token is refused before any handler runs; the root page needs none. */
  method TokenCheck() {
    var relay := new Relay("secret", {'/'});
    var _ := relay.Poll(T0);
    var refused := relay.Handle(Exec(Some(CommandRequest(Some("a"), 30))), "/api/exec", Some("guess"), Some("secret"), T0);
    assert refused == Answered(Response(401, PlainText(InvalidToken)));
    assert relay.CommandSlot() == (None, null, false);
    var index := relay.Handle(Index, "/", None, None, T0);
    assert index.Answered? && index.response.code != 401;
    var viaHeader := relay.Handle(Status, "/api/status", None, Some("secret"), T0);
    assert viaHeader.Answered? && viaHeader.response.code != 401;
  }

  /** Requests through the whole pipeline: a heartbeat with the token records
      the poll, and the agent's acknowledgement clears a pending upload and
      fulfils its waiter. */
  method PipelineEffects() {
    var relay := new Relay("secret", {'/'});
    var polled := relay.Handle(Poll, "/api/poll", Some("secret"), None, T0 + 5);
    assert relay.lastClientPoll == T0 + 5;
    assert polled == Answered(Ok(CommandBody(None)));
    var started := relay.Route(Upload(Some("C:/in.bin"), [1, 2]), T0 + 6);
    assert started.Awaiting? && started.wait.UploadPending?;
    var waiter := started.wait.upload.waiter;
    var reported := relay.Handle(FilePoll, "/api/file-poll", None, Some("secret"), T0 + 7);
    assert reported == Answered(Ok(FileActionBody(FilePollReport(Some("upload"), Some("C:/in.bin"), 2))));
    var done := relay.Route(FileDone, T0 + 8);
    assert relay.pendingUpload == None && waiter.value == Some(true);
  }

  /** The same command sent to "/API/exec" with no token is routed to exec and
      made pending for the agent. */
  method UppercaseExecWithoutToken() {
    var relay := new Relay("secret", {'/'});
    var _ := relay.Poll(T0);
    var request := Some(CommandRequest(Some("a"), 30));
    UppercasePathSkipsGate("secret", request);
    var started := relay.Handle(Exec(request), "/API/exec", None, None, T0);
    assert started.Awaiting? && relay.pendingCommand == Some("a");
  }

  /** With the case-insensitive gate the same request is refused. */
  method UppercaseExecRefused() {
    var relay := new Relay("secret", {'/'});
    var _ := relay.Poll(T0);
    var request := Some(CommandRequest(Some("a"), 30));
    UppercasePathSkipsGate("secret", request);
    var refused := relay.HandleWithAnyCaseGate(Exec(request), "/API/exec", None, None, T0);
    assert refused == Answered(Response(401, PlainText(InvalidToken)));
    assert relay.CommandSlot() == (None, null, false);
  }

  /** A timeout beyond the timer's range fails the request with 500 at once, but
      the command stays pending and the agent's next poll takes it. */
  method OversizedTimeout() {
    var relay := new Relay("secret", {'/'});
    var _ := relay.Poll(T0);
    TimerAcceptsExactly(5_000_000);
    var started := relay.ExecBegin(Some(CommandRequest(Some("x"), 5_000_000)), T0);
    assert started == Answered(Response(500, NoBody));
    assert relay.CommandSlot() == (Some("x"), null, false);
    var polled := relay.Poll(T0 + 1);
    assert polled == Ok(CommandBody(Some("x")));
  }
}
