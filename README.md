# remote-cmd relay, agent and envelope codec in Dafny

remote-cmd lets a controller run shell commands on a Windows agent that
accepts no inbound connections. Files can be moved in both directions. A
relay server reachable by both sides brokers everything: the controller
makes blocking HTTP requests to it, and the agent polls it. This project
models three parts of that system:

- **`Relay` (relay.dfy): the relay server.** It is one class whose fields are
  the server's eight shared variables. There is one method per endpoint.
  `Handle` takes a request with the raw path it was sent to. It passes the
  request through the token middleware, then `Route` runs the endpoint's
  handler.
  Exec, upload and download block while they wait. Each of them is split into
  three methods:
  - a begin step: validation, the liveness gate, installing the slot;
  - a resolve step: the waiter was fulfilled;
  - a timeout step: the timer fired.
- **How the relay's runtime is represented.**
  - Time is a parameter counted in .NET ticks, with `DateTime.MinValue` as tick 0.
  - The command semaphore is `busy`.
  - Each `TaskCompletionSource` is a `Waiter`, a one-shot cell whose first write wins.
- **`Crypto` (crypto.dfy): the agent's envelope codec.**
  - `Codec` derives the key in `Init`.
  - `Encrypt` block-copies nonce, tag and ciphertext into a fresh array.
  - `Decrypt` checks the length, then splits the envelope at offsets 12 and 28.
  - Each method is proved against a function over values: `SealEnvelope` or `OpenEnvelope`.
  - SHA-256, UTF-8, base64 and AES-GCM are function values. The laws stated in `Lawful` are their only constraint.
  - The random nonce is a parameter.
- **`Agent` (agent.dfy): the decisions in the agent's polling loop.**
  - the base URL;
  - the retry delay, as a loop method and its specification;
  - the file-poll dispatch;
  - the calls each transfer branch makes for each outcome of its I/O;
  - the PowerShell argument string;
  - the combined output and the sentinel results of running a command.
- **`Text` (text.dfy): .NET string operations.** The operations the other
  modules lean on, written out: ordinal `StartsWith`, ordinal comparison
  ignoring case (for ASCII letters), `TrimEnd`, `Replace`,
  `Char.IsWhiteSpace`, `Int32.ToString` and `Path.GetFileName`.
- **`Scenarios` (scenarios.dfy): client code.** It drives a `Relay` through
  these exchanges, using only the methods' contracts:
  - command timeout, single flight and command round trip;
  - upload, and the upload-overwrite quirk;
  - missing and found downloads;
  - liveness and the token check;
  - an upper-case `/API/exec` request with no token, under the gate as written and under the corrected gate;
  - a timeout too long for the timer.

  It also proves that the agent acts on exactly what the relay's file poll reports.

Behaviour of the code worth knowing:

- **No encryption on the wire.** Crypto.cs is not called by either
  Program.cs. Both sides exchange plaintext JSON and raw bytes, so the relay
  model carries plaintext.
- **Quirks kept as written.**
  - The upload timeout clears only the pending upload and leaves its waiter installed.
  - The file poll decides "download" on the download waiter, not on the pending download.
  - A second upload or download silently replaces the pending one.
  - `UploadOverwritten` in scenarios.dfy shows one consequence. After the first caller's timeout, later file polls report nothing, while the second upload's waiter stays installed and unset.
  - An exec timeout above 4,294,967 s is too long for `CancellationTokenSource`, which then throws at Program.cs:95. The command is already pending by then. The `finally` block drops the waiter and releases the lock, and the caller gets 500. The agent's next poll still takes the command, and nobody waits for its result.
  - The middleware guards paths that start with `/api/` in exactly that case, but the router ignores case. So `/API/exec` reaches the exec handler with no token. See the Findings section.

## Model

| member | source | states |
|---|---|---|
| Relay.Relay.constructor | RemoteCmd.Server/Program.cs:11-20 | the relay starts with no command, no waiter, the lock free, never polled, and both transfer slots empty |
| Relay.Admits | RemoteCmd.Server/Program.cs:40-44 | the query token, when present, decides alone: the configured one is always admitted, and any other is refused on an `/api/` path whatever the header says |
| Relay.AdmitsExactly | RemoteCmd.Server/Program.cs:37-52 | a path under `/api/` is admitted iff the query token equals the configured one, or there is no query token and `X-Token` equals it; every other path is admitted |
| Relay.Relay.Handle | RemoteCmd.Server/Program.cs:37-52 | for a raw path that routes to the endpoint ignoring case: a request the middleware refuses gets 401 "Invalid token" and changes no state and no waiter; an admitted request has exactly the effect and answer its handler's contract gives (`Routed`), and is never answered 401; only exec, upload and download can be left waiting |
| Relay.Relay.Route | RemoteCmd.Server/Program.cs:56-256 | for each of the eleven endpoints, the new state and the answer are those its handler's contract gives (`Routed`: poll records the heartbeat and hands over the command, file-done clears the upload and fulfils its waiter, file-upload clears the download slot, status reports liveness, and so on); no handler answers 401, only exec, upload and download can be left waiting, and a waiter that was already there changes only through result, file-done or file-upload |
| Relay.UppercasePathSkipsGate | RemoteCmd.Server/Program.cs:40 | "/API/exec" routes to exec, yet the middleware as written admits it with no token at all |
| Relay.AnyCaseGateGuardsApi | RemoteCmd.Server/Program.cs:40-44 | with a case-insensitive prefix test, a path routing to any endpoint but the root page passes iff the presented token is the configured one |
| Relay.AdmitsAnyCase | RemoteCmd.Server/Program.cs:40-44 | the corrected gate is stricter than the gate as written: whatever it admits, the gate as written admits too |
| Relay.Relay.HandleWithAnyCaseGate | RemoteCmd.Server/Program.cs:37-52 | with the corrected gate, a request to any endpoint but the root page without the configured token gets 401 and changes nothing, whatever the case of its path; one with the token, or to the root page, has its handler's effect (`Routed`) |
| Relay.Connected | RemoteCmd.Server/Program.cs:82 | the liveness test used by exec, upload, download and status (also lines 123, 192 and 241): elapsed time under 10 s, which holds exactly when its whole seconds are under 10 |
| Relay.NeverPolledIsDisconnected | RemoteCmd.Server/Program.cs:13 | the initial `DateTime.MinValue` counts as disconnected at every clock reading 10 s or more past it |
| Relay.Relay.Poll | RemoteCmd.Server/Program.cs:56-66 | sets the last poll to now, answers the pending command (or none) and leaves no command pending; nothing else changes |
| Relay.Relay.PostResult | RemoteCmd.Server/Program.cs:68-74 | always 200; the waiter, if any, takes the result only if the body is present and it was unset; a later or waiterless submission changes nothing |
| Relay.EffectiveTimeout | RemoteCmd.Server/Program.cs:94 | the requested seconds when positive, otherwise 30; always positive |
| Relay.Relay.ExecBegin | RemoteCmd.Server/Program.cs:76-112 | missing command gives 400, a disconnected agent gives "[ERROR] No client connected", a held lock gives "[ERROR] Another command is pending", each with no slot changed; a timeout the timer refuses gives 500 with the command left pending, no waiter and the lock free; otherwise the lock is taken, a fresh unset waiter installed, the command made pending and the effective timeout kept |
| Relay.TimerAcceptsExactly | RemoteCmd.Server/Program.cs:95 | a positive timeout is accepted by the cancellation timer exactly up to 4,294,967 s |
| Relay.Relay.ExecResolve | RemoteCmd.Server/Program.cs:97-112 | the caller gets the submitted result; the waiter becomes null and the lock is released |
| Relay.Relay.ExecTimeout | RemoteCmd.Server/Program.cs:102-112 | the caller gets ("[TIMEOUT] No response after {t}s", -1); the command is withdrawn, the waiter dropped and the lock released |
| Relay.Relay.UploadBegin | RemoteCmd.Server/Program.cs:117-134 | an empty path or a disconnected agent gives 400 with its message and no change; otherwise the transfer with its path and bytes replaces any pending one under a fresh waiter |
| Relay.Relay.UploadResolve | RemoteCmd.Server/Program.cs:139-140 | the caller always gets {status: ok, size}; the 500 branch is unreachable since upload waiters are only ever set to true |
| Relay.Relay.UploadTimeout | RemoteCmd.Server/Program.cs:142-146 | the caller gets "Upload timeout"; the pending upload is cleared and the upload waiter left in place |
| Relay.FilePollAnswer | RemoteCmd.Server/Program.cs:154-163 | a pending upload is reported with its path and byte count; otherwise a waiting download with the pending download's path and size 0; otherwise a null action; exactly one of the three |
| Relay.Relay.FilePoll | RemoteCmd.Server/Program.cs:150-164 | sets the last poll to now and answers `FilePollAnswer` of the slots, keyed on the download waiter; no slot changes |
| Relay.Relay.FileData | RemoteCmd.Server/Program.cs:167-174 | 404 without a pending upload, otherwise exactly its bytes as an octet stream |
| Relay.Relay.FileDone | RemoteCmd.Server/Program.cs:177-182 | clears the pending upload and sets its waiter to true if unset; a repeated call changes nothing further |
| Relay.Relay.DownloadBegin | RemoteCmd.Server/Program.cs:186-199 | an empty path or a disconnected agent gives 400 with its message and no change; otherwise the request replaces any pending one under a fresh waiter |
| Relay.Relay.DownloadResolve | RemoteCmd.Server/Program.cs:204-207 | no data gives 404 with the agent's error or "File not found"; data gives the bytes named by the requested path's file name |
| Relay.Relay.DownloadTimeout | RemoteCmd.Server/Program.cs:209-214 | the caller gets 504 and both the pending download and its waiter are cleared |
| Relay.Relay.FileUpload | RemoteCmd.Server/Program.cs:218-235 | a non-empty error fulfils an unset download waiter with that error, otherwise with the body's bytes; the download slot is cleared either way; always 200 |
| Relay.Relay.Status | RemoteCmd.Server/Program.cs:239-248 | connected iff the last poll is under 10 s old; reports the last poll and, when connected, the whole seconds since it (below 10), else -1; changes nothing |
| Relay.WholeSeconds | RemoteCmd.Server/Program.cs:246 | the `(int)` cast of elapsed seconds: truncation toward zero for either sign |
| Relay.Waiter.TrySet | RemoteCmd.Server/Program.cs:71-72 | only the first set takes effect, and it reports whether it did |
| Text.NatToString | RemoteCmd.Server/Program.cs:105 | non-empty decimal digits, with no leading zero except for 0 itself |
| Text.NatToStringValue | RemoteCmd.Server/Program.cs:105 | the digits written denote the number |
| Text.FileName | RemoteCmd.Server/Program.cs:207 | a suffix of the path with no separator in it, preceded by a separator unless it is the whole path |
| Text.FileNameAfterLastSeparator | RemoteCmd.Server/Program.cs:207 | the file name is exactly what follows the last separator |
| Text.FileNameWithoutSeparator | RemoteCmd.Server/Program.cs:207 | a path with no separator is its own file name |
| Scenarios.AgentFollowsFilePoll | RemoteCmd.Server/Program.cs:150-164 | the agent receives the pending upload's path, else sends the pending download's path, else does nothing |
| Crypto.Assemble | RemoteCmd.Client/Crypto.cs:26-31 | the envelope is 28 bytes longer than the ciphertext, with nonce at [0,12), tag at [12,28) and ciphertext from 28 |
| Crypto.Split | RemoteCmd.Client/Crypto.cs:38-44 | the ciphertext part is the envelope less 28 bytes |
| Crypto.SplitAssemble | RemoteCmd.Client/Crypto.cs:27-44 | splitting an assembled envelope gives back exactly its nonce, tag and ciphertext |
| Crypto.AssembleSplit | RemoteCmd.Client/Crypto.cs:27-44 | reassembling the parts of an envelope gives back the envelope |
| Crypto.SealEnvelope | RemoteCmd.Client/Crypto.cs:16-31 | fails with "key not initialised" exactly when there is no key; otherwise the envelope holds the nonce at [0,12), the cipher's tag at [12,28) and its ciphertext after |
| Crypto.OpenEnvelope | RemoteCmd.Client/Crypto.cs:34-50 | fewer than 28 bytes fail with invalid data, then a missing key fails; it succeeds exactly when the cipher opens the ciphertext at [28,..) under the nonce at [0,12) and the tag at [12,28), and yields what the cipher yields |
| Crypto.SealEnvelopeLayout | RemoteCmd.Client/Crypto.cs:16-31 | with a key, sealing succeeds and the envelope is 28 + N bytes: the nonce, then the sealed tag and ciphertext |
| Crypto.OpenShortEnvelope | RemoteCmd.Client/Crypto.cs:36 | fewer than 28 bytes fail with invalid data, before the key or the cipher is consulted |
| Crypto.OpenEnvelopeLength | RemoteCmd.Client/Crypto.cs:40-49 | an opened plaintext is 28 bytes shorter than the envelope |
| Crypto.OpenSealEnvelope | RemoteCmd.Client/Crypto.cs:16-50 | opening under the same key what was sealed gives back the plaintext |
| Crypto.DecryptEncryptString | RemoteCmd.Client/Crypto.cs:52-56 | base64 of a sealed UTF-8 string decodes, opens and decodes back to the string |
| Crypto.BlockCopy | RemoteCmd.Client/Crypto.cs:28-30 | `Buffer.BlockCopy`: the destination range receives the source range and the rest of the destination is unchanged |
| Crypto.Codec.constructor | RemoteCmd.Client/Crypto.cs:6 | before `Init` the key is null (`None`), so sealing and opening fail with "key not initialised" |
| Crypto.Codec.Init | RemoteCmd.Client/Crypto.cs:11-14 | the key becomes SHA-256 of the UTF-8 bytes of "RemoteCmd:v1:" + token, so it depends on the token alone |
| Crypto.Codec.Encrypt | RemoteCmd.Client/Crypto.cs:16-32 | without a key it fails; with one it returns an array of 28 + N bytes holding `SealEnvelope` of the data |
| Crypto.Codec.Decrypt | RemoteCmd.Client/Crypto.cs:34-50 | fewer than 28 bytes fail with invalid data; otherwise the result is `OpenEnvelope` of the data, N - 28 bytes on success |
| Crypto.Codec.EncryptString | RemoteCmd.Client/Crypto.cs:52-53 | base64 of the envelope sealed over the UTF-8 bytes |
| Crypto.Codec.DecryptString | RemoteCmd.Client/Crypto.cs:55-56 | malformed base64 fails; otherwise the UTF-8 decoding of the opened envelope or its error |
| Agent.BaseUrl | RemoteCmd.Client/Program.cs:15-17 | an argument starting with "http" loses exactly its trailing slashes; any other becomes "http://" + arg + ":7890" |
| Agent.NextRetryDelay | RemoteCmd.Client/Program.cs:95-102 | a success sets the delay to 1; a failure gives exactly the smaller of twice the delay and 30, so a delay of at least 1 grows until it reaches 30 |
| Agent.PauseMs | RemoteCmd.Client/Program.cs:96-101 | 800 ms after a success, the delay converted to whole milliseconds after a failure; within [1000, 30000] or 800 for any delay in [1, 30] |
| Agent.PausesAfter | RemoteCmd.Client/Program.cs:95-102 | one pause per cycle, each the pause for that cycle's outcome at the delay the cycles before it left |
| Agent.RetryDelayAfter | RemoteCmd.Client/Program.cs:95-102 | the retry delay after any run of cycles lies in [1, 30] |
| Agent.RunCycles | RemoteCmd.Client/Program.cs:33-103 | the loop's delay and its pauses (800 ms after success, the delay in seconds after failure) agree with `RetryDelayAfter` and `PausesAfter` |
| Agent.RetryDelayAfterFailures | RemoteCmd.Client/Program.cs:102 | k failures after a start or a success leave the delay at min(2^k, 30) |
| Agent.SuccessResets | RemoteCmd.Client/Program.cs:95 | a success resets the delay to 1 whatever came before |
| Agent.CommandStep | RemoteCmd.Client/Program.cs:40-49 | a result is posted iff a command was polled; it is the combined output with the exit code of a run that ended, the killed sentinel with -1 for one still running at 60 s, and "[EXEC ERROR] " and the message with -1 for one that threw |
| Agent.Dispatch | RemoteCmd.Client/Program.cs:53-71 | upload branch iff action "upload" with a path, download branch iff action "download" with a path, never both; the branch gets the reported path |
| Agent.ReceiveUploadBranch | RemoteCmd.Client/Program.cs:53-70 | the branch fetches, then acknowledges: three calls, the third a second acknowledgement, exactly when fetch and write completed and the first acknowledgement threw, otherwise exactly two; an exception escapes exactly when the retry acknowledgement threw after something else had, and it is that one |
| Agent.UploadAlwaysAcknowledged | RemoteCmd.Client/Program.cs:53-70 | the upload is acknowledged whether fetching and writing completed or threw; an exception escapes only if an acknowledgement failed |
| Agent.SendDownloadBranch | RemoteCmd.Client/Program.cs:71-93 | a read file's first report carries exactly its bytes; two reports exactly when the first report of a missing or read file threw, the second carrying that exception's message; an exception escapes exactly when the handler's report threw after a failed read or a failed first report, and it is that one |
| Agent.DownloadReports | RemoteCmd.Client/Program.cs:71-93 | every call is a report with exactly one of error and data; data exactly for a read file, and then its bytes in the first report; a missing file reports "File not found: " + path, a failed read its message |
| Agent.PowerShellArguments | RemoteCmd.Client/Program.cs:114 | the arguments start with "-NoProfile -NonInteractive -Command" and a quote, end with a quote, and are 38 characters longer than the escaped command |
| Text.EscapeQuotes | RemoteCmd.Client/Program.cs:114 | escaping is no shorter than the command and at most twice as long, never starts with a bare quote, and leaves a command without quotes as it is |
| Agent.PowerShellArgumentsQuoted | RemoteCmd.Client/Program.cs:114 | the argument string starts with the fixed prefix and a quote, ends in a quote, and its middle reads back as the command |
| Text.UnescapeEscapeQuotes | RemoteCmd.Client/Program.cs:114 | escaping the quotes loses nothing: unescaping gives the original command |
| Text.EscapedQuotesFollowBackslash | RemoteCmd.Client/Program.cs:114 | every quote in the escaped command follows a backslash |
| Text.IsWhiteSpace | RemoteCmd.Client/Program.cs:135-138 | on ASCII, white space is exactly the space and the controls from tab to carriage return |
| Agent.CombineOutput | RemoteCmd.Client/Program.cs:134-138 | the combined output never ends in white space |
| Agent.CombineOutputBlankStderr | RemoteCmd.Client/Program.cs:134-138 | with blank stderr the output is stdout with trailing white space trimmed |
| Agent.CombineOutputWithStderr | RemoteCmd.Client/Program.cs:134-138 | otherwise it is all of stdout, "\n[STDERR]\n", and stderr with trailing white space trimmed |
| Text.TrimEnd | RemoteCmd.Client/Program.cs:138 | the result is a prefix, ends in a kept character or is empty, and every removed character is one to trim |
| Text.TrimEndAppend | RemoteCmd.Client/Program.cs:134-138 | trimming a + b touches only b when b holds a kept character |
| Agent.ExecuteCommand | RemoteCmd.Client/Program.cs:106-144 | a run past 60 s gives ("[KILLED] Command exceeded 60s timeout", -1), an exception ("[EXEC ERROR] " + message, -1), an exit its exit code and `CombineOutput` of its stdout and stderr |

## Left out

- **Hosting.** Kestrel setup, JSON (de)serialisation, request-body streaming
  and the 200 MB body limit are not modelled. Requests arrive as `Endpoint`
  values with their fields already parsed. A `None` body stands for a JSON
  `null` body, which deserialises to null.
- **Parse failures.** A malformed or non-JSON body makes `ReadFromJsonAsync`
  throw at Program.cs:70 and 78. The server then answers 500 and changes
  nothing. Such requests are not modelled.
- Relay.Relay.Handle: the gate models the culture-aware
  `path.StartsWith("/api/")` as an ordinal, case-sensitive prefix test. The
  router's case-insensitive match folds only ASCII letters. Three routing
  cases are not modelled: paths that match no route (404), a wrong HTTP
  method (405), and a trailing slash the router tolerates.
- Relay.Relay.ExecBegin: the timer limit is `Timer.MaxSupportedTimeout` of
  current .NET, 4,294,967,294 ms. Older runtimes had a lower limit.
- **No parse defaults.** A `CommandRequest` with no `timeoutSeconds` gets 30
  from the record's default during parsing. The model takes the parsed value,
  which yields the same effective timeout.
- **Concurrency and timers.**
  - Threads and interleavings inside a handler are not modelled.
  - The 2 s wait in `SemaphoreSlim.WaitAsync` is not modelled. A lock held at the moment exec begins gives "[ERROR] Another command is pending", as if the wait had run out.
  - The `CancellationTokenSource` timers and the agent's `Task.Delay` are events the caller chooses: the timeout methods, and the pauses in `RunCycles`.
- **Floating-point time.** `TotalSeconds` is a double. The model uses integer
  ticks, with truncation toward zero for the `(int)` cast in status.
- Relay.Relay.Status: the relay reads `DateTime.UtcNow` separately for
  connectivity and for seconds-ago. The model uses one `now` for both.
- **Token generation.** A token made from a `Guid` is not modelled. The token
  is a constructor argument.
- **Console output.** The console output of both programs is not modelled.
- **Cryptographic primitives.** AES-GCM, SHA-256, `RandomNumberGenerator`,
  base64 and UTF-8 are function values constrained only by the laws in
  `Lawful`. The nonce is a parameter.
- **No integrity property.** "A flipped tag or ciphertext bit makes `Decrypt`
  fail" holds only for the real AEAD, so it is not stated. The model proves
  only that a failed open yields `TagMismatch` and no plaintext.
- **Agent I/O.** Process spawning, file reads and writes, directory creation
  and HTTP calls are outcomes passed in as parameters: `ProcessRun`,
  `LocalFile` and `Attempt`.
  - The agent's loop is modelled by its backoff bookkeeping (`RunCycles`), its command step (`CommandStep`) and its two transfer branches. It is not one method that performs the calls.
  - `File.Exists` throwing is not a separate outcome.
- **No query escaping.** The download error travels to `/api/file-upload` as
  a query value that the code does not escape. The model passes the string
  through unchanged, so a message containing `&` or `#` would in reality be
  cut short.
- **Windows argv parsing.** powershell.exe parses a backslash before a quote
  specially, and that parsing is not modelled. The escaping is proved
  reversible only as text.
- **.NET string details.**
  - Agent.BaseUrl: `StartsWith("http")` is culture-sensitive in .NET. It is modelled as an ordinal prefix test.
  - Text.FileName: on Windows, `Path.GetFileName` also splits after the volume separator `:` of a path root, so `C:foo` gives `foo`. A colon later in the path does not split: `C:\a:b` gives `a:b`. The model splits only at the host's directory separators, which are a set given to the relay.
  - A character here is a Unicode scalar value, so a lone UTF-16 surrogate cannot be represented. In .NET the UTF-8 round trip in `Lawful` fails for a string holding a lone surrogate. The law is sound only for the strings the model can represent.
- **The MCP server.** mcp-server/index.mjs only forwards tool calls to the
  relay over HTTP, so it is not part of this model.

## Findings

| source | as written | input that shows it | evidently intended | confidence | as-written member | corrected member |
|---|---|---|---|---|---|---|
| RemoteCmd.Server/Program.cs:40 | the middleware checks the token only when `path.StartsWith("/api/")` holds, a case-sensitive test, while the router matches route templates ignoring case | `POST /API/exec` with a command and no token: the request is routed to the exec handler and the command is made pending | every request routed to an `/api/` endpoint, whatever the case of its path, needs the configured token | not executed | Relay.UppercasePathSkipsGate | Relay.AnyCaseGateGuardsApi |

`Relay.Relay.Handle` keeps the gate as written, and `Scenarios.UppercaseExecWithoutToken` drives the bypass through it. `Relay.Relay.HandleWithAnyCaseGate` uses the corrected gate, and `Scenarios.UppercaseExecRefused` shows the same request refused.
