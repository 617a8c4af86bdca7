# bfd-gobgp-connector, modelled in Dafny

The connector bridges two routing daemons. It connects to a BFD daemon,
lists its peers, connects to a GoBGP daemon and opens one monitoring stream
per configured peer. Each BFD session state change it receives becomes a
DisablePeer call (ADMIN_DOWN, DOWN), an EnablePeer call (UP) or a log line
(anything else) on the GoBGP side. A small logging package writes every log
line to a file named for the current day and switches files after midnight.

The project models both parts.

- `outcome.dfy` (module `Outcome`): `Option`, `Result` and `Status`, which
  stand in for Go's `(value, error)` returns.
- `decimal.dfy` (module `Decimal`): how Go's `%d` prints an integer. A
  parse-back function proves that different natural numbers print
  differently, and the sign extends this to all integers.
- `logging.dfy` (module `Logging`): `logging/log.go`.
  - The pure helpers: the level table, `filepath.Ext`, `callerFileInfo`,
    `linePrefix`, `filename`, `nextRotationTime` and the newline rule.
  - Pure step functions (`OpenFileStep`, `RotateStep`, `WriteOutStep`,
    `PrepareStep`, `OutputStep`) over a `LoggerState` value.
  - The `Logger` class, whose fields change in place. Each method is proved
    equal to its step function.
  - Lemmas about the steps: when a file is opened, what a failure leaves
    behind, what a successful call appends, and that a rotation never
    reuses an earlier day's file.
- `service.dfy` (module `Service`): `service.go`.
  - The state-to-action mapping.
  - The `listPeers` loop and the `serviceEvents` read loop, each proved
    against a function of the stream.
  - The dial-option choice of `newGrpcConnection`.
  - `Start`, as a function `StartRun` and as methods of the
    `InterconnectService` class. The class holds the GoBGP client, the
    WaitGroup counter, the journal of log and GoBGP calls, and the deferred
    calls that have run.

Inputs from the environment are parameters:

- A gRPC dial is a `Result` (a connection or an error). Loading a
  certificate file and each `MonitorPeer` call are a `Status`.
- A server stream is the sequence of what its `Recv` calls return:
  `Item`, `Eof` or `RecvError`. A sequence that runs out before an `Eof` or
  an error stands for a stream that is still open, so the next `Recv`
  blocks.
- The iteration order of the `Peers` map in `Start` is a parameter `order`.
  It holds each configured name once, in any order.
- In the logger, the clock, the process id, the caller's frame, the
  rendering of `fmt.Sprintf` and the answer of `os.OpenFile` are parameters.
  The clock is one `now` per `output` call.

A log call in `service.go` is recorded as an `Effect.Log` with its level,
format and operands. A GoBGP request is recorded as an `Effect.Call`. Its
reply is ignored, as the source ignores it.

Three behaviours of the code are worth noting:

- A failed DisablePeer or EnablePeer call is not logged. Its result is
  discarded (service.go:148, 154).
- A failed `MonitorPeer` request does not end the service (service.go:78-82).
  `Start` returns into its deferred `wg.Wait()`. Say the call for the
  (k+1)-th of n peers fails, after k monitors started. The counter is then
  n - 1, and the k monitors can lower it to n - 1 - k at the least. So when
  k < n - 1 the wait blocks forever, even after every monitor has exited
  (`EarlyMonitorFailureWaitsForever`).
- A certificate that cannot be loaded gives an ordinary connect error, and
  `Start` logs it as "failed to dial bfdd: %v" (service.go:35). Unlike a
  dial error, it comes without a cancel function, so the deferred `cancel()`
  (service.go:32) calls nil (see Findings).

## Model

| member | source | states |
|---|---|---|
| Decimal.NatToString | logging/log.go:146-148 | `%d` of a natural number: at least one digit, all digits, one digit exactly below 10, and a leading zero only for zero itself |
| Decimal.IntToString | logging/log.go:158 | `%d` of an integer: at least one character, each a digit or '-'; a minus sign in front exactly when the number is negative, followed by the digits of its magnitude |
| Decimal.IntToStringInjective | logging/log.go:158 | different integers print differently |
| Decimal.ParseNatToString | logging/log.go:146-148 | reading the printed digits back gives the number |
| Decimal.NatToStringInjective | logging/log.go:146-148 | different numbers print differently |
| Logging.LevelName | logging/log.go:31-35 | every level has a non-empty upper-case name |
| Logging.LastIndexOf | logging/log.go:176 | the index of the last occurrence of the character, or -1 when it does not occur |
| Logging.Ext | logging/log.go:143 | the extension is a suffix of the path |
| Logging.ExtIsFinalDotSuffix | logging/log.go:143-144 | the extension runs from the last '.' when that dot lies after the last '/', and is empty otherwise |
| Logging.CallerFileInfo | logging/log.go:170-182 | ("<unknown>", 1) without caller info; otherwise the caller's line, and a file name that is the slash-free suffix of the path following its last '/' (the whole path when it has no '/') |
| Logging.LinePrefix | logging/log.go:152-159 | the prefix opens with '[' and closes with "] " |
| Logging.PrefixFields | logging/log.go:153-158 | the fields after the level end with "] " |
| Logging.PrefixFieldsReadBack | logging/log.go:153-158 | the fields read back: for a stamp without spaces, the stamp is the first word and the pid the second; the line number lies between the last ':' and the closing "] ", and the caller's file name between the pid and that ':' |
| Logging.LevelOfPrefixedLine | logging/log.go:152-159 | the level can be read back from any written line, as the word that follows the '[' |
| Logging.SprintFrom | logging/log.go:87 | after a non-string operand, a run of non-string operands prints one character longer per operand than their concatenation: the space before each |
| Logging.Sprint | logging/log.go:87 | `Fprint` of n > 0 non-string operands prints n - 1 characters longer than their concatenation: one space between each pair and none before the first |
| Logging.SprintOfStrings | logging/log.go:86-88 | without a format, and with string operands only, the body is the operands' plain concatenation |
| Logging.Body | logging/log.go:84-88 | the format is used exactly when it is non-empty; otherwise the operands are printed as `Fprint` prints them |
| Logging.BodyOfStrings | logging/log.go:84-88 | with an empty format and string operands only, the body is the operands joined with nothing between them |
| Logging.Terminated | logging/log.go:97-111 | the text written starts with the message, always ends with '\n', and is one newline longer exactly when the message did not end with one |
| Logging.TerminatedIdempotent | logging/log.go:98-109 | a terminated line gets no second newline |
| Logging.NextDay | logging/log.go:188 | the next calendar day is a valid date later than the given one |
| Logging.NextDayIsSuccessor | logging/log.go:188 | no valid date lies strictly between a date and the next one |
| Logging.NextRotationTime | logging/log.go:187-190 | the rotation time is a valid midnight strictly after now |
| Logging.NextRotationIsFirstMidnight | logging/log.go:185-190 | no midnight after now comes before the rotation time |
| Logging.LogFileName | logging/log.go:140-149 | the file name is exactly the date tag longer than the configured path |
| Logging.LogFileNameParts | logging/log.go:140-149 | the file name is the path with the date tag inserted before the extension: removing the tag gives the path back, and base + ext is the path |
| Logging.DateTagInjective | logging/log.go:146-148 | different valid dates give different "-Y-M-D" tags |
| Logging.LogFileNameInjective | logging/log.go:140-149 | for a fixed path, different days give different file names |
| Logging.OpenFileStep | logging/log.go:114-129 | a failed open leaves no file open and changes nothing else; a successful one opens today's file (keeping its earlier text) and moves the rotation time to the next midnight |
| Logging.RotateStep | logging/log.go:131-136 | rotating closes the file and then opens as `openFile` does: it reports the open's status; a failure leaves no file open and changes nothing else; a success opens today's file (created if new) and moves the rotation time to the next midnight |
| Logging.WriteOutStep | logging/log.go:97-111 | the terminated message is appended to the open file only, and to stdout exactly when enabled; the path, the open file, the rotation time and the set of files are kept; the count is the message's length |
| Logging.PrepareStep | logging/log.go:63-75 | success leaves a file open that exists in the file map; failure leaves none open and keeps the files and the rotation time |
| Logging.OutputStep | logging/log.go:59-95 | `output` keeps the logger state valid |
| Logging.OutputOpensOnlyWhenDue | logging/log.go:63-75 | with a file open and the clock not past the rotation time, nothing is opened; otherwise a successful call has opened today's file and moved the rotation time past now |
| Logging.OutputKeepsPrepared | logging/log.go:77-94 | writing the line changes neither the open file nor the rotation time, and `output` reports the status of the open |
| Logging.PrepareOpensOnlyWhenDue | logging/log.go:63-75 | the open and rotate half of `output` opens a file only when none is open or the rotation time has passed |
| Logging.OutputFailureWritesNothing | logging/log.go:63-75 | `output` fails exactly when it has to open a file and the open fails; then it returns (0, err), writes to no log file, leaves no file open and prints the error on stdout |
| Logging.AppendAfterCreate | logging/log.go:122 | opening with O_CREATE and then appending changes only the opened file |
| Logging.OutputSuccessAppendsLine | logging/log.go:77-111 | a successful call appends the terminated line to the open file and to no other file, copies the same text to stdout when enabled, and returns the line's length |
| Logging.RotationStartsNewFile | logging/log.go:70-75 | a rotation after midnight never appends to the file named for an earlier day |
| Logging.Logger.constructor | logging/log.go:45-49 | the global logger after `init`: path "proxy.log", no file open, zero rotation time |
| Logging.Logger.SetLogfileName | logging/log.go:51-53 | only the path changes |
| Logging.Logger.SetLogToStdout | logging/log.go:55-57 | only the stdout flag changes |
| Logging.Logger.OpenFile | logging/log.go:114-129 | the new fields are those of `OpenFileStep` |
| Logging.Logger.RotateFiles | logging/log.go:131-136 | the file is closed and then opened as by `OpenFileStep` |
| Logging.Logger.WriteOut | logging/log.go:97-111 | the terminated message is appended to the open file, and to stdout when enabled; the count is the message's length |
| Logging.Logger.Output | logging/log.go:59-95 | the new fields and the results are those of `OutputStep` |
| Service.StateName | service.go:160 | a named state prints as one of "ADMIN_DOWN", "DOWN", "INIT" and "UP", all upper-case; an unrecognised value prints as its number, which is never one of those names |
| Service.StateNameInjective | service.go:108 | different states print differently, so a log line names the state it saw |
| Service.Calls | service.go:148-156 | the GoBGP calls among a run of effects, in order |
| Service.HandleStateChange | service.go:141-161 | DisablePeer exactly for ADMIN_DOWN and DOWN, with the reason "disabled by bfd"; EnablePeer exactly for UP; both at the configured address; any other state logs an Info line naming the state and the peer |
| Service.FirstStop | service.go:124-130 | every response before the index is an item, and the entry at the index (if any) is an EOF or an error |
| Service.Received | service.go:124-133 | one value per response before the stream stops |
| Service.ReceivedIgnoresRest | service.go:124-130 | what follows the first EOF or error is never read |
| Service.Directory | service.go:117-132 | the map's keys are exactly the names of the items stored |
| Service.DirectoryLastWriteWins | service.go:132 | each name holds the uuid of its last item |
| Service.ListOutcome | service.go:116-136 | the listing blocks exactly when the call succeeded and the stream never ends; a listing is produced only after an EOF |
| Service.ListPeers | service.go:116-136 | the loop returns what `ListOutcome` states for the call's answer and the stream |
| Service.ListedIsLastWriteWins | service.go:124-135 | a listing exists only after an EOF; its keys are the names received before it, each holding the uuid of its last response |
| Service.ListErrorsGiveNoMap | service.go:119-129 | a failed call or any error on the stream gives that error and no map; a stream with no EOF or error gives no answer |
| Service.ListIgnoresRest | service.go:124-130 | the listing does not depend on anything after the first EOF or error |
| Service.Reactions | service.go:107-109 | two effects per state change |
| Service.ReactionsAt | service.go:107-109 | the i-th state change gives the "changed to" log line at 2i and its handling at 2i+1 |
| Service.MonitorRun | service.go:98-110 | two effects per state received before the stream stops, plus one when it stops on an error |
| Service.MonitorRunHandlesEachResponse | service.go:98-110 | `serviceEvents` handles each response once, in stream order, and stops at the first EOF or error; an error is logged last |
| Service.MonitorIgnoresRest | service.go:98-105 | nothing after the first EOF or error is processed |
| Service.CallsOfReactions | service.go:107-109 | the log lines add no GoBGP call: the calls are exactly those of the state changes |
| Service.MonitorCalls | service.go:98-110 | the GoBGP calls of a monitoring run are those of its received states, in order |
| Service.ActionsFlap | service.go:144-156 | the states up, down, up give the calls enable, disable, enable |
| Service.FlappingPeer | service.go:98-110 | a peer that goes up, down and up is enabled, disabled and enabled at its configured address, whatever the stream holds after its EOF |
| Service.ReadMonitorStream | service.go:98-110 | the read loop produces exactly `MonitorRun`'s effects and is left exactly when the stream ends |
| Service.NewGrpcConnection | service.go:164-194 | building the option list by appending gives `Connect`'s result, and the certificate path is logged exactly when a file is loaded |
| Service.Connect | service.go:164-194 | a cancel function is returned exactly unless a certificate file was to be loaded and loading failed; the connection is made exactly when there is a cancel function and the dial succeeded |
| Service.DialOptionChoice | service.go:165-188 | every dial carries `WithBlock` first and one credentials option: insecure exactly when TLS is off, the system trust store exactly for TLS without a certificate file, that file's credentials exactly when one is named |
| Service.ConnectFailures | service.go:176-191 | a certificate failure happens exactly when a file is loaded and loading fails, and comes without a cancel function; a dial failure happens exactly on a failed dial otherwise, and comes with one |
| Service.CertOutcomeIrrelevantWithoutFile | service.go:167-176 | without a certificate file the load outcome plays no part |
| Service.CancelAsWritten | service.go:32 | `cancel()` as written panics exactly when no cancel function was returned |
| Service.Cancel | service.go:32 | the guarded `cancel()` never panics, and cancels exactly when there is a cancel function |
| Service.CancelAgreesWhenPresent | service.go:176-193 | the two agree exactly when `newGrpcConnection` returned a cancel function |
| Service.CertFailurePanicsAsWritten | service.go:176-179 | after a failed certificate load, `cancel()` as written calls nil |
| Service.RequestsFor | service.go:69-77 | one monitor request per name, carrying the listed uuid, or the empty uuid for an unlisted name |
| Service.FirstFailure | service.go:72-82 | every MonitorPeer call before the index succeeded, and the one at the index (if any) failed |
| Service.OpenMonitors | service.go:69-85 | the loop stops at the first failed MonitorPeer call, having started one monitor per earlier name |
| Service.StartRun | service.go:30-86 | `Start` stops at the BFD dial exactly when that connect fails; with the guarded `cancel()` no deferred call calls nil |
| Service.AfterBfdDial | service.go:40-86 | after a successful BFD connect, `Start` waits forever on the listing exactly when `listPeers` blocks, and stops at the listing exactly when it fails; no deferred call calls nil |
| Service.AfterListing | service.go:47-86 | after the listing, `Start` stops at the GoBGP dial exactly when that connect fails, and otherwise reaches the monitor loop; no deferred call calls nil |
| Service.MonitorLoop | service.go:65-85 | the client is set; one monitor per name before the first failed MonitorPeer call; the loop ends either monitoring or failed at that call; the counter is at least the number of monitors; `Start` waits exactly while the counter is non-zero; no deferred call calls nil |
| Service.BfdDialFailureStopsStart | service.go:31-37 | a failed BFD connect stops `Start` before the listing: nothing later matters, no client is set, and only the BFD cancel is deferred |
| Service.ListFailureStopsStart | service.go:41-45 | a failed listing stops `Start` before the GoBGP dial and logs the error last |
| Service.BgpDialFailureStopsStart | service.go:47-54 | a failed GoBGP connect stops `Start` before any monitor; its cancel runs twice, then the BFD connection is closed and cancelled |
| Service.MonitorsFollowDirectory | service.go:69-85 | once both dials succeed, the i-th monitor asks for the listed uuid of the i-th name; the first failure stops the loop, and the answers after it do not matter |
| Service.StartCounter | service.go:65-84 | the WaitGroup counter is every peer when every monitor started and one fewer after a failure; `Start` waits while it is non-zero and otherwise runs the teardown |
| Service.EarlyMonitorFailureWaitsForever | service.go:65-82 | after the k-th MonitorPeer call fails, the counter exceeds the goroutines left to decrement it exactly when k is below the peer count minus one |
| Service.ClientSetOnlyAfterBothDials | service.go:57 | the GoBGP client is set exactly when `Start` reaches the monitor loop |
| Service.StartBfdCertFailure | service.go:31-36 | a BFD certificate that cannot be loaded stops `Start` before any dial, and as written its deferred `cancel()` calls nil |
| Service.InterconnectService.constructor | service.go:23-28 | a new service with no client and nothing started |
| Service.InterconnectService.Wait | service.go:67 | blocks while the counter is non-zero; otherwise the teardown runs; nothing else changes |
| Service.InterconnectService.Start | service.go:30-86 | the fields hold what `StartRun` states, and the counter covers the running monitors |
| Service.InterconnectService.ListAndMonitor | service.go:40-45 | the fields hold what `AfterBfdDial` states |
| Service.InterconnectService.DialAndMonitor | service.go:47-57 | the fields hold what `AfterListing` states |
| Service.InterconnectService.MonitorPeers | service.go:65-85 | the fields hold what `MonitorLoop` states |
| Service.InterconnectService.Done | service.go:96 | one goroutine fewer and the counter one lower; the last one lets a waiting `Start` run the teardown |
| Service.InterconnectService.ServiceEvents | service.go:91-111 | the journal grows by `MonitorRun`, and the counter drops by one exactly when the stream ended |

## Left out

- gRPC itself is not modelled: dialing, TLS handshakes, loading credential files, and the stubs of the two APIs. Each call is an outcome parameter.
- Goroutines, interleavings, the WaitGroup's blocking and the logger's mutex are not modelled. The counter arithmetic is; a blocked `wg.Wait()` is a `waiting` flag, and a goroutine is a `ServiceEvents` call on the service.
- The 1-second dial timeout is recorded in the dial request; timing itself is not modelled.
- A nil `response.Local` in `serviceEvents` (service.go:107-108) is not modelled; each response carries a state.
- A nil `response.Peer` in `listPeers` (service.go:132) is not modelled: reading `response.Peer.Name` would panic there. Each listed item carries a name.
- `SessionState` numbering belongs to the BFD API. An unrecognised value keeps its number and prints as that number.
- `fmt`'s verbs are not modelled. `Sprintf` is a parameter; `%+v` and `%v` of an error are both the error's text; a log effect records the format and operands, not the rendered text.
- The `Info`, `Warn` and `Error` front-ends (logging/log.go:192-214) are not modelled separately. Each passes its level, format and operands to `Output`.
- `time.Now`, `os.Getpid` and `runtime.Caller` are parameters. The clock is read once per `output` call. Time zones and daylight saving time are not modelled; a day is a Gregorian civil date.
- The file system is reduced to the text this logger appended to each file name. `os.Stat` and `Mkdir` are not modelled.
- Logging.WriteOutStep: a write to the file is assumed to succeed, and the count is the message's length in characters, not in bytes.
- Logging.LinePrefix: the contract states only the bracketing and, through `LevelOfPrefixedLine`, that the level reads back. The fields in between are stated by `PrefixFields`.
- Logging.PrefixFields: the time stamp is a parameter, because `time.Now().Format("0102-15:04:05")` is not modelled; the contract states only the closing "] ". How each field is read back, for a stamp without spaces, is stated by `PrefixFieldsReadBack`.
- `strings.Builder.WriteString` never fails, so its error branch (logging/log.go:78-82) is not modelled.
- A listing stream that never ends leaves `Start` in stage `PeersUnlisted`, which stands for a `Recv` that blocks forever.
- Logging.SprintFrom, Logging.Sprint: the contracts state `Fprint`'s spacing by length only: which characters are spaces is given by the definition. With string operands the exact text is stated by `SprintOfStrings`.
- Service.Calls: its contract states only that it picks calls from the effects. Which calls a run makes is stated by `CallsOfReactions` and `MonitorCalls`.
- config.go and main.go are not part of this model; the configuration is a `Config` value.

## Findings

| source | as written | input that shows it | evidently intended | confidence | as-written member | corrected member |
|---|---|---|---|---|---|---|
| service.go:32 | `Start` defers `cancel()` for whatever `newGrpcConnection` returned (also lines 48 and 52), but a certificate that cannot be loaded returns a nil cancel function (service.go:176-179), so the deferred call panics | a BFD server with TLS enabled and a certificate file that fails to load (`CertFailurePanicsAsWritten`, `StartBfdCertFailure`) | call `cancel` only when one was returned, so that the failure is logged and `Start` returns; `StartRun` uses the guarded call | not executed | Service.CancelAsWritten | Service.Cancel |
