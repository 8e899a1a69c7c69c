# Verified cores of the gateway

This project models the parts of the gateway that carry state over many steps, and proves what they
promise over every input, every cut of a stream and every run. Each module follows one source file.

| file | what it is about |
|---|---|
| `Text.dfy`, `JsonText.dfy` | the pieces of Go's `strings`, `strconv` and JSON string printer that the others use, and what a byte search finds in printed JSON |
| `ThinkSplitter.dfy`, `ControlTool.dfy`, `ToolStream.dfy`, `ClineStream.dfy` | separating `<think>` text from answer text, and repairing one broken native call, while a stream arrives in pieces |
| `ToolsLinks.dfy` | rewriting links in a response while it is being written |
| `OpenAIChunk.dfy`, `OpenAISse.dfy`, `OpenAIFrames.dfy` | the fast path that splices stream chunks against the slow path that decodes and prints them |
| `BillingEvent.dfy`, `BillingOutbox.dfy` | the write-ahead billing ledger beside its store, with process exits, power losses, lost answers and repeated requests |
| `CliOAuth.dfy`, `RefreshSchedule.dfy` | rotating refresh tokens, and the backoff of failed refreshes |
| `Journal.dfy` | paging backwards through an append-only ledger, with joined rows |
| `FunctionSchema.dfy` | a rewrite of JSON schemas that keeps their meaning |
| `AuditQueue.dfy` | a bounded queue between many callers and one writer, over all interleavings |
| `Alerting.dfy`, `AccountEvents.dfy`, `AccountPolicy.dfy` | alert hysteresis, change coalescing, account cooldowns |
| `StatusCode.dfy`, `CapWait.dfy` | two small parsers |

Code that updates state in the source is a class or a method with loops here. Its contract equates the
new state with a function of the old one, and the lemmas about that function say what it is good for.
`dafny verify dfyconfig.toml` covers the whole project.

## What the other parties are taken to do

- **The settlement script** (`BillingOutbox`) runs in one piece. A receipt lives until seven days after
  the event's creation by the clock of Redis; later settlements are refused by that same clock, which is
  taken never to be set back. Requests may be delayed, repeated and delivered after their sender is gone.
- **The file system** (`BillingOutbox`): directory entries become durable with a directory sync; until
  then a power loss may keep or undo each rename or unlink. A process that ends takes nothing of them
  with it and syncs nothing either.
- **The account lease** (`CliOAuth`) makes calls for one account follow each other. A store update is a
  compare-and-set on the refresh token and either happens or not, whatever the caller is told. Logins
  and the token endpoint never issue a refresh token twice, and a login writes trimmed tokens, as
  `internal/grok/admin.go:211-224` does. An answer without an access token is not a rotation. The two
  lemmas about untrimmed tokens do without that last assumption.
- **The ledger** (`Journal`) is only appended to, and its ids increase.
- **SHA-256** of an outbox name is injective, so the name itself is used. Times are integers, rates are
  real numbers. I/O, clocks and the choices of the scheduler are parameters.

## Where the code does less than it says

Each of these is a lemma that states exactly when the promise holds.

- A tools link directly followed by the rest of a link **of the same kind** is rewritten or not depending
  on how the response is cut into writes (`ToolsLinks.CutIsInvisibleIffNotChained`, and
  `ToolsLinks.SharedSlashIsSeen` for two links that share a slash). Links of different kinds may overlap
  freely.
- The fast stream path differs from the slow one for a message id with `<`, `>` or `&` that needs no other
  escape, for a stop reason with white space around it, for a negative index on text, and on the gateway's
  own frames for an empty tool id, which the encoder leaves out (`OpenAISse.FastIsSlowExactly`,
  `OpenAIFrames.FrameFastIsSlowExactly`; inputs in `OpenAISse.AngleBracketDiffers`,
  `OpenAISse.NegativeIndexDiffers`, `OpenAISse.SpaceDiffers` and `OpenAIFrames.EmptyToolIdDiffers`).
- A refresh token that stands in its row with white space around it is sent again after it has been
  replaced: the compare-and-set then compares trimmed with untrimmed text and the pending rotation is
  taken for overtaken (`CliOAuth.SecondRefreshReusesIffUntrimmed`). A forced refresh of an account whose
  access token stands there that way returns the rejected token
  (`CliOAuth.ForcedRefreshIsSkippedIffUntrimmed`). The gateway's own writes trim
  (`internal/grok/admin.go:211-224`, `internal/store/credential_patch.go:26-30`), so this concerns rows
  that were put into the store by other means, for example by hand.
- The schema that asks nothing is cloned to nil and printed as `null`
  (`FunctionSchema.NormalizedKeepsMeaning`).
- `New` loads an entry whose rename was never synced, without syncing it, and `queue` then answers nil for
  it because it is pending (`internal/billingledger/outbox.go:38-62`, `outbox.go:90-95`). Until some other
  entry's sync covers it a power loss takes the accepted intent away, uncharged
  (`BillingOutbox.UnsyncedEntryIsLost`). Accepted and pending entries are safe in every other case and in
  no such case (`BillingOutbox.AcceptedIsSafeExactly`, `BillingOutbox.PendingIsSafeExactly`).
- `queue` writes an invalid entry like any other, and no process starts again after one has ended with such
  an entry on disk (`BillingOutbox.InvalidEntryBlocksRestart`).
- Text that overruns the recovery buffer while a broken call is remembered is dropped, also when that call
  is completed afterwards (`ClineStream.OverrunIsLost`).

## Model

| member | source | states |
|---|---|---|
| `ThinkSplitter.SegmentsRejoin` | internal/cline/stream.go:93-101 | The reference split loses nothing: its segments, put back together with the tags between them, are the input. |
| `ThinkSplitter.SegmentsAreUnique` | internal/cline/stream.go:93-101 | Any list of segments that rejoins to the input and in which no segment runs into an earlier tag is the reference split. |
| `ThinkSplitter.Cut` | internal/cline/stream.go:103-133 | Splitting two pieces one after the other, the second behind what the first held back, decides the same bytes as splitting them in one. |
| `ThinkSplitter.FinishedIsSegments` | internal/cline/stream.go:103-133 | What has been decided plus the final flush is the labelled text of the one-shot split. |
| `ThinkSplitter.Splitter.Feed` | internal/cline/stream.go:103-133 | The loop emits exactly the decided bytes, in order, holds less than one tag and never more than 7 bytes, and the final call holds nothing. |
| `ThinkSplitter.Splitter.Turn` | internal/cline/stream.go:103-133 | One turn either emits up to the next tag and switches, or emits all that is safe and stops. |
| `ThinkSplitter.Keep` | internal/cline/stream.go:118-128 | The search keeps the longest suffix that could begin the tag. |
| `ControlTool.ParsesExactlyPrintedCalls` | internal/cline/control_tool_recovery.go:79-125 | The fallback accepts a text if and only if it is the printed copy of four well-formed parameters with distinct names, in any order, and then returns their values. |
| `ControlTool.RenderedParses` | internal/cline/control_tool_recovery.go:87-119 | Parsing printed parameters gives them back. |
| `ControlTool.ParsedIsRendered` | internal/cline/control_tool_recovery.go:87-119 | Every text the loop accepts is the print of well-formed parameters. |
| `ControlTool.ArgumentsReadBack` | internal/cline/control_tool_recovery.go:121-125 | In the arguments that are returned, the search for each key meets the number the copy gave under that name and nothing else. |
| `ControlTool.CharsReadBack` | internal/cline/control_tool_recovery.go:121-125 | And under `chars` the escaped ETX byte. |
| `ControlTool.ParseControlToolFallback` | internal/cline/control_tool_recovery.go:79-125 | The parser that consumes its text in a loop computes that result. |
| `ClineStream.ControlToolRecovery.Observe` | internal/cline/control_tool_recovery.go:25-34 | Only a call with an id, the name `write_stdin` and the broken shape is remembered, only one, only before the calls are resolved, and a second one makes the recovery ambiguous. |
| `ClineStream.ControlToolRecovery.Capture` | internal/cline/control_tool_recovery.go:36-58 | The builder and the flags change as the function of the buffer says that the next row is about. |
| `ClineStream.CapturedKeeps` | internal/cline/control_tool_recovery.go:36-58 | What was given is what was lost, passed on and held, in that order. Until the calls are resolved all of the text is held or none; it is held exactly while it may be the copy of a call, within 16 KiB, and lost only on an overflow beside a remembered call. |
| `ClineStream.OverrunIsLost` | internal/cline/control_tool_recovery.go:47-55 | On such an overflow everything given so far is lost, whatever becomes of the call. |
| `ClineStream.HeldOrPassed` | internal/cline/control_tool_recovery.go:36-58 | Until the calls are resolved, of all the text given either nothing was passed on, exactly while it may be the copy of a call and has no more than 16 KiB, or all of it, but for what an overrun beside a remembered call dropped. |
| `ClineStream.ControlToolRecovery.Resolve` | internal/cline/control_tool_recovery.go:60-77 | Held text is passed on exactly when no broken call waits for it; a repair takes the parsed copy, anything unclear is an error that leaves the call alone. |
| `ClineStream.Consumer.OnEvent` | internal/cline/stream.go:151-283 | One event takes consumer, recovery and accumulator from where the events so far put them to where this event puts them: text, reasoning of both kinds in order, calls that were sent, and what is held; or refuses at a finish reason for a broken call that cannot be repaired. |
| `ClineStream.Consumer.EmitTools` | internal/cline/stream.go:172-184 | What was held is passed on or dropped first, then each call is sent that has a name and was not sent, in the order of their start; if the calls cannot be resolved, nothing is sent. |
| `ClineStream.Consumer.Consume` | internal/cline/stream.go:137-297 | For every sequence of deltas, reasoning fields, call fragments and finish reasons: truncation is reported exactly without a finish; the attempt is refused exactly if a call that some fragment broke is still broken when the calls are resolved and the text told apart by then may be its copy, but is none, is too long, or a second call is broken. On every outcome the client has all reasoning up to where the stream ended, fields and embedded, in order of arrival, and text and reasoning in order of arrival but that the text of a beginning may come late, in one piece, or be dropped. A complete stream gives the text of the whole content's segments, less exactly the copy that repaired the call, and every call with a name once. A stream that is cut off or refused gives no calls, and all the text told apart or, while that may be a copy within 16 KiB, none. If the call is whole again but the text overran the buffer, a beginning of the text may be missing, and nothing else. |
| `ClineStream.ThoughtsAreAll` | internal/cline/stream.go:247-276 | The reasoning of a stream, in order of arrival, holds the text of every reasoning field and everything the splitter decided to be reasoning, and nothing else. |
| `ClineStream.ThoughtsKeepTheirOrder` | internal/cline/stream.go:247-276 | What has arrived is a beginning of what arrives, so these two leave one order only. |
| `ClineStream.ArrivedIsAll` | internal/cline/stream.go:247-276 | The joint order of arrival holds exactly that reasoning and exactly the text that is decided. |
| `ClineStream.NamedCallsAreSentOnce` | internal/cline/stream.go:172-184 | However often and wherever the stream finishes, every call that has a name at its end was sent once, as it is then, and no other. |
| `ClineStream.UnrepairedCallsAreTheRuns` | internal/cline/stream.go:258-283 | Unless a call is repaired, the calls that are sent are those of the accumulator that takes the fragments and delivers at every finish reason and at the end. |
| `ClineStream.UnbrokenPasses` | internal/cline/control_tool_recovery.go:25-77 | With tools disabled, or if no fragment before the first finish reason leaves a named call broken, all text passes. |
| `ClineStream.WatchesIffBroken` | internal/cline/control_tool_recovery.go:25-34 | A call is waited for if and only if some fragment left one with an id and the name `write_stdin` in the broken shape. |
| `ClineStream.FirstBrokenIsWatched` | internal/cline/control_tool_recovery.go:25-34 | The call that is waited for is the first one that some fragment broke, and it is ambiguous if and only if some fragment broke another one. |
| `ClineStream.SummaryIs` | internal/cline/stream.go:258-283 | The calls are resolved on what came before the first finish reason, or at the end on everything, and nothing that follows changes on what. |
| `ToolStream.DeliveredStays` | internal/util/toolstream.go:69-91 | A fragment changes one call, never one that was delivered, whatever ids and indexes are used again. |
| `ToolStream.ArgumentsAreFragments` | internal/util/toolstream.go:69-91 | Over every run of fragments and deliveries, the arguments of a call are its fragments, one behind the other in order of arrival. |
| `ToolStream.EachIsDeliveredOnce` | internal/util/toolstream.go:69-105 | Over every such run each call is delivered once, as it is from then on, and after a delivery every call with a name has been. |
| `ToolStream.ToolCallAccumulator.Add` | internal/util/toolstream.go:69-91 | The fragment continues the call at its index exactly if that was not delivered and their ids do not differ, and starts another one else; its arguments are appended, id and name replaced where it states them, and all other call objects stay as they are. |
| `ToolStream.ToolCallAccumulator.CompleteAll` | internal/util/toolstream.go:95-105 | Exactly the named calls that were not handed out are, in order of their start, and are marked. |
| `ToolsLinks.OneCallIsIdeal` | cmd/server/grok_tools_rewrite.go:57-66 | The two `ReplaceAll` passes redirect every link if and only if no link is chained to one of the same kind. |
| `ToolsLinks.HoldOfIdeal` | cmd/server/grok_tools_rewrite.go:67-79 | The suffix held after rewriting is the suffix the raw text would hold, so the held bytes were never rewritten. |
| `ToolsLinks.IdealIsSentAndHold` | cmd/server/grok_tools_rewrite.go:57-82 | The rewritten text is what has been sent and what is held. |
| `ToolsLinks.Cut` | cmd/server/grok_tools_rewrite.go:57-82 | Bytes that follow only meet the held suffix of what went before. |
| `ToolsLinks.WritesAreIdeal` | cmd/server/grok_tools_rewrite.go:57-82 | Any sequence of writes of an unchained text sends and holds exactly its rewriting. |
| `ToolsLinks.ResponseIsIdeal` | cmd/server/grok_tools_rewrite.go:31-37 | Sent bytes plus the final pending bytes are the one-shot rewriting, for every cut of an unchained response. |
| `ToolsLinks.CutIsInvisibleIffNotChained` | cmd/server/grok_tools_rewrite.go:57-89 | All cuts of a response give the one-shot result if and only if no link in it is chained to one of its own kind. |
| `ToolsLinks.SharedSlashIsSeen` | cmd/server/grok_tools_rewrite.go:57-89 | Two links of one kind that share a slash are a response whose cut is seen. |
| `ToolsLinks.ToolsLinkWriter.Write` | cmd/server/grok_tools_rewrite.go:57-82 | One write is one step of that machine when the response is rewritten and passes bytes through otherwise; a failing writer loses only what was to be sent. |
| `ToolsLinks.ToolsLinkWriter.Serve` | cmd/server/grok_tools_rewrite.go:31-37 | If some four consecutive characters of the content type are `json` or its first five `text/`, in any case, a handler's writes and the flush at its end give the client the rewriting of their concatenation; otherwise they pass unchanged. |
| `ToolsLinks.LowerIsTextual` | cmd/server/grok_tools_rewrite.go:44-45 | Searching the lower-cased content type decides exactly that. |
| `ToolsLinks.LongestHold` | cmd/server/grok_tools_rewrite.go:67-76 | The nested search finds the longest suffix that could become either link; it is shorter than 16 bytes. |
| `JsonText.EscapedIsInjective` | internal/handler/sse_frame.go:128-202 | No two strings are printed alike. |
| `JsonText.LiteralIsQuote` | internal/adapter/openai_sse.go:211-246 | Scanning a printed string from its opening quote ends at its closing quote, whatever it contains. |
| `JsonText.ExtractedIsValue` | internal/adapter/openai_sse.go:211-246 | In printed text a key marker is found first at a real key, never inside a string, and what is cut out is the printed value of the first such key. |
| `JsonText.ContainsIsHas` | internal/adapter/openai_sse.go:362-380 | A key-and-value marker is found exactly if that key has that value. |
| `OpenAIChunk.ChunkIsPrefixed` | internal/adapter/openai_sse.go:259-276 | The encoder's print of a chunk begins with the constants and values of the spliced prefix. |
| `OpenAIChunk.CallIsSpliced` | internal/adapter/openai_sse.go:326-340 | The encoder's print of a tool call with an id is the spliced tool start. |
| `OpenAIChunk.ArgsAreSpliced` | internal/adapter/openai_sse.go:312-324 | The encoder's print of tool arguments is the spliced argument delta. |
| `OpenAIChunk.FinishIsSpliced` | internal/adapter/openai_sse.go:342-352 | The encoder's print of a finish reason is the spliced one. |
| `OpenAISse.SearchedIsExpected` | internal/adapter/openai_sse.go:354-404 | On every payload as printed, with any combination of optional fields, the fast path's searches see exactly the payload's own type and values. |
| `OpenAISse.StopsAgree` | internal/adapter/openai_sse.go:178-194 | Mapping a quoted stop reason is quoting the mapped one. |
| `OpenAISse.TrimmingMatters` | internal/adapter/openai_sse.go:178-209 | The two mappings of stop reasons agree exactly on trimmed reasons. |
| `OpenAISse.FastIsSlowExactly` | internal/adapter/openai_sse.go:354-500 | Whenever the fast path answers, its bytes are the slow path's if and only if the index is not negative, the stop reason is trimmed and the message id is printed faithfully. |
| `OpenAISse.AngleBracketDiffers` | internal/adapter/openai_sse.go:110-125 | The message id `<` is printed differently. |
| `OpenAISse.NegativeIndexDiffers` | internal/adapter/openai_sse.go:354-500 | Text with a negative index is answered by the fast path only. |
| `OpenAISse.SpaceDiffers` | internal/adapter/openai_sse.go:178-209 | A stop reason of white space is mapped differently. |
| `OpenAISse.ChunksAreTheEncoders` | internal/adapter/openai_sse.go:502-516 | Under those conditions the fast path is invisible, also when it gives up. |
| `OpenAISse.ExtractJSONStringValueAfter` | internal/adapter/openai_sse.go:211-246 | The scan with a moving index and an escape flag computes the extraction. |
| `OpenAISse.DecimalLenInt64` | internal/adapter/openai_sse.go:136-153 | The digit loop gives the printed length of every int64, the smallest one included. |
| `OpenAISse.EstimateIsExact` | internal/adapter/openai_sse.go:248-352 | Remark, used by the next row: for an id written as it stands, the bytes reserved are the bytes written. |
| `OpenAISse.Buffer.AppendOpenAIChunk` | internal/adapter/openai_sse.go:127-352 | A chunk printer appends exactly prefix and body, and moves the buffer at most once, in the reservation. |
| `OpenAIFrames.FrameIsSearched` | internal/handler/sse_frame.go:204-319 | On the frames the gateway prints itself, event type and message fields in front mislead no search. |
| `OpenAIFrames.FrameFastIsSlowExactly` | internal/handler/stream_frames.go:127-138 | On those frames the fast path's answer is the slow path's if and only if, besides the conditions above, a tool id is not empty. |
| `OpenAIFrames.EmptyToolIdDiffers` | internal/handler/stream_frames.go:127-138 | A frame with an empty tool id is answered, and differently. |
| `BillingEvent.EventIdRoundTrip` | internal/billingledger/event.go:14-33 | An identity reads back as created when it was, whatever the request is called, and can be settled exactly from five minutes before until seven days after. |
| `BillingEvent.ExpiryIsFixed` | internal/billingledger/event.go:18-33 | Remark: the expiry is a whole second and does not depend on when it is asked for. |
| `BillingOutbox.NameIsIdentity` | internal/billingledger/outbox.go:64-66 | Two entries share a file exactly if they share key and event. |
| `BillingOutbox.Ledger.New` | internal/billingledger/outbox.go:38-62 | Loading fails exactly if some file is not a valid entry under its own name; otherwise everything visible is pending, synced or not. |
| `BillingOutbox.Ledger.Ready` | internal/billingledger/outbox.go:69-84 | The ledger is ready exactly without a disk error, below capacity and with every pending event inside its window. |
| `BillingOutbox.Ledger.Queue` | internal/billingledger/outbox.go:86-123 | Each failing file-system call leaves the directory and the books as it must and closes the gate, a write that works opens it; a new entry is pending only once its rename is synced, and one that is pending already is accepted as it is, without a write. |
| `BillingOutbox.Ledger.Remove` | internal/billingledger/outbox.go:125-140 | An entry leaves the books only when its removal is durable. |
| `BillingOutbox.Ledger.SettleApiKeyBilling` | internal/billingledger/outbox.go:142-151 | Nothing is sent unless the intent was queued, and it is removed only after success. |
| `BillingOutbox.Ledger.Replay` | internal/billingledger/outbox.go:159-183 | A replay that is cancelled after any number of turns has sent exactly the pending events it came to that are inside their window, and dropped exactly those settled and durably removed. |
| `BillingOutbox.DiskErrorIsLatestWrite` | internal/billingledger/outbox.go:69-123 | In every run the ledger is not ready for a disk error exactly if the latest call of `queue` in its process that had to write met a fault: any of the three faults closes the gate, and the next write that works opens it. |
| `BillingOutbox.BookedWithoutReceipt` | internal/store/redis_api_keys.go:259-286 | The store books an event only without a receipt, also when receipts have been dropped, because the event is expired by then. |
| `BillingOutbox.RepeatedSettlementSucceeds` | internal/store/redis_api_keys.go:259-286 | A settlement that is repeated inside the window after it was booked succeeds and books nothing. |
| `BillingOutbox.StepKeepsInv` | internal/billingledger/outbox.go:86-183 | Every step of the system, faults, process exits and power losses included, keeps receipts and bookings matched and every pending event booked or in the directory, and there unsynced only if it was loaded unsynced. |
| `BillingOutbox.ChargedAtMostOnce` | internal/billingledger/outbox.go:86-183 | In every run each event is charged at most once. |
| `BillingOutbox.AcceptedIsNeverLost` | internal/billingledger/outbox.go:86-151 | Once `queue` has returned nil, having written the entry or found it pending and synced, in every later state the event is charged or this entry, its amount included, survives every power loss. |
| `BillingOutbox.PendingIsSafeExactly` | internal/billingledger/outbox.go:38-151 | A pending entry stays charged or in the directory whatever follows if and only if it is charged already or was not loaded from an unsynced directory that has not been synced since. |
| `BillingOutbox.AcceptedIsSafeExactly` | internal/billingledger/outbox.go:86-123 | So does an entry for which `queue` has just returned nil, under exactly that condition before the call. |
| `BillingOutbox.UnsyncedEntryIsLost` | internal/billingledger/outbox.go:38-123 | For every valid entry there is a run in which it is accepted unsynced and then lost: a rename whose sync fails, an exit, a restart, an accepted call, a power loss. |
| `BillingOutbox.ValidEntriesReload` | internal/billingledger/outbox.go:38-62 | A ledger that was only offered valid entries can always be restarted, after an exit as after a power loss. |
| `BillingOutbox.InvalidEntryBlocksRestart` | internal/billingledger/outbox.go:38-62 | From any state: once a process has ended, by itself or by a power loss, with an invalid entry safely on disk, none ever starts again. |
| `BillingOutbox.QueuedIsOnDisk` | internal/billingledger/outbox.go:86-123 | A call of `queue` that works puts its entry there, valid or not. |
| `BillingOutbox.HealthySettlementLeavesNoDebt` | internal/billingledger/outbox.go:142-151 | Without faults a settlement inside its window is charged and leaves nothing behind. |
| `CliOAuth.CallKeepsInv` | internal/grok/cli_oauth.go:70-174 | No call, whatever fails or interferes at each of its steps, sends a replaced token, loses a received one or touches a later login. |
| `CliOAuth.RotationsAreSafe` | internal/grok/cli_oauth.go:70-174 | In every run no replaced refresh token is sent again, the newest token of the last login is in the row or waits to be written over the one it replaced, and an unused login stays as it was written. |
| `CliOAuth.ReplenishedCallSendsNothing` | internal/grok/cli_oauth.go:88-121 | A caller refused the same access token gets the new one, or an error, without a grant. |
| `CliOAuth.GrantReplenishes` | internal/grok/cli_oauth.go:149-174 | A grant that yields a usable token serves later callers, whether or not it could be written. |
| `CliOAuth.OneGrantIsEnough` | internal/grok/cli_oauth.go:70-174 | However many callers force a refresh of the same rejected token, with whatever persistence failures, at most one grant is asked for if grants are usable. |
| `CliOAuth.ForcedRefreshIsSkippedIffUntrimmed` | internal/grok/cli_oauth.go:88-121 | A forced refresh of a live account spends its refresh token exactly if the stored access token is trimmed. |
| `CliOAuth.SecondRefreshReusesIffUntrimmed` | internal/grok/cli_oauth.go:90-100 | The refresh after a rotation sends the replaced token exactly if the stored refresh token was not trimmed. |
| `CliOAuth.CLIOAuth.PersistRotation` | internal/store/credential_patch.go:11-30 | The compare-and-set: refused unless the row holds the expected or the new token, blank values keep what is there. |
| `CliOAuth.CLIOAuth.LatestAccount` | internal/grok/cli_oauth.go:88-112 | A pending rotation is written first, or dropped only for a row that holds neither of its tokens; while it stays pending nothing is read. |
| `CliOAuth.SettleKeepsPending` | internal/grok/cli_oauth.go:88-112 | A call that cannot tell what became of a pending rotation keeps it and gives up: only a write known to have worked or a row that could be read clears it. |
| `CliOAuth.CLIOAuth.RefreshAndPersist` | internal/grok/cli_oauth.go:149-174 | The grant, the pending entry and the write, step by step, on the account, the row and memory: the token is sent once; a grant without an access token changes nothing; and a rotation is either written, and answered, or pending with exactly what was received. |
| `CliOAuth.CLIOAuth.AccessToken` | internal/grok/cli_oauth.go:70-147 | The method is the call that the lemmas are about, and answers as the next row says. |
| `CliOAuth.CallAnswers` | internal/grok/cli_oauth.go:70-147 | Every call, whatever interferes: it sends the refresh token of what it settled on, once, exactly if it is not backing off, there is one, and the access token is missing, within 300 s of its expiry, or forced and the one the caller holds; and it replies with the live token, the fallback during a backoff or after a failed early renewal, the granted token, or the error that belongs to the step that failed. |
| `CliOAuth.LiveTokenIsServed` | internal/grok/cli_oauth.go:88-119 | An unforced call that settles on a live token replies with it and sends nothing. |
| `CliOAuth.CalmWritesPending` | internal/grok/cli_oauth.go:88-112 | Remark, on what a call settles on that nothing disturbs: a pending rotation that the row accepts is written first, and is then the row. |
| `RefreshSchedule.Account.RecordFailure` | internal/grok/cli_refresh_schedule.go:82-120 | The new state, and a login is asked for exactly when there is nothing to wait for. |
| `RefreshSchedule.Account.RecordSuccess` | internal/grok/cli_refresh_schedule.go:123-128 | The history is cleared, unless there is none. |
| `RefreshSchedule.CountersAreStreaks` | internal/grok/cli_refresh_schedule.go:82-128 | Over every run the stored counts are the current streak of identical failures and the failures since the last success. |
| `RefreshSchedule.FailuresWaitOrAskForLogin` | internal/grok/cli_refresh_schedule.go:54-120 | After any run ending in a failure: a login is needed exactly for a permanent refusal with a dead or endless token, or a fifth identical unclassified one with a dead token; otherwise the retry lies strictly ahead, within its class's bounds. |
| `RefreshSchedule.BackoffIsRespected` | internal/grok/cli_refresh_schedule.go:42-50 | Remark: until then neither the scheduler nor a request sends the refresh token. |
| `Journal.PageLosesNothing` | internal/api/api_ops.go:328-399 | The rows of a page and what its cursor points at are everything that matches below the start, for any filter and limit. |
| `Journal.PagingIsComplete` | internal/api/api_ops.go:472-486 | Following the cursor to its end yields every matching entry below the start exactly once, newest first, though the ledger grows meanwhile and page sizes vary. |
| `Journal.PagingEnds` | internal/api/api_ops.go:472-486 | It ends after at most one page more than there are entries. |
| `Journal.MatchingIsNewestFirst` | internal/api/api_ops.go:360-399 | The matching entries are exactly those that match, strictly newest first. |
| `Journal.QualityIsTimeline` | internal/api/api_ops.go:409-451 | The quality rows of a record are one stretch of the ledger's own account of its request, each once and oldest first, however they were pieced together. |
| `Journal.OfIsExact` | internal/api/api_ops.go:342-358 | The events collected for a request are its own of that kind, each once, in the order of the entries. |
| `Journal.AttemptsAreOwn` | internal/api/api_ops.go:409-447 | The attempts of a row are its request's own, newest first: those in the page's window, or, exactly if there are none, those among the thousand entries behind it. |
| `Journal.ChecksAreOwn` | internal/api/api_ops.go:409-451 | The checks of a row are its request's own, oldest first: those in the page's window on the row of a request, and those among the thousand entries behind it as well, exactly if the page holds the row of that request and it tells of checks that are not in the window. |
| `Journal.IncompleteExactly` | internal/api/api_ops.go:512-532 | It does so exactly if it tells of a conclusion that is not there, or of more withheld, started or finished checks than are there. |
| `Journal.Chronological` | internal/api/api_ops.go:544-550 | The list in reverse. |
| `Journal.QualityChecksIncomplete` | internal/api/api_ops.go:512-532 | The counting loop decides whether a stage is missing. |
| `Journal.WriteJournalList` | internal/api/api_ops.go:311-486 | Both passes, the look behind the window and the cursor, as loops over maps and lists, give those rows and that cursor. |
| `FunctionSchema.RewriteKeepsMeaning` | internal/grok/function_schema.go:9-53 | The rewritten schema accepts the same objects and evaluates the same properties, whatever the other keywords mean. |
| `FunctionSchema.NormalizedKeepsMeaning` | internal/grok/function_schema.go:9-53 | So does the whole function, and only the empty schema is lost. |
| `FunctionSchema.NormalizedIsIdempotent` | internal/grok/function_schema.go:9-53 | Rewriting twice is rewriting once. |
| `FunctionSchema.RootIsExposed` | internal/grok/function_schema.go:36-52 | Remark: afterwards the root says `object`, holds no union, and every other keyword is untouched. |
| `FunctionSchema.NormalizedToolKeepsMeaning` | internal/grok/function_schema.go:55-68 | A tool keeps all its fields and the meaning of its parameters. |
| `FunctionSchema.NormalizeBuildFunctionSchema` | internal/grok/function_schema.go:9-53 | The edits of the cloned map compute the rewriting: a schema that says it asks for an object ends with type `object` and no union at the root and keeps its other keywords, any other one is the result as it came. |
| `FunctionSchema.AppliesIff` | internal/grok/function_schema.go:11-40 | The scans find exactly the schemas that say so: by the type `object`, by a list of types of `object` and `null` with `object` among them, or untyped by at least one of `anyOf` and `oneOf` that is a list of such objects with `object` among them; with `allOf` absent or a list. |
| `FunctionSchema.NormalizeBuildFunctionTools` | internal/grok/function_schema.go:55-68 | Each tool of the list is normalized, the others are left alone. |
| `AuditQueue.StepKeepsInv` | internal/audit/audit.go:153-235 | Every step of `Log`, of the unlocked receive, of the batch accounting and of `Close` keeps bytes, calls and events balanced. |
| `AuditQueue.CountersBalance` | internal/audit/audit.go:144-235 | In every interleaving, whenever the lock is free: `QueuedBytes` is the bytes in the channel plus the received but unreleased ones, between 0 and 8 MiB; calls are dropped, queued, in flight, written or failed; and accepted events are settled, in flight or queued, in order. |
| `AuditQueue.NoSendAfterClose` | internal/audit/audit.go:161-173 | A send never meets a closed channel. |
| `AuditQueue.ClosedIsEmpty` | internal/audit/audit.go:176-184 | When `Close` returns nothing is queued or in flight and every accepted event was written or failed. |
| `AuditQueue.CloseReturns` | internal/audit/audit.go:176-235 | From every state of a closed logger there is a way on which the writer gets done, within its distance. |
| `AuditQueue.StepDescends` | internal/audit/audit.go:153-235 | Once the logger is closed every possible step other than a new call or a repeated `Close` leads closer to that, and no step of a caller gives the writer more to do. |
| `AuditQueue.WriterGetsDone` | internal/audit/audit.go:176-235 | However callers and writer take turns after the close, the writer takes no more steps than its distance, and until it is done either it can take one or the caller that holds the lock can be dropped. |
| `AuditQueue.RedisLogger.Log` | internal/audit/audit.go:153-174 | The method is the call that the next rows are about, with any number of receives between its send and its accounting. |
| `AuditQueue.LoggedIffFits` | internal/audit/audit.go:153-174 | Such a call takes the event exactly if the logger is open, the event prints in 32 KiB, no more than 8 MiB are queued with it and the channel has room; else it counts one drop and changes nothing else. |
| `AuditQueue.LoggedIsRun` | internal/audit/audit.go:153-174 | Such a call is a run of the steps, and counts one call. |
| `AuditQueue.LoggedKeepsInv` | internal/audit/audit.go:153-174 | And it keeps the balance. |
| `AuditQueue.RedisLogger.CollectBatch` | internal/audit/audit.go:186-203 | The collect loop, with any calls of `Log` between its looks at the channel, is the function that the next row is about. |
| `AuditQueue.CollectedIsRun` | internal/audit/audit.go:186-203 | It is a run of the steps that ends at 128 events or at an empty channel and has taken the events that come next in the order of acceptance. |
| `AuditQueue.RedisLogger.ReleaseBytes` | internal/audit/audit.go:204-208 | The loop takes exactly the batch's bytes off the count. |
| `AuditQueue.RedisLogger.CountResults` | internal/audit/audit.go:221-231 | Each event of the batch is counted once, as failed exactly if its command failed and else as written. |
| `Alerting.RateRecoversAboveMargin` | internal/alerting/alerting.go:194-230 | A firing rate alert recovers if and only if no judged channel of its name is below the warning threshold plus the margin. |
| `Alerting.RateFiresBelowWarning` | internal/alerting/alerting.go:194-230 | It starts if and only if some judged channel is severely low, or low with enough failures. |
| `Alerting.BandIsQuiet` | internal/alerting/alerting.go:203-212 | Between the two lines nothing is announced in either direction. |
| `Alerting.RaisedExactly` | internal/alerting/alerting.go:157-230 | Which of its three alerts a channel raises, under which key, how severe and with which numbers; infrastructure channels raise none. |
| `Alerting.CredentialAlertExactly` | internal/alerting/alerting.go:169-179 | A credential alert is raised exactly if some channel of that name has accounts that need a login, and is critical. |
| `Alerting.PoolAlertExactly` | internal/alerting/alerting.go:181-191 | An empty pool is raised exactly if the rules ask for it and some channel of that name has enabled accounts and none available, and is critical. |
| `Alerting.LastDecides` | internal/alerting/alerting.go:157-230 | Of several channels of one name, the last that raises an alert decides what it says. |
| `Alerting.CriticalComesFirst` | internal/alerting/alerting.go:252-269 | The order: critical alerts before warnings, and then by the first character in which the keys differ. |
| `Alerting.SortAlerts` | internal/alerting/alerting.go:252-269 | The insertion sort by swaps leaves an ordered permutation. |
| `Alerting.ListsIsUnique` | internal/alerting/alerting.go:232-269 | There is only one ordered listing of a set of alerts. |
| `Alerting.PassIsDeterministic` | internal/alerting/alerting.go:232-323 | What a pass reports and records does not depend on the order in which maps are walked. |
| `Alerting.TransitionsAlternate` | internal/alerting/alerting.go:292-364 | In every run of passes and policy changes each key's transitions alternate, starting with one that fires, and the firing set is what the last snapshot raised. |
| `Alerting.Engine.Evaluate` | internal/alerting/alerting.go:292-323 | One pass of the engine is one step of that run: it reports exactly what has started and what is over, the latter as it was with its detail replaced, and keeps what goes on as it was when it started. |
| `Alerting.Engine.SetThresholds` | internal/alerting/alerting.go:353-364 | A policy is refused exactly if its thresholds are negative or its bands collapse, and the firing set is kept. |
| `AccountEvents.WinnerIsUnique` | internal/accountevents/accountevents.go:251-255 | For each account a batch has one possible change. |
| `AccountEvents.WinnerIsSpelledOut` | internal/accountevents/accountevents.go:249-299 | It is the last change of its kind, and no change of a kind before it in the order deleted, created, credential, status, updated was taken for that account. |
| `AccountEvents.AbsorbKeepsHolds` | internal/accountevents/accountevents.go:249-256 | The pending map holds the latest change of highest priority for every account mentioned since the last flush, and no others. |
| `AccountEvents.NothingIsUnrepresented` | internal/accountevents/accountevents.go:224-256 | Every taken change is represented by one at least as important and, if no more so, at least as recent. |
| `AccountEvents.SegmentsCoverTaken` | internal/accountevents/accountevents.go:243-269 | For every queue and placement of flushes, up to a stop each change that was taken for an account is in exactly one batch's segment, in order. |
| `AccountEvents.Bus.DeliverLoop` | internal/accountevents/accountevents.go:218-269 | The loop delivers one batch for every such segment. |
| `AccountEvents.Bus.Flush` | internal/accountevents/accountevents.go:223-241 | A flush delivers exactly the pending changes, with both lists parallel, or nothing. |
| `AccountEvents.Bus.Publish` | internal/accountevents/accountevents.go:179-191 | A change is queued unless the queue is full. |
| `AccountEvents.Kick.AccountChangeBatch` | internal/accountevents/accountevents.go:111-137 | The signal is set exactly if it was or some change is eligible. |
| `AccountPolicy.RateLimitCooldown` | internal/accountpolicy/policy.go:580-592 | The doubling loop is min(30s * 2^(n-1), 30m). |
| `AccountPolicy.FailuresAreRateLimits` | internal/accountpolicy/policy.go:95-139 | Over every run of verdicts the stored count is the rate limits since the last healthy result, and status and last attempt are the last verdict's. |
| `AccountPolicy.DeadlineIsBounded` | internal/accountpolicy/policy.go:479-539 | Whatever else an account records, a rate limit has one deadline inside its window. |
| `AccountPolicy.RateLimitHasOneDeadline` | internal/accountpolicy/policy.go:95-139 | After any run ending in a rate limit the account is held up to one moment and free from then on: at least the doubling cooldown and at most half an hour after the last attempt. |
| `AccountPolicy.BoundedResetIsHonoured` | internal/accountpolicy/policy.go:479-604 | A bounded reset stated by the upstream is honoured to the second when it is longer than the doubling cooldown. |
| `AccountPolicy.DeadlinesAre` | internal/accountpolicy/policy.go:496-574 | For every other status: how long it withholds, in seconds, and that a later recorded reset extends a payment block and a server fault and nothing else. |
| `AccountPolicy.RateLimitDeadlinesAre` | internal/accountpolicy/policy.go:513-534 | A rate limit's recorded reset counts up to half an hour; a later one is cut to that, or on WorkBuddy ignored, and an inference cap's counts in full. |
| `AccountPolicy.Account.Apply` | internal/accountpolicy/policy.go:95-139 | Status, reason, stamp, count, authorization and reset after a verdict, each as a function of the old state and the verdict. |
| `AccountPolicy.Account.Held` | internal/accountpolicy/policy.go:479-539 | The branches decide by that deadline. |
| `StatusCode.ScanIsLeftmost` | internal/errors/classify.go:62-81 | The scan returns the code behind the leftmost colon that has one, or none if there is none. |
| `StatusCode.WrappingKeepsCode` | internal/errors/classify.go:58-81 | Any number of layers without a code of their own keep the code of the message; the outermost one may begin like a code, as no colon stands before it. |
| `StatusCode.ScanStatusCode` | internal/errors/classify.go:62-81 | The loop with a moving offset computes the scan. |
| `StatusCode.CodeAtDelimiter` | internal/errors/classify.go:42-56 | A code counts only in front of a delimiter or the end. |
| `CapWait.PrintedWaitIsRead` | internal/cline/auth.go:247-300 | Reading a printed wait gives it back rounded to seconds, and cut to minutes from a minute on, for every positive duration. |
| `CapWait.MessageIsRead` | internal/cline/auth.go:232-243 | So does reading it out of a message. |
| `CapWait.UnitsAre` | internal/cline/auth.go:247-281 | A number behind which one of the letters d, h, m, s stands, in either case, is read as that many days, hours, minutes or seconds. |
| `CapWait.ParseHumanDuration` | internal/cline/auth.go:247-281 | The loop over number, total and validity, in int64 arithmetic, computes the reading. |

## Left out

- HTTP, Redis and file-system calls, templates, routing and the admin pages: they are steps that succeed, fail or fail ambiguously.
- Redis evicting receipts early, and two gateway processes on one outbox directory.
- Temporary files and foreign files in the outbox directory; `New` skips or refuses them by name.
- A process that ends between receiving a rotation and writing it: the pending rotation is kept in memory only. Accounts without a store are not rotated durably either.
- Other writers that put an old copy of an account's tokens back into its row.
- Several accounts: each lock, lease and pending rotation belongs to one account, and the model follows one.
- ClineStream.Consumer.Consume: how much of the text is missing after an overrun of the buffer beside a call that was broken for a while only; `OverrunIsLost` says what the buffer does.
- Usage messages, reasoning signatures and ids that are made up for calls without one; and the mode that streams tool arguments while they arrive, with its check of them at the end.
- An explicit `Flush` in the middle of a link.
- Payload keys in other orders than the encoder or the gateway's frames print them, and `json.Unmarshal` of texts that are not printed payloads.
- Invalid UTF-8: strings are sequences of characters, and lengths count characters.
- White space outside ASCII: `TrimSpace` knows more of it than `Text.Trim`.
- Redis stream trimming while a client is paging, and the diagnostics index of a journal row.
- `$ref` pointers into a schema branch that the rewrite moves, and what a schema says about instances that are not objects.
- Concurrent recording by the alert engine: it records after releasing its lock, so two passes at once may be recorded in either order.
- Alert texts: titles and details are kept as the numbers they are made from.
- WorkBuddy restrictions, which come from the store package, and the phrases by which `Classify` sorts upstream errors.
- `redactValue`, `redactString` and `sensitiveKey`: a recursion that masks by key name, and a regular expression.
- The error codes by which a failed refresh is sorted into its four classes; the class is a parameter.
- Page limits and the start of a time window are parameters of the journal; the clamps of the query string are not modelled.
- BillingOutbox.Ledger.Replay: the replay loop is specified without concurrent callers; with them it is covered by the steps of the system model.
- The Windows variant of the outbox files, which writes renames through and does not sync removals.
- AuditQueue.RedisLogger.CollectBatch: callers log between two looks at the channel; the steps cover those that are in the middle of a call.
- CliOAuth.ForcedRefreshIsSkippedIffUntrimmed: one call that nothing interferes with; the invariant covers the others.
- CliOAuth.SecondRefreshReusesIffUntrimmed: two calls that nothing interferes with; the invariant covers the others.
- AccountPolicy.Account.Apply: without the WorkBuddy restriction fields and the status they override.
- AccountPolicy.Account.Held: without the branch for a WorkBuddy restriction.
