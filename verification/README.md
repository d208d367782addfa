# Verification of the bridge, the config editor and the drain protocol

A Dafny model of the parts of codex-chatgpt-web that keep state over time, and proofs of what they keep. Run
`dafny verify dfyconfig.toml` in this directory. Each module models one component; a pure state machine or
function specifies it, theorems are proved about that specification over every input and every run, and, where
the source updates fields or local variables, classes and methods of the same shape are proved to do exactly what
the specification says.

## What is modelled

**The response stream** (`Bridge`, `BridgeOrder`, `BridgeItems`, `BridgeReadable`, `BridgeEnds`, `BridgeContents`,
`BridgeSeals`, `BridgeCompaction`, `BridgeExamples`, `BridgeRefinement`, `Batch`, `BatchContents`, `StreamBridge`,
`Freeform`). `Bridge` is the state machine of `bridgeToResponsesSSE`:
adapter events, pulls, timer ticks, an upstream end or throw, a client cancel and a breaking controller, in any
interleaving, writing numbered frames. `Batch` is `buildResponseJSON`. The main results: exactly one terminal, in
place and with a cause; which runs a strict reader of the items accepts, and that in those every item is announced
and completed once; both forms hold exactly what the adapter said; the streamed form refines the batch form; the
live preview of a freeform call does not depend on chunks. `EventQueue` is the queue that feeds the stream.

**The reversible config editor.** `Document` holds lines and terminators, `Toml` the comment scanner, `InlineTable`
and `InlineTableScan` the hand-written inline-table scanner, `ConfigLines` the line patterns (`InlineTableReads` and
`LineShapes` say which tables and lines they accept), `ConfigEdit` what
`installRoute`, `installCompatibilityV1Features`, the `verify*` checks and the `restore*` functions do to a
document, and `ConfigMethods` the same edits as methods on a document object. The proof sees a document as a
sequence of regions, a header and the lines under it (`Regions`), where each line remembers the original it stands
for (`Tracking`); `BodyEdits`, `RouteEdits`, `RouteRoundTrip`, `FeatureLines`, `V2Inline`, `FeatureRegions`,
`TableRemoval`, `FeatureInstall`, `FeaturePlan` and `FeatureRestore` follow each edit and its undoing there.
`ConfigRoundTrip`, `InstallSucceeds`, `Unterminated` and `UnterminatedCompatibility` (over `EditTwins`) draw the
conclusions about whole texts: when setting up succeeds and when restoring gives the original bytes. `UserEdits` and
`CompatibilityEdits` say what restoring keeps of a file edited meanwhile, and `Guards` with
`Intact` which files the checks before and after it let pass.

**The journal.** `FileWrite` is `writeFilesWithCompensation` over a disk whose operations may fail, `Journal` the two
copies with saves, rollbacks and reads stopped anywhere, `StateFiles` the writes of one save, and `Separation` the
proof that connected and disconnected configs are told apart. `Connections` and `Gaps` put editor and journal
together: connect and disconnect over all runs, for files that come back and for those that do not, and the first
setup.

**Drain and interruption.** `DrainGates` (file `DrainGate.dfy`) is the gate, `Admission` the server's routes over it
and the turn counter, `Negotiation` the service client and its lease, `TurnCounter` the tracked turns and interrupt
tombstones.

**Smaller structures.** `CatalogCache` over `Recency`, `CatalogMerge` with `CatalogRows`, `UncleanClose`.

## Findings

Where the code does not do what one would expect. Each row is a theorem of the model.

| what happens | where | an input | exactly when |
|---|---|---|---|
| Connecting and disconnecting in Compatibility V1 leaves one more empty line at the end of the file each time: whether a separator goes before `[agents]` is decided after `[features]` was appended, but recorded before | src/codex-integration-document.ts:530-535, 452 | `InstallSucceeds.GapExample`: `[x]` and an empty line | `ConfigRoundTrip.CompatibilityRoundTrip` with `InstallSucceeds.GapForeseen`; over all runs `Gaps.GapsOverAllRuns` |
| A config whose last line has no newline can lose its route or its features: a line put right before that line merges with it, the installed file fails its own check, and disconnecting refuses | src/codex-integration-document.ts:322-323 | `Unterminated.LostExample`, `UnterminatedCompatibility.LostFeaturesExample`: `a = 1`, then `[x]` without a newline | `Unterminated.UnterminatedRoundTrip`, in Compatibility V1 `UnterminatedCompatibility.UnterminatedFeatures` |
| A first setup stopped after its first write, or rolled back so far that the config is as before and the recovery copy is still there, leaves that copy alone: every later read, connect and disconnect fails and changes nothing | src/codex-integration-shared.ts:317-363, src/codex-integration-journal.ts:173-178 | every file that installs | `Gaps.FirstSetUp` |
| An inline table with a trailing comma and no `enabled` gets two commas in a row | src/codex-integration-document.ts:508-511 | `InlineTable.TrailingComma`: `{ a = 1, }` | `InlineTable.EmptyFieldExactlyWhen` |
| A stop reason of `content_filter` is an incomplete response on the stream and a completed one in the batch form | src/bridge.ts:638-682, 1096-1101 | `BridgeExamples.ContentFilterExample` | `BridgeRefinement.StreamRefinesBatch` |
| The live preview of a freeform call shows `\b` and `\f` as letters | src/bridge.ts:187-194 | `BridgeExamples.PreviewExample` | `Freeform.PreviewOfJsonString` |
| A signature that arrives while a message, call or raw reasoning item is open reuses that item's output index | src/bridge.ts:287-303, 552-559 | `BridgeExamples.SignatureExample` | `BridgeItems.SignatureToleratedExactlyWhenItFits` |
| Hidden raw reasoning flushed while an item is open does the same | src/bridge.ts:294-314 | `BridgeExamples.HiddenExample` | `BridgeReadable.ReadableExactlyWhen` |
| An upstream throw leaves the open item uncompleted | src/bridge.ts:739-758 | `BridgeExamples.ThrowExample` | `BridgeEnds.ThrownTerminal`, at a single throw `BridgeEnds.ThrowLeavesOpenItem` |
| A drain lease proves nothing when another controller resumes the daemon | src/service.ts:210-244 | `Negotiation.SecondControllerBreaksTheLease` | `Negotiation.LeaseMeansIdle` |

## What the theorems assume

- Config texts hold no managed comment before setup, and every CR is part of a CR LF. Runs of connects and
  disconnects, and files edited meanwhile, are about texts that are empty or end in a newline.
- `JSON.stringify` of the two route URLs is a quoted string on one line, with no comment outside its quotes, that
  `JSON.parse` reads back (`RouteEdits.QuotedWell`); JSON decoding of inline keys is a parameter.
- Callbacks do not throw, and a clock given to the cache does not go back.
- A resume runs the requests it lets through before another handler runs: they are continued in the microtasks of
  the same turn of the event loop.

## Model

| member | source | states |
|---|---|---|
| BridgeRefinement.StreamRefinesBatch | src/bridge.ts:464-796 | the streamed form agrees with the batch form: over every interleaving of events with nonempty payloads, stall ticks, end of input and cancels, a terminal on the wire lists the items the batch translation of the same events lists, with the same `end_turn`, and after a final event the same status and detail, except that a content-filter stop has a different status; an end without a final event is incomplete on the wire while the batch form completes |
| BridgeOrder.ExactlyOneTerminal | src/bridge.ts:226-243 | over every run the wire is `response.created`, ordinary frames, at most one terminal, `[DONE]`, then nothing; numbered frames carry 0, 1, 2, …; the terminal is there exactly when it was reported and with that status, and a finished run lacks it only when the client left or the controller broke |
| BridgeOrder.WireOnlyGrows | src/bridge.ts:226-243 | frames are never taken back, and nothing follows a closed wire |
| BridgeOrder.CancelSilences | src/bridge.ts:869-877 | a client that leaves before the terminal gets no further frame and no terminal, whatever happens afterwards |
| BridgeOrder.UpstreamIsReleased | src/bridge.ts:440-463 | when the wire is closed the upstream iterator has ended or was returned, unless the controller broke |
| BridgeEnds.TerminalExactlyWhen | src/bridge.ts:464-796 | over every run, one more input writes the terminal exactly when it is one of those that call for one in that state (a final event, an end or throw while an event is awaited, a tick after the silence budget), and with that detail; with a broken controller it may go unwritten |
| BridgeEnds.TerminalHasACause | src/bridge.ts:464-796 | every terminal of every run comes from one input of the run that called for it, on a wire that had none before |
| BridgeEnds.StallNeedsSilence | src/bridge.ts:801-845 | over every run, a tick ends the turn exactly when the wire is open, an event is awaited, and the last event of the run (or its start) is at least the silence budget ago; then the detail is `upstream_stall_timeout` |
| BridgeEnds.StallHasACause | src/bridge.ts:801-845 | a terminal with that detail in any run comes from such a tick, or from an adapter event that gave this reason itself |
| BridgeEnds.ThrowLeavesOpenItem | src/bridge.ts:739-758 | a throw leaves an announced item uncompleted exactly when an item is open |
| BridgeEnds.ThrownTerminal | src/bridge.ts:739-758 | over every run, a terminal for an upstream throw comes from a throw, and the items announced are those it lists exactly when none was open at that throw |
| BridgeEnds.EarlyTickBeats | src/bridge.ts:801-852 | over every run, a tick within the silence budget of an awaited event puts exactly one heartbeat on the wire and changes nothing else, unless the controller breaks, which closes the wire |
| BridgeEnds.IdleTickIsSilent | src/bridge.ts:801-852 | before a pull, after the wire is closed and once the turn is over, a tick does nothing |
| BridgeEnds.PumpsUntilOutput | src/bridge.ts:464-490 | backpressure over every run: a pull starts a step, and the step is over with the first event that puts a frame on the wire, until the next pull |
| BridgeEnds.CallerIsTold | src/bridge.ts:464-796 | over every run, the caller is told once for each final event, throw, stall and cancel, and not for a mere end |
| BridgeContents.ResponseHoldsWhatWasSaid | src/bridge.ts:374-633 | conservation over every run without compaction, for every terminal: what it lists holds exactly what the adapter said, namely the texts of each phase, the visible thoughts and the raw thoughts in order, and every call once, in order, under its real name and namespace, with the joined arguments (an object in braces when there were none), parsed or unwrapped by kind; a throw loses at most what was open |
| BridgeSeals.ResponseIsSealed | src/bridge.ts:268-314 | over every run, the envelopes a terminal lists are those of an independent account of the events: every signature and redacted block once, in order, on the thought it belongs to or on an item of its own with the thoughts hidden since |
| BridgeCompaction.SummaryHoldsAllText | src/bridge.ts:638-662 | over every compaction run, a proper end lists one compaction item that holds all the text sent, in order; any other end lists nothing |
| BatchContents.BatchHoldsWhatWasSaid | src/bridge.ts:912-1105 | the same conservation for the batch form, over every list of events |
| BatchContents.BatchIsSealed | src/bridge.ts:912-1105 | and the same envelopes |
| BatchContents.BatchCompacts | src/bridge.ts:1105-1139 | and the compaction item, which comes last |
| BridgeItems.StrictReaderAccepts | src/bridge.ts:319-415 | over every run in which each input that makes an item of its own finds nothing open, with reasoning shown or hidden: a strict reader of items, parts and deltas accepts the wire, at most one item is open, and its output index is the number of finished items |
| BridgeReadable.ReadableExactlyWhen | src/bridge.ts:287-415 | for every run, compaction turns included, the strict reader accepts the wire if and only if every input that reaches an open wire finds nothing open where it makes an item of its own: a signature or redacted reasoning, hidden raw reasoning flushed by text, a call, a boundary, an end or a tick; and no compaction turn finishes with its summary |
| BridgeItems.TerminalListsEveryItem | src/bridge.ts:490-785 | in such a run, at every terminal but that of an upstream throw, indices 0..n-1 were each announced once and completed once under the same id, in order, and the terminal lists exactly those items; a throw leaves at most the open item uncompleted |
| BridgeItems.SignatureToleratedExactlyWhenItFits | src/bridge.ts:552-560 | a signature keeps the wire readable exactly when a reasoning item is open or nothing is; otherwise its item reuses the open item's output index |
| BridgeExamples.ThrowExample | src/bridge.ts:739-758 | a pull, one text delta, a pull and a throw: one item announced and never completed |
| BridgeExamples.SignatureExample | src/bridge.ts:552-560 | a pull, one text delta, a pull and a signature: the strict reader refuses the wire |
| BridgeExamples.HiddenExample | src/bridge.ts:294-314 | with reasoning hidden, a call, raw reasoning and text: the wire is readable before the text and refused after it |
| BridgeExamples.ContentFilterExample | src/bridge.ts:638-682 | a turn that is only a content-filter stop: incomplete on the wire, completed in the batch form |
| BridgeExamples.PreviewExample | src/bridge.ts:187-194 | a compact argument text that stands for U+0008 and is previewed as the letter b |
| Freeform.PartialInput | src/bridge.ts:176-198 | the loop over a partial argument buffer computes the decoded preview, stopping at a quote, a split escape or a short `\u` |
| Freeform.PreviewGrows | src/bridge.ts:607-633 | more arguments only extend the preview |
| Freeform.PreviewIsChunkIndependent | src/bridge.ts:607-633 | the joined `custom_tool_call_input.delta` payloads are the preview of the joined arguments, however they were cut, and the prefix guard never holds a delta back |
| Freeform.PreviewOfJsonString | src/bridge.ts:171-198 | for a compact `{"input":"…"}` whose value is written as a JSON string of section 7 of RFC 8259, the preview is the value exactly when `\b` and `\f` were not used to write it |
| Freeform.PreviewOfPartialJsonString | src/bridge.ts:171-198 | while such a string arrives, the preview is a beginning of its value |
| Freeform.ArrivedIsShown | src/bridge.ts:171-198 | and nothing is held back: each character shows as soon as its last unit has arrived, exactly when neither `\b` nor `\f` was used |
| Freeform.DeltasAre | src/bridge.ts:176-198 | the joined deltas, however the arguments were cut: nothing while they may become the wrapper, all of them as they stand once they differ from it, the decoded rest after it |
| StreamBridge.Stream.EmitFrame | src/bridge.ts:226-234 | a frame takes the next number; a throwing controller closes the wire |
| StreamBridge.Stream.EmitTerminal | src/bridge.ts:638-730 | the terminal frame and its report |
| StreamBridge.Stream.FlushHiddenReasoningEnvelope | src/bridge.ts:287-303 | hidden reasoning becomes one item with its encrypted content, at the current output index |
| StreamBridge.Stream.CloseCurrentMessage | src/bridge.ts:319-340 | the open message is completed and recorded |
| StreamBridge.Stream.CloseCurrentReasoning | src/bridge.ts:341-361 | the open reasoning item is completed and recorded, with its envelope |
| StreamBridge.Stream.CloseCurrentRawReasoning | src/bridge.ts:362-373 | the open raw reasoning item is completed and recorded |
| StreamBridge.Stream.CloseCurrentToolCall | src/bridge.ts:374-415 | the open call is completed in the form of its kind: search, freeform or function |
| StreamBridge.Stream.TextDeltaArrives | src/bridge.ts:502-528 | text extends the message of its phase or starts one after closing what is open |
| StreamBridge.Stream.ThinkingDeltaArrives | src/bridge.ts:529-551 | thinking extends or starts the reasoning item, or is kept hidden |
| StreamBridge.Stream.RawDeltaArrives | src/bridge.ts:564-581 | raw reasoning extends or starts its item, or is kept hidden |
| StreamBridge.Stream.ToolCallStarts | src/bridge.ts:582-606 | a call closes what is open and announces itself |
| StreamBridge.Stream.ToolCallGrows | src/bridge.ts:607-633 | arguments grow the call; the delta is the new part of the preview or the arguments themselves |
| StreamBridge.Stream.TurnDone | src/bridge.ts:638-682 | the end of a turn closes and flushes everything and writes the terminal of its stop reason |
| StreamBridge.Stream.Handle | src/bridge.ts:490-731 | every event kind does what the specification of its step says |
| StreamBridge.Stream.UpstreamThrows | src/bridge.ts:739-796 | a throw flushes hidden raw reasoning only and ends the turn as failed |
| StreamBridge.Stream.UpstreamEnds | src/bridge.ts:768-796 | an end without a final event closes the items and ends the turn as incomplete |
| StreamBridge.Stream.TimerFires | src/bridge.ts:801-852 | a tick ends a stalled turn or sends a heartbeat |
| StreamBridge.Stream.ClientCancels | src/bridge.ts:869-877 | a cancel closes the wire, stops the timer and returns the iterator |
| StreamBridge.RunStream | src/bridge.ts:137-910 | the class driven by any interleaving leaves the wire and the state of the specified machine |
| Batch.Builder.Take | src/bridge.ts:1032-1105 | one event of the batch loop |
| Batch.BuildResponse | src/bridge.ts:912-1139 | the batch translation of every event list is the specified response |
| EventQueue.QueueIsFifo | src/event-queue.ts:8-44 | after every history the buffer holds the accepted values not yet read, and calls of `next` settle once each, in call order, each with the value of its turn |
| EventQueue.NothingIsLost | src/event-queue.ts:8-44 | values and waiters are never both there, delivered values followed by buffered ones are the accepted ones, and after a close every call has settled |
| EventQueue.OverflowMeansBacklog | src/event-queue.ts:8-17 | a push on an open queue throws exactly when as many accepted values as the bound are unread |
| EventQueue.AsyncEventQueue.Push | src/event-queue.ts:8-17 | a value goes to the oldest waiter, into the buffer, or throws |
| EventQueue.AsyncEventQueue.Close | src/event-queue.ts:19-23 | every waiter is told it is done; a second close does nothing |
| EventQueue.AsyncEventQueue.Next | src/event-queue.ts:33-38 | a call takes the oldest value, ends, or waits |
| Document.ParseRoundTrip | src/codex-integration-document.ts:282-305 | `renderDocument(parseDocument(t))` is `t` for every text |
| Document.SplitLinesAgree | src/codex-integration-document.ts:267-300 | `splitLines(t)` is `parseDocument(t).lines` for every text |
| Document.RenderReadsBack | src/codex-integration-document.ts:282-305 | a document whose lines all end in LF or CR LF is read back as it was rendered |
| Document.RemoveUndoesInsert | src/codex-integration-document.ts:311-333 | removing a line just inserted restores the document with its last terminator, for every position |
| Document.UnterminatedLinesMerge | src/codex-integration-document.ts:322-323 | why a text must end in a newline: a line inserted before an unterminated one merges with it when read again |
| Document.ParseLines | src/codex-integration-document.ts:285-299 | the line loop gives the lines and terminators of the recursive reading |
| Document.ConfigDocument.InsertLine | src/codex-integration-document.ts:311-324 | lines and terminators after an insertion, at the end and elsewhere |
| Document.ConfigDocument.RemoveLine | src/codex-integration-document.ts:326-333 | lines and terminators after a removal |
| Document.ConfigDocument.RenderText | src/codex-integration-document.ts:302-305 | the text of lines and terminators |
| Toml.StripTomlComment | src/codex-integration-document.ts:33-57 | the loop over quotes and escapes cuts at the comment the scan finds |
| InlineTable.ManagedParsesAgain | src/codex-integration-document.ts:489-512 | for every value that parses as an inline table (section "Inline Table" of TOML v1.0.0), the managed value parses again with `enabled` false, every other field and the text before the braces are unchanged, and the white space and comment after them are identical |
| InlineTable.SegmentsAreKept | src/codex-integration-document.ts:489-512 | every segment but the one set stays byte for byte, apart from white space that stays at the end of the body; a blank segment is there afterwards if and only if one was there before beside another |
| InlineTable.EmptyFieldExactlyWhen | src/codex-integration-document.ts:489-512 | for every parsed table, the managed one has an empty field if and only if it had one, or `enabled` is added after a trailing comma |
| InlineTable.TrailingComma | src/codex-integration-document.ts:508-511 | the raw value `{ a = 1, }` parses, and its managed value is `{ a = 1,, enabled = false }` |
| InlineTable.CutIsClosed | src/codex-integration-document.ts:115-150 | cutting a balanced body at its top-level commas gives balanced segments that join back to it |
| InlineTable.JoinIsCut | src/codex-integration-document.ts:115-150 | joining balanced segments and cutting again gives them back |
| InlineTableReads.ReadExactlyWhen | src/codex-integration-document.ts:115-197 | which inline tables are read: for any fields with their white space, quoted keys, nested values and a trailing comment, parsing succeeds if and only if every field has a key and at most one is `enabled`, in any of its three spellings, set to `true` or `false`; the answer is that value |
| InlineTableReads.NamesExactlyWhen | src/codex-integration-document.ts:67-80 | the spellings of the key: bare, single-quoted, or double-quoted as JSON reads it |
| InlineTableReads.QuotedIsWhole | src/codex-integration-document.ts:115-150 | commas, brackets, signs and escaped quotes inside a double-quoted string are not seen |
| InlineTableReads.LiteralIsWhole | src/codex-integration-document.ts:115-150 | nor inside a single-quoted one, where a backslash means nothing |
| InlineTableReads.BracketsAreClean | src/codex-integration-document.ts:115-150 | nor commas inside a balanced array or nested table |
| InlineTableReads.QuotedExample | src/codex-integration-document.ts:115-197 | a quoted `enabled`, an array and a comment on one line are read as `true` |
| LineShapes.HeaderExactlyWhen | src/codex-integration-document.ts:25-28 | a line is a table header if and only if it splits as the pattern says: white space, bracket, a name without `]`, one or two brackets, white space and perhaps a comment |
| LineShapes.TableExactlyWhen | src/codex-integration-document.ts:348-365 | and the header of a given table if and only if the name in brackets stands there |
| LineShapes.AssignedExactlyWhen | src/codex-integration-document.ts:29-31 | a line assigns a value to a key if and only if it splits into key, equals sign and value with white space around each; a blank value counts as its last character |
| Guards.StringExactlyWhen | src/codex-integration-document.ts:199-210 | a value is read as a string if and only if it is single-quoted, or double-quoted and JSON reads it, whatever white space and comment surround it |
| Guards.TopFound | src/codex-integration-document.ts:212-223 | a key before the first table is absent, or read where its only line is, or an error |
| InlineTableScan.TopLevelEquals | src/codex-integration-document.ts:82-113 | the loop finds the first equals sign outside quotes and brackets |
| InlineTableScan.CutBody | src/codex-integration-document.ts:115-160 | the loop cuts where the specification cuts, and fails exactly when it does |
| InlineTableScan.ParseInlineBooleanField | src/codex-integration-document.ts:115-197 | the scanner fails, finds no table, or returns the indices of the field exactly as the specification says |
| InlineTableScan.ManagedValue | src/codex-integration-document.ts:489-512 | the value spliced from the scanner's indices is the specified managed value |
| ConfigMethods.RemoveManagedComment | src/codex-integration-document.ts:335-341 | the descending loop removes every managed comment |
| ConfigMethods.SetScalarFeature | src/codex-integration-document.ts:366-386 | a feature line is replaced, or appended to its table, which is appended first when missing |
| ConfigMethods.SetAgentMaxDepth | src/codex-integration-document.ts:443-463 | the depth line is replaced, or put before the blank lines that end its table |
| ConfigMethods.ManagedMultiAgentV2AssignmentLine | src/codex-integration-document.ts:489-512 | the managed line in the form the setting has, spliced from the indices the scanner finds |
| ConfigMethods.SetMultiAgentV2 | src/codex-integration-document.ts:542-562 | `multi_agent_v2` is set in the form it has: scalar, inline table or table |
| ConfigMethods.InstallCompatibilityV1Features | src/codex-integration-document.ts:514-570 | the text and the record of the three feature edits, or the error of the first that fails |
| ConfigMethods.InstallRouteInto | src/codex-integration-route.ts:230-281 | the text and the record of the route edit, or its error |
| ConfigMethods.InstallConfiguredRoute | src/codex-integration.ts:52-94 | the route and then, in Compatibility V1, the features |
| ConfigMethods.RestoreBooleanFeature | src/codex-integration-document.ts:626-660 | a feature is put back or removed, with its emptied table and that table's recorded separator |
| ConfigMethods.RestoreMultiAgentV2Feature | src/codex-integration-document.ts:662-703 | `multi_agent_v2` is put back in the form it had |
| ConfigMethods.RestoreCompatibilityV1AgentDepth | src/codex-integration-document.ts:759-791 | the depth is put back or removed, with its emptied table and that table's recorded separator |
| ConfigMethods.RestoreManagedRoute | src/codex-integration-route.ts:432-484 | restoring verifies first, then undoes the route and the features |
| Intact.CheckExactlyWhen | src/codex-integration-route.ts:283-330 | the check of an installed file passes if and only if, before the first table, the only route line decodes to the recorded URL, the only realtime line reads word for word as written, the two other keys read, the marker is there, and in Compatibility V1 each managed line stands word for word in its table and nowhere else in it, with no second form of `multi_agent_v2` |
| Intact.InstallIsRecorded | src/codex-integration-document.ts:514-570 | whatever Compatibility V1 installs is recorded in the way that theorem asks for |
| Intact.RestoresExactlyWhen | src/codex-integration-route.ts:432-484 | a native file is restored if and only if the route in it is as it was written, whatever else the user has changed |
| Guards.RestoreRefusesNewer | src/codex-integration-route.ts:283-330 | in either protocol, whatever text is restored holds all that: a text in which the user has changed the route or a managed line is refused |
| Guards.InstallRecords | src/codex-integration-route.ts:230-281 | what an installation records of the route is what stood in the file, and it replaces a route only when allowed |
| Guards.InstallWrites | src/codex-integration-route.ts:230-281 | the installed text carries the URL it was given, the realtime line, the marker and every managed line word for word |
| Guards.InstallKeepsDepth | src/codex-integration-document.ts:514-541 | what Compatibility V1 records of the features is what stood in the file, and the depth it installs is the larger of the user's own and two |
| Guards.RestoredCheckExactlyWhen | src/codex-integration-route.ts:332-412 | the check of a disconnected native file passes if and only if the route and realtime keys are back as recorded and no managed comment is left |
| Guards.FeaturesAreBack | src/codex-integration-route.ts:332-412 | and in Compatibility V1 only when every setting stands in its recorded line and place, or is absent as recorded |
| ConfigRoundTrip.NativeRoundTrip | src/codex-integration-route.ts:230-281 | for every terminated text without managed comments that installs: the installed text passes `verifyInstalledRoute`, and restoring gives the original bytes |
| ConfigRoundTrip.CompatibilityRoundTrip | src/codex-integration-document.ts:514-570 | the same with the Compatibility V1 features, in every form they can have: restoring succeeds, and gives the original bytes if and only if no gap is left; otherwise exactly one empty line more at the end |
| InstallSucceeds.InstallsExactlyWhen | src/codex-integration.ts:52-94 | setting up succeeds if and only if the route keys read and may be replaced and, in Compatibility V1, the settings of the features read, on the original text: no step fails on what an earlier one wrote |
| InstallSucceeds.GapForeseen | src/codex-integration-document.ts:530-535 | the gap is left if and only if a condition on the original text holds: no agents table, a blank last line, a feature edit that reaches the end of the file, and a table or a route already in the file |
| InstallSucceeds.GapExample | src/codex-integration-document.ts:443-453 | a concrete text that does not come back: `[x]` and an empty line gain one empty line |
| RouteRoundTrip.RouteInstalls | src/codex-integration-route.ts:254-280 | where the route lines and the marker go, and what the journal records of the lines before |
| RouteRoundTrip.RouteVerifies | src/codex-integration-route.ts:283-310 | a file that holds the route passes the route part of the check, whatever else was added before its first table |
| RouteRoundTrip.RouteRestores | src/codex-integration-route.ts:437-460 | restoring the route gives back the lines before the first table and leaves the others alone |
| FeaturePlan.FeaturesInstall | src/codex-integration-document.ts:526-569 | the three feature edits are the specified edits of tables, whichever tables and settings were there |
| FeatureRestore.V2Restores | src/codex-integration-document.ts:662-703 | restoring `multi_agent_v2` undoes its edit under the two others |
| FeatureRestore.MultiAgentRestores | src/codex-integration-document.ts:626-660 | restoring `multi_agent` undoes its edit, with the table and separator it added |
| FeatureRestore.DepthRestores | src/codex-integration-document.ts:759-791 | restoring the depth undoes its edit, and leaves a separator exactly when it was written but not recorded |
| V2Inline.InlineManaged | src/codex-integration-document.ts:489-512 | the managed line of an inline `multi_agent_v2` reads as false and may be put back |
| Journal.CrashesAreRecovered | src/codex-integration-journal.ts:150-197 | from equal copies, over every run of saves, failing saves and reads, each stopped at any point, with each save going to a state whose journal and config match only each other: the read returns the journal of the config on disk and a completed repair leaves both copies equal to it |
| Journal.ReadIsRight | src/codex-integration-journal.ts:150-197 | a disk with at most one stale copy is read right and repaired |
| Journal.ReadExactlyWhen | src/codex-integration-journal.ts:150-197 | on every disk: a read gives a journal if and only if both copies hold it, or the primary does and there is no recovery copy, or a copy that describes the config does and the other does not describe it, corrupt or not; repairing then leaves both copies equal to it; otherwise nothing changes |
| Journal.FirstSave | src/codex-integration-shared.ts:350-363 | with no journal yet, a save stopped after its first write is the only one no read accepts |
| Journal.FirstUndo | src/codex-integration-shared.ts:329-344 | and of a first save rolled back part of the way, exactly those whose recovery copy is left beside the original config |
| Journal.Store.ReadJournal | src/codex-integration-journal.ts:150-197 | the read returns the specified choice and repairs the copies in the specified order |
| StateFiles.SaveIsItsWrites | src/codex-integration-shared.ts:350-363 | the three writes of `writeIntegrationState`, stopped after any of them, leave the stopped save of the journal model |
| StateFiles.UndoIsItsWrites | src/codex-integration-shared.ts:329-337 | the rollback of a save, in reverse and stopped anywhere, leaves the stopped undo of the journal model |
| StateFiles.WriteIntegrationState | src/codex-integration-shared.ts:350-363 | the save writes recovery copy, config and primary copy and removes the models cache, all or nothing |
| FileWrite.Disk.RollBack | src/codex-integration-shared.ts:329-337 | every snapshot that can be restored is, last one first; the paths that cannot are returned |
| FileWrite.Disk.WriteFilesWithCompensation | src/codex-integration-shared.ts:317-344 | all new contents exactly when no write or removal fails; otherwise every path is as before, named twice or not, but for those whose own restore fails, which are exactly the ones reported |
| Separation.NeverBoth | src/codex-integration-journal.ts:137-148 | no text passes both the check of an active journal and that of an inactive one |
| Separation.NativeSeparates | src/codex-integration-route.ts:168-171 | native: the installed and the original text each pass only the check of their own journal |
| Separation.CompatibilitySeparates | src/codex-integration-route.ts:332-412 | Compatibility V1: the same, and also for what restoring gives when a gap is left |
| Connections.ReversibleExactlyWhen | src/codex-integration.ts:344-438 | disconnect and connect lead from the installed state to the original one and back if and only if no gap is foreseen |
| Connections.EventFollows | src/codex-integration.ts:344-438 | one connect, disconnect or read, stopped or rolled back anywhere, keeps the files recoverable and moves at most one state on, as the config shows; one that is not stopped leaves both copies equal |
| Connections.RunsAreRecovered | src/codex-integration.ts:344-438 | over any run, with any chain of states told apart: the read returns the journal of the state the config is in, and the next whole connect or disconnect reaches its state |
| Connections.ReversibleOverAllRuns | src/codex-integration.ts:344-438 | after an installation that leaves no gap, over any run of connects, disconnects and reads, each stopped or rolled back anywhere: the config is the installed or the original text byte for byte, the read returns its journal, and the next whole disconnect leaves the original text |
| Gaps.OneRound | src/codex-integration.ts:344-438 | one connect and disconnect of a file that leaves a gap adds one empty line and changes no answer the editor asks of it |
| Gaps.GapsOverAllRuns | src/codex-integration.ts:344-438 | for such a file, over any run stopped or rolled back anywhere, with n events that changed the config: it is the original and n/2 (rounded up) empty lines when disconnected, the installation of that text with n/2 when connected, and the read returns its journal |
| Gaps.FirstSetUp | src/codex-integration.ts:302-341 | the first setup, stopped after any write or failing and rolled back up to any point: every later step fails and changes nothing if and only if the recovery copy is left alone beside the original config; with the config written the next read completes it; otherwise no journal is there |
| Unterminated.UnterminatedRoundTrip | src/codex-integration-route.ts:230-281 | for every text with breaks LF or CR LF and an unterminated last line: setting up the native route succeeds exactly when the route may be installed; then the installed text passes its check and restores to the original bytes if and only if no line is put right before the last one, and otherwise fails its check and is refused |
| Unterminated.LostExample | src/codex-integration-document.ts:322-323 | a concrete text that is lost: `a = 1` and `[x]` without a newline |
| UnterminatedCompatibility.UnterminatedFeatures | src/codex-integration-document.ts:514-570 | the same with the Compatibility V1 features: setting up succeeds exactly when the route may be installed and the settings read, or a route line goes right before the last one; the installed text passes its check if and only if no route line and no feature line does; then restoring gives the original bytes, or those and one line break exactly when a gap is left; otherwise it is refused |
| UnterminatedCompatibility.LostFeaturesExample | src/codex-integration-document.ts:322-323 | the same concrete text is lost here, too |
| UserEdits.UserEditsSurvive | src/codex-integration-document.ts:272-275 | restoring the native route on any accepted text, however the user has edited it, keeps every line that is not managed as it is, in order and with its terminator, and adds only the recorded lines |
| CompatibilityEdits.UserEditsSurviveFeatures | src/codex-integration-document.ts:626-791 | the same for Compatibility V1, but for at most one line that reads exactly as the managed line of each setting, the header of a table the installation had made and that is blank by now, and the separator recorded before it |
| DrainGates.EveryWaitSettlesOnce | src/drain-gate.ts:58-79 | over every run each wait begun is still on or settled exactly once; only a draining gate that is not shut down holds waiters |
| DrainGates.ResumeSettlesInOrder | src/drain-gate.ts:45-49 | a resume lets every waiter through in order of arrival, and does nothing once shut down |
| DrainGates.ClosedForGood | src/drain-gate.ts:52-56 | after a shutdown nothing is let through again |
| DrainGates.SettlementsStay | src/drain-gate.ts:58-79 | a settlement is never taken back or changed |
| DrainGates.WaitBegins | src/drain-gate.ts:58-62 | over every run, a wait is told of a shutdown, let through, told of its own abort, or put last, tested in that order |
| DrainGates.WaitEnds | src/drain-gate.ts:65-74 | its timer settles it as timed out and its signal as aborted, and no other wait is touched |
| DrainGates.DrainAndClose | src/drain-gate.ts:40-56 | a drain settles nothing; a shutdown tells every waiter, in order |
| DrainGates.DrainGate.ResumeWaits | src/drain-gate.ts:45-49 | the new state and the settlements of a resume |
| DrainGates.DrainGate.CloseGate | src/drain-gate.ts:52-56 | the new state and the settlements of a shutdown |
| DrainGates.DrainGate.BeginWait | src/drain-gate.ts:58-75 | a wait settles at once or joins the waiters |
| DrainGates.DrainGate.FinishWait | src/drain-gate.ts:65-70 | a timer or an abort settles a wait only while it is on |
| Admission.RequestsAreConserved | src/server.ts:1464-1511 | over every run, requests that arrived = active turns + finished turns + held requests + those turned away; a held request is never counted as active |
| Admission.TurnsStartExactlyWhen | src/server.ts:1464-1511 | a step starts exactly one turn for a request arriving while nothing drains, those let through for a resume, and none otherwise |
| Admission.IdleUntilResume | src/server.ts:1233-1239 | after a drain reply with no active turn, over any events but a resume, the server drains and no turn becomes active |
| Admission.ResumeAdmitsInOrder | src/drain-gate.ts:182-285 | a resume runs every held request whose stream is still there, in order of arrival |
| Admission.NothingAfterShutdown | src/server.ts:1536-1552 | once shutting down nothing is held and no turn ever starts |
| Admission.FatesAreFinal | src/server.ts:1464-1511 | a request that was admitted, refused or turned away stays so |
| Admission.ShutdownCutsNothingShort | src/server.ts:1356-1371 | a shutdown granted over the control route finds no active turn unless a resume came in between |
| Admission.ArrivesWhileDraining | src/server.ts:1464-1511 | for every state: a draining server holds a live streaming or compaction request under its kind, last among the waiters; turns an aborted one away as aborted and one after a shutdown as shut down; and refuses any other kind |
| Admission.ArrivesWhileOpen | src/server.ts:1464-1511 | one that does not drain makes every request a turn at once |
| Admission.HeldUntilDecided | src/drain-gate.ts:182-285 | over every run, a held request waits until the first event that ends its hold, and that event decides for good: admitted by a resume unless its stream broke, timed out when the hold expires, aborted when the client leaves, turned away by a shutdown |
| Admission.DrainsOnly | src/server.ts:1233-1239 | the drain route stops new turns and touches nothing else |
| Admission.TurnsGoOn | src/server.ts:246-310 | what happens to a running turn changes neither the gate nor any request |
| Admission.Daemon.HandleDrain | src/server.ts:1233-1239 | the drain route and its report |
| Admission.Daemon.HandleResume | src/server.ts:1233-1239 | the resume route; its report is made before the held requests go on |
| Admission.Daemon.Receive | src/server.ts:1464-1511 | a request becomes a turn, waits, is refused or is answered at once |
| Admission.Daemon.ShutDownNow | src/server.ts:1536-1541 | a shutdown turns every held request away |
| Admission.Daemon.EndHold | src/drain-gate.ts:182-285 | an expired or abandoned hold is turned away |
| Admission.Daemon.HandleShutdown | src/server.ts:1356-1371 | granted exactly while draining with no HTTP turn and no browser turn |
| Negotiation.NegotiateDrain | src/service.ts:210-244 | the calls made and whether a lease results, as specified |
| Negotiation.Lease.Release | src/service.ts:226 | a release resumes once; a failed one may be tried again |
| Negotiation.LeaseMeansIdle | src/service.ts:210-244 | a lease results exactly when the daemon was reached, answered, and had no HTTP or browser turn; then no HTTP turn becomes active before a resume |
| Negotiation.FailureCompensates | src/service.ts:227-243 | every failed negotiation attempts exactly one resume after its drain |
| Negotiation.FailureReopens | src/service.ts:227-243 | if that resume reaches the daemon, turns are accepted again and none is held, unless it is shutting down |
| Negotiation.SecondControllerBreaksTheLease | src/service.ts:210-244 | with a second controller a lease proves nothing: a concrete run |
| TurnCounter.InterruptAfterBind | src/server.ts:229-244 | a turn interrupted while bound and active is aborted for as long as it is active |
| TurnCounter.InterruptBeforeBind | src/server.ts:285-296 | binding aborts the turn exactly when something had aborted it already or its identity was interrupted before with at most 1,023 other identities interrupted since |
| TurnCounter.BindAbortLasts | src/server.ts:285-296 | and that abort lasts |
| TurnCounter.SettlementWaitsForAll | src/server.ts:229-244 | over every run, the settlement of an interrupt comes at most once, and has come exactly when every turn the interrupt matched has been released |
| TurnCounter.CancelAllAborts | src/server.ts:211-218 | over every run, every turn active at a cancellation of all is aborted as long as it is active, with that reason unless it was aborted before, which keeps its own |
| TurnCounter.CancelAllSettles | src/server.ts:211-218 | and the cancellation settles once, exactly when every one of them is released |
| TurnCounter.ClientAborts | src/server.ts:280-283 | over every run, a client that leaves aborts its own turn in the same way and no other |
| TurnCounter.InterruptAborts | src/server.ts:229-244 | over every run, an interrupt aborts the active turns of its identity in the same way |
| TurnCounter.AbortHasACause | src/server.ts:211-296 | no turn is aborted but by a cancellation of all, an interrupt of its identity, its binding to an interrupted identity or its client, and with that reason |
| TurnCounter.BindsExactlyWhen | src/server.ts:285-292 | a binding is accepted if and only if both ids are visible and no other identity was bound before; a refused one changes nothing |
| TurnCounter.TrackedFresh | src/server.ts:246-266 | a tracked turn is new, without identity and not aborted |
| TurnCounter.ReleasedOnce | src/server.ts:266-279 | a release ends one turn, once |
| TurnCounter.RunIsAccounted | src/server.ts:246-310 | every id ever given out is active or released, and released once |
| TurnCounter.OthersAreUntouched | src/server.ts:229-296 | interrupts and bindings touch no turn of another identity |
| TurnCounter.KeysSeparate | src/server.ts:190-192 | ids without U+0000 have distinct tombstone keys |
| TurnCounter.TombstonesFollowHistory | src/server.ts:194-203 | the tombstones are the most recent 1,024 interrupted identities, as a function of the history |
| TurnCounter.HttpTurnCounter.BeginCancelTurn | src/server.ts:229-244 | the matched turns, their aborts and the tombstone of one interrupt |
| TurnCounter.HttpTurnCounter.CancelAllTurns | src/server.ts:211-218 | every active turn is aborted and matched |
| TurnCounter.HttpTurnCounter.BindIdentity | src/server.ts:285-296 | a binding is refused, or recorded and perhaps aborted |
| TurnCounter.HttpTurnCounter.TrackTurn | src/server.ts:246-268 | a new turn is active under a new id |
| TurnCounter.HttpTurnCounter.ReleaseTurn | src/server.ts:269-279 | a turn is released at most once |
| CatalogCache.LookupAgrees | src/model-catalog-cache.ts:162-196 | with a clock that does not go back, a lookup gives the latest remembered catalog of its key exactly while its age is within the limit and at most seven other keys were remembered since; at most eight entries are kept |
| CatalogCache.ServedAsRemembered | src/model-catalog-cache.ts:162-196 | with a clock that does not go back, over every history, a remembered catalog is served with its time, its age in whole seconds and its etag of 1 to 512 characters, if and only if it is young enough and fewer than eight other keys were remembered since |
| CatalogCache.LastGood.Remember | src/model-catalog-cache.ts:162-183 | the entries after a store agree with the history and the bound |
| CatalogCache.LastGood.Lookup | src/model-catalog-cache.ts:185-196 | a lookup returns what the history says |
| Recency.LookupAgreesWithHistory | src/model-catalog-cache.ts:171-181 | a bounded newest-last map answers with the latest store exactly while fewer other keys than the bound were stored since |
| CatalogMerge.MergeKeepsNatives | src/cliproxy.ts:235-274 | native rows are the prefix of the merge; the added rows are new, distinct and of strictly increasing priority above every native one, and are the ones reported; the size is as the page allows |
| CatalogMerge.EveryProxyRowIsSettled | src/cliproxy.ts:248-264 | every proxy row is added, or rejected with its reason, or skipped for its slug |
| CatalogRows.RowsExactlyWhen | src/cliproxy.ts:240-264 | a row is added if and only if it is the proxy row with its slug and visibility, its other fields cleaned, ranked by its place above every native row, its slug neither reserved, native nor that of an earlier passing row, and passes the schema; a row is refused if and only if it is such a row and does not pass, with its first bad field |
| CatalogRows.DroppedExactlyWhen | src/cliproxy.ts:265-274 | an added row is served unless the fair drop takes it, and the slugs reported as dropped are exactly those |
| CatalogMerge.DropSetIsFair | src/model-catalog-schema.ts:105-128 | rows are dropped in the order of need: unlisted ones first, then listed ones from the end, as many as the excess |
| CatalogMerge.FairDropIsUnique | src/model-catalog-schema.ts:105-128 | there is only one such choice |
| CatalogMerge.WithinCatalogPage | src/model-catalog-schema.ts:105-128 | the two loops keep and report exactly what the choice says |
| CatalogMerge.MergeCliProxyModels | src/cliproxy.ts:235-274 | the loop over the proxy rows gives the specified merge |
| UncleanClose.DecisionIsChunkIndependent | src/native-passthrough.ts:160-213 | for every cut into chunks, a reset closes normally exactly when a line of the whole text, complete or not, is `data: [DONE]` after dropping one CR; bytes forwarded are the bytes received |
| UncleanClose.CleanEndCloses | src/native-passthrough.ts:187-207 | for every cut into chunks, a clean end closes the stream whatever its text was, with all bytes forwarded, and nothing read later changes that |
| UncleanClose.ReportedExactlyWhen | src/native-passthrough.ts:187-207 | an unclean close is reported, with the bytes forwarded, exactly for a reset after a terminator line; the stream fails exactly for a reset without one |
| UncleanClose.TerminatorIsExact | src/native-passthrough.ts:160-180 | only the exact terminator counts, with or without a carriage return |
| UncleanClose.ForwardsWhatItReceives | src/native-passthrough.ts:187-207 | whatever comes, what is forwarded are the received bytes up to the end or reset, in order |
| UncleanClose.InspectMeaning | src/native-passthrough.ts:171-180 | the buffer is the text after the last line feed, and completion means a complete terminator line |
| UncleanClose.Relay.Pull | src/native-passthrough.ts:187-207 | one pull of the object is one step of the specification |

## Left out

- StreamRefinesBatch: covers no hidden thinking, no compaction and no signed or redacted reasoning, and only nonempty deltas and call ids, because the two translations differ there by design; an upstream throw has no batch counterpart.
- NativeRoundTrip, CompatibilityRoundTrip: the interrupt hook is an identity step, since it rests on a TOML parser and built patterns.
- CompatibilityRoundTrip: for texts that are empty or end in a newline; `UnterminatedFeatures` is about the others.
- UserEditsSurvive, UserEditsSurviveFeatures: for texts that are empty or end in a newline; the second one also takes the recorded lines to be single lines and, in a file without a byte order mark at its start, none at the start of a line.
- ReversibleOverAllRuns, GapsOverAllRuns: take no edits of the config by anyone else between the steps, and stay within one protocol; a switch between native and Compatibility V1 does not separate the two configs.
- RestoresExactlyWhen: native only; in Compatibility V1 the check is characterised by `CheckExactlyWhen`, and that restoring then also succeeds is proved for the texts an installation writes.
- FeaturesAreBack: says what an accepted Compatibility V1 file holds, and not that every file which holds it is accepted.
- ResponseHoldsWhatWasSaid: hidden thoughts are the matter of `ResponseIsSealed`, and compaction turns of `SummaryHoldsAllText`; parsing and unwrapping of arguments are functions given to the bridge.
- InstallsExactlyWhen: an error is an error; which message it carries is not compared with the source.
- CrashesAreRecovered: a rollback in which a single write fails while others go on, and snapshots that cannot be read, are not covered; `WriteFilesWithCompensation` says which paths then differ. The removal of the models cache is part of `WriteIntegrationState` but not of the runs.
- LookupAgrees, ServedAsRemembered: no load from the cache file and no write to it.
- MergeKeepsNatives: the catalog row checks are functions given to the merge, and a row is identified by its position.
- DecisionIsChunkIndependent: decoding bytes to text is part of each chunk; that a streaming decoder does not depend on chunks is taken for granted.
- LeaseMeansIdle: browser turns are a number reported by each call; a drain request that gives up and arrives after the resume that compensates it is not covered.
- RequestsAreConserved: HTTP turns only, not browser sessions, compactions or broker counts.
- Journal versions 2 to 9, `replacementBaseline`, `preflightCodexIntegration` and uninstalling: near copies of version 10.
- The checks that the config file exists and is the one the journal names, and the validation and format field of a parsed journal: a journal file is absent, unreadable or holds a journal.
- File permissions, symbolic links, temporary files: a write replaces a file's content or fails.
- Usage counts, provider state, first-output and log callbacks, response ids and wire encoding of the stream.
- The forms of the platform's stream adapters: the Windows `tee` branch and push pump (src/server.ts:345-395, src/bridge.ts:855-898), and heartbeats and backpressure of a held stream.
- Error classification, compaction and reasoning codecs, response state: opaque values.
- Model routes, doctor checks, setup, command line, launcher, smoke and build scripts.
