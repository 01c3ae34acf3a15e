# The OT engine of collab-mode, in Dafny

collab-mode lets several people edit one file. One host owns the file and is its server;
everybody, the owner included, is a client. Edits are operations: an insertion, or a mark
that makes stretches of text live or dead (deleted characters stay as tombstones). The
server puts all operations in one order. A client applies its own operations at once,
sends them in batches, and waits for a batch to come back before it sends the next one
(stop-and-wait); operations of others that arrive in between are transformed against its
pending ones, and those against them. Undo generates an operation that reverses an earlier
one, carried over everything that happened since.

This project models that engine and proves what it is for. `dafny verify dfyconfig.toml`
checks all of it.

## How the files fit together

The operation algebra:

- `Ops.dfy`: operations, pairwise transformation, and the loops that lift it to lists.
- `Documents.dfy`: the document as operations see it, text with tombstones and a liveness
  flag for every character; what applying an operation means, and when it makes sense.
- `Transformation.dfy`, `Marks.dfy`: TP1 and IP3 with the exact condition for each, and
  what transformation keeps.
- `Convergence.dfy`, `ListConvergence.dfy`: TP1 for one operation against a list and for a
  list against a list, with the exact conditions.

The run-length document:

- `Ranges.dfy`, `RangeIterators.dfy`, `Runs.dfy`, `Splices.dfy`, `MarkSplices.dfy`:
  ranges, cursors, and what replacing ranges by others means.
- `Views.dfy`, `Segments.dfy`: the text the editor shows, and edits to it.
- `Showing.dfy`, `ShowConvergence.dfy`: what is shown of an operation, whether or not it
  quotes the text it marks, and TP1 for what is shown, with the exact conditions.
- `InternalDoc.dfy`: the class with its ranges and one cursor per site. Its abstract value
  is `Flags()`, the liveness of every character; the characters themselves are passed as
  ghost arguments, since the source does not store them.

Engines and sessions:

- `Engines.dfy`, `UndoGeneration.dfy`: engine state as a value, and each operation on it
  as a function.
- `GlobalHistory.dfy`, `ClientEngine.dfy`, `ServerEngine.dfy`, `RemoteDoc.dfy`: the objects
  that compute these functions in place, with the internal document and the text buffer
  beside them. `ServerEngine.dfy` also has the hosted document.
- `Sessions.dfy`: one server and any number of clients as a state machine. Edits are
  anywhere in bounds, undo and redo are what the engine generates, deliveries are lost,
  repeated and reordered, missed operations are requested, hosts close and reopen the
  document, and the file changes on disk.
- `SessionInvariants.dfy`, `SessionHistories.dfy`, `SessionProofs.dfy`: the invariant
  `Healthy`, what it says about a client's own history, and that every step keeps it.
- `SessionTheorems.dfy`, `SessionQuotes.dfy`: what follows for every run.
- `Screens.dfy`, `PlainScreens.dfy`: beside the session, what everybody shows: the server's
  buffer and the text of every client; when these converge.
- `SessionExamples.dfy`, `Divergence.dfy`, `ScreensDiverge.dfy`, `UndoMisses.dfy`,
  `Refusals.dfy`: runs from an empty session in which a promise is not kept.
- `Together.dfy`: a run in which two clients insert at one place.
- `Composition.dfy`: what the objects' methods require holds in every healthy session, and
  what they do are its steps.
- `Diff.dfy`: changes made to the file outside any editor.

Undo:

- `Tracking.dfy`: where a character is later, and what undo marks.
- `Layers.dfy`, `LinearUndo.dfy`: for a single user, the history with its undo queue is a
  timeline of texts.
- `Pointers.dfy`: undo pointers and undo deltas follow operations by identity.

## What is proved, in short

- No run fails: no sequence check of an engine fires and no operation is out of bounds,
  undo and redo included (`EveryRunIsHealthy`). A client is lost exactly if, after a request
  for missed operations, a batch of its comes to the server that does not begin with
  number 1 (`DropsIff`, `BatchIsRefused`). A client asks exactly when a delivery leaves a
  gap (`DeliverStep`); without gaps nobody is lost (`GaplessRunsLoseNobody`).
- Of two insertions at one place that of the smaller site comes first, for everybody
  (`SmallerSiteFirst`, `SmallerSiteFirstForAll`).
- What arrives changes neither numbers nor group of what a client has pending, nor
  what its next undo takes (`RemoteKeepsTags`, `ArrivalsKeepEntries`); the server changes
  only payload and global number (`SequencingChangesOnly`). An undo that the editor fetched
  before the history grew is refused (`CommandAfterEdit`, `CommandAfterArrival`).
- A session's document is what its histories make of the starting text, tombstones and all.
  Every client's document is the replay of the server's history up to the client's position
  followed by its pending operations (`ClientsConverge`). Two clients may show such a
  document differently, since text that a mark brings back is shown as the mark quotes it.
- What is shown is followed beside that. One operation and a list give the same to see in
  both orders if and only if no character that the operation marks has an opposite mark as
  the last one of the list, and where both bring a character back they quote it alike
  (`OneShownAgainstList`). Where that holds at every arrival, a client that has caught up
  shows the server's text to the character (`BuffersConverge`, `BuffersAreEqual`). It holds
  in every run that brings nothing back, and whenever editors, disk changes and commands
  make marks that quote the text, as far as opposite marks do not meet
  (`UnrevivedBuffersConverge`, `QuotingBuffersConverge`).
- `LivenessCanDiverge` is a run in which opposite marks meet and a client that has caught up
  has a character deleted that is live at the server. `ScreensCanDiverge` is a run in which
  none meet and a client shows other text than the server: a redo after an undo that went
  astray brings another site's "r" back as "a".
- Liveness of documents stays together in a step exactly as `ReceiveConvergesIff` says; for
  two lists, exactly if no character's last marks on the two sides conflict
  (`ListAgainstList`).
- In every session, what is generated to undo an operation marks exactly the characters
  that the operation touched, if and only if none of these comes between a later
  insertion's place at the server and its place in the client's history
  (`UndoTargetsIff`). In a history that replays that is always so (`UndoTargeting`), and
  for a single user undo and redo move along a timeline of texts
  (`LinearUndoRestoresText`).
- A client stops sending for good exactly after a command that yields no operation when
  everything before it was sent, or a batch sent when its last command yielded none
  (`StepSticksIff`, `StuckForever`, `ClientGetsStuck`).
- `apply_ins`, `apply_mark_dead`, `apply_mark_live` and `convert_pos` refine the plain
  sequence of flags, keep ranges alternating and nonempty and every cursor exact, and no
  subtraction underflows.
- The edits sent to editors take the old visible text to the new one, whatever a mark
  quotes (`MarkShows`); if what editors, disk changes and commands make quotes the text it
  marks, so does everything that transformation makes of it (`StepKeepsQuotes`), and
  everybody is shown the documents themselves (`ScreensArePlain`).

## Where code and documentation differ

The model follows the code.

- `collab_mode/src/README.md:95` says that the document is always the one at the end of
  the history. A client that receives an operation while it has pending ones stores the
  transformed copy in front of them (`collab_mode/src/engine.rs:1618-1624`), and such a
  history need not replay. `UndoTargetsIff` says when undo is right all the same;
  `UndoMarksAnotherCharacter` is a run in which it deletes another site's text, and
  `ScreensCanDiverge` one in which buffers then differ for good.
- `collab_mode/src/README.md:181-184` says that tombstones solve every problem. IP3 holds except for
  two insertions of one site at one position (`InverseCommutes`), and opposite marks on
  the same text do not commute (`Tp1`, `LivenessCanDiverge`).
- The undo queue holds positions in the client's own history
  (`collab_mode/src/engine.rs:1575`) but is compared with the global sequence number
  (`collab_mode/src/engine.rs:1644-1650`). They differ for a client that joined later:
  `RemoteKeepsPointersIff`. `LateJoinerLosesPointer` is a run after which such a client's
  undo is an operation of another site, and out of bounds.
- An undo with nothing to undo uses up a site sequence number without an operation
  (`collab_mode/src/engine.rs:1522`), and the client may wait for that number for ever:
  `PendingOpsGoOutIff`, `StepSticksIff`, `StuckForever`, `ClientGetsStuck`.
- A comment at `collab_mode/src/engine.rs:371-373` says that the editor's position is always
  looked up as the beginning of dead text there. Where the cursor already stands behind
  that text, `collab_mode/src/engine.rs:334-336` returns the end: `LandsFirstIff`,
  `LandsAfterDead`. What is visible is the same.
- The comment at `collab_mode/src/engine.rs:1736-1737` calls the context of an undo the
  current global sequence number; it is the length of the whole history, pending
  operations included (`GenerateUndoOp`).
- A request for missed operations resets the site sequence number the server expects
  (`collab_mode/src/server.rs:3534`): `AfterRequest`, `BatchIsRefused`.
- A change on disk is compared with the visible text, but its positions are used as
  positions that count tombstones (`collab_mode/src/server.rs:3374-3396`):
  `DiffDenotesIff`, `TombstoneMisleadsDiff`.

## Hypotheses

- Segments, insertions and deletions are nonempty (`ValidOn`, `EditorOpFits`): the source
  breaks its own range invariant on an empty deletion.
- What an editor sends fits the text that it shows (`EditorOpFits`), and what is made in a
  session is in bounds where it is made (`Enabled`). That marks quote the text they mark
  is not assumed; `StepKeepsQuotes` says what follows when they do.
- A client gives an undo or redo command if the entries it takes are its own operations
  (`Enabled`), which for a client that joined at number 0 is always (`AlignedPointers`).
- In TP1, concurrent operations come from different sites. In sessions this is proved,
  not assumed (`OneBatchAtATime`).
- Lengths are in characters.
- `u32`, `u64` and `usize` are natural numbers; every subtraction is shown not to
  underflow.

## Model

| member | source | states |
|---|---|---|
| Ops.TransformOp | collab_mode/src/op.rs:139-154 | the loop over segments computes the pairwise transformation whose laws `Tp1`, `SmallerSiteFirst`, `InsertionsApart`, `InverseCommutes` and `TransformKeepsValid` state |
| Ops.BatchTransform | collab_mode/src/op.rs:257-261 | one operation carried over a list, metadata kept |
| Ops.SymmetricTransform | collab_mode/src/op.rs:266-275 | one operation against a list and the list against it, each as it stands when they meet |
| Ops.QuadraticTransform | collab_mode/src/op.rs:288-296 | both lists rebased over each other |
| Ops.ServerAgreesWithClient | collab_mode/src/op.rs:266-296 | the server's rebase, one batch operation at a time, equals the client's, one arriving operation at a time |
| Ops.RebaseOverAppend | collab_mode/src/engine.rs:1620-1623 | rebasing as operations arrive one after the other is rebasing over all of them |
| Ops.RebasePrefix | collab_mode/src/engine.rs:1620-1623 | operations appended later do not disturb those already sent |
| Transformation.Tp1 | collab_mode/src/op.rs:69-154 | S·A·B' = S·B·A' on every document if and only if the two are compatible: no opposite marks that meet, and for insertions at one position different sites or texts that commute |
| Transformation.SmallerSiteFirst | collab_mode/src/op.rs:65-87 | of two insertions at one position the text of the smaller site comes first, whichever is sequenced first; said of the document, without the comparison |
| Transformation.InsertionsApart | collab_mode/src/op.rs:65-87 | two insertions at different positions both end where their sites put them |
| Transformation.InverseCommutes | collab_mode/src/README.md:166-173 | IP3 holds if and only if the two are not insertions of one site at one position |
| Transformation.TransformSegsCovers | collab_mode/src/op.rs:90-126 | a transformed mark covers exactly the characters it covered, at their new positions, and nothing of the inserted text |
| Transformation.TransformFits | collab_mode/src/op.rs:139-154 | a transformed operation is in bounds after the other one |
| Marks.TransformKeepsShape | collab_mode/src/op.rs:90-126 | segments stay nonempty, in order and disjoint, and their concatenated text is conserved |
| Marks.SitesDoNotMatter | collab_mode/src/op.rs:90-126 | the three-way branch gives the same for all sites |
| Marks.TransformKeepsMatch | collab_mode/src/op.rs:90-126 | every segment that quotes the document text at its position does so after a concurrent insertion |
| Marks.TransformKeepsValid | collab_mode/src/op.rs:139-154 | an operation that can be applied to a document can be applied, transformed, after a concurrent one |
| Tracking.BatchKeepsMark | collab_mode/src/op.rs:257-261 | through any list of operations a mark keeps its shape, its concatenated text and what it quotes, and depends on no site |
| Convergence.OneAgainstList | collab_mode/src/op.rs:266-275 | TP1 for one operation against a list, in bounds at every step; the text always agrees, and liveness if and only if on no character that the operation marks the last mark of the list is the opposite one |
| Convergence.CompatibleIsHarmless | collab_mode/src/op.rs:152 | or if the operation, as it is carried along the list, is compatible with every member |
| Convergence.AgreeingIsHarmless | collab_mode/src/op.rs:152 | so liveness agrees if the list has no opposite mark at all |
| ListConvergence.ListAgainstList | collab_mode/src/op.rs:288-296 | TP1 for a list against a list: text always, liveness if and only if no character has conflicting last marks from the two sides |
| InternalDocs.InternalDoc.constructor | collab_mode/src/engine.rs:245-254 | a new document is all live |
| InternalDocs.InternalDoc.EditorLen | collab_mode/src/engine.rs:290-298 | the number of live characters |
| InternalDocs.InternalDoc.GetCursor | collab_mode/src/engine.rs:306-316 | the cursor of a site, at (0, 0) if it had none |
| InternalDocs.InternalDoc.SeekForward | collab_mode/src/engine.rs:352-368 | the walk to the right stops at the range in which the position lies |
| InternalDocs.InternalDoc.SeekBack | collab_mode/src/engine.rs:369-385 | so does the walk to the left; from the editor it never stops at the beginning of a live range but the first |
| InternalDocs.InternalDoc.ConvertPos | collab_mode/src/engine.rs:323-403 | to the editor: the number of live characters before the position, from any exact cursor; from the editor: the position of that rank that `Lands` says; the cursor left behind is exact and its range contains the position |
| InternalDocs.LandsFirstIff | collab_mode/src/engine.rs:371-384 | that is the first position of its rank, before any dead characters there, if and only if the cursor does not stand right behind such characters |
| InternalDocs.LandsAfterDead | collab_mode/src/engine.rs:334-336 | an exact cursor from which a position behind a dead character is returned |
| Splices.InsertInto | collab_mode/src/engine.rs:424-499 | each of the ways `apply_ins` splices ranges inserts live cells and keeps ranges alternating |
| Splices.ShiftedCursorOk | collab_mode/src/engine.rs:408-418 | cursors stay exact under the index shifts 0, 1 and 2 |
| InternalDocs.InternalDoc.ApplyIns | collab_mode/src/engine.rs:424-499 | in all seven cases: live cells inserted at the position, ranges alternating, every stored cursor and the caller's exact |
| MarkSplices.MarkFlags | collab_mode/src/engine.rs:505-688 | replacing the affected ranges by remainder, marked range and remainder sets exactly the interval |
| MarkSplices.MarkNormalized | collab_mode/src/engine.rs:505-688 | and leaves ranges alternating and nonempty |
| MarkSplices.RepairedOk | collab_mode/src/engine.rs:666-686 | every cursor is exact after the repair, and no subtraction in the shift underflows |
| InternalDocs.InternalDoc.MarkSpan | collab_mode/src/engine.rs:505-664 | the loop finds the ranges to replace, their replacement, and the maximal runs that flip |
| InternalDocs.InternalDoc.ApplyMarkDead | collab_mode/src/engine.rs:505-688 | the interval is dead and nothing else changed; returns exactly the maximal runs that were live; all cursors exact |
| InternalDocs.InternalDoc.ApplyMarkLive | collab_mode/src/engine.rs:692-860 | the same for making an interval live |
| InternalDocs.InternalDoc.MarkToInsOrDel | collab_mode/src/engine.rs:867-958 | one edit for every maximal run that the mark will flip, at its place in the editor and with its part of the text |
| InternalDocs.InternalDoc.CapturedEdit | collab_mode/src/engine.rs:883-947 | the three ways a range can meet the marked interval give the edit of the overlap |
| Views.EditsFlipRuns | collab_mode/src/engine.rs:1024-1058 | the edits of a mark, applied last one first, take the visible text before to the visible text after, none out of bounds |
| Views.VisibleInsert | collab_mode/src/engine.rs:1013-1023 | live text inserted at an internal position shows up at its rank |
| Views.EditBuffer | collab_mode/src/server.rs:568-599 | edits are applied last one first; fails exactly when one is out of bounds |
| Showing.MarkShows | collab_mode/src/engine.rs:867-958 | the edits computed for a mark take what is visible to what is shown after the mark, also when it quotes other text than the document has |
| Showing.ShowIff | collab_mode/src/engine.rs:1008-1064 | that is the document with the mark applied if and only if the mark quotes the dead characters it revives |
| Showing.ShowAllIs | collab_mode/src/engine.rs:1508-1570 | after any number of operations what is shown has the document's liveness, and is the document if all of them quote what they mark |
| ShowConvergence.TransformQuotes | collab_mode/src/op.rs:90-126 | a transformed mark quotes for every character, at its new position, what it quoted before |
| ShowConvergence.AlikeIff | collab_mode/src/engine.rs:867-958 | documents are alike if and only if the same characters are live and the same is to be seen |
| ShowConvergence.ShowAllAlike | collab_mode/src/engine.rs:1008-1064 | documents that are alike show the same after any number of operations: the text of dead characters, which the source does not keep, never matters |
| ShowConvergence.ShowSquare | collab_mode/src/op.rs:69-154 | TP1 as shown, for two operations: the two orders give the same if and only if the two are compatible and quote alike every dead character that both bring back |
| ShowConvergence.OneShownAgainstList | collab_mode/src/op.rs:266-275 | TP1 as shown, for one operation against a list: the same is to be seen both ways if and only if the operation is harmless, and no character that it brings back was first brought back otherwise by a list that never deletes it |
| ShowConvergence.QuotingIsUndisputed | collab_mode/src/op.rs:266-275 | operations that quote the text they mark are never in dispute |
| InternalDocs.InternalDoc.ConvertInternalOpAndApply | collab_mode/src/engine.rs:1008-1064 | the liveness becomes what applying the operation means, and the edit instruction takes the old visible text to what is shown after the operation, for every mark in bounds; if the mark quotes the text, every deletion names what the editor shows at its place |
| InternalDocs.InternalDoc.RunsToSegments | collab_mode/src/engine.rs:979-992 | the segments of a deletion concatenate to the deleted text |
| InternalDocs.InternalDoc.ConvertEditorOpAndApply | collab_mode/src/engine.rs:962-1004 | the visible text changes exactly as the editor says, and the emitted operation does the same to the document: an insertion lands where `Lands` says, a deletion marks exactly the live characters with the editor's numbers, in segments that are sorted, apart and concatenate to the deleted text |
| GlobalHistories.GlobalHistory.ProcessOpKind | collab_mode/src/engine.rs:1142-1199 | queue, tip and delta change as in `PushShape`; an error changes nothing |
| Engines.PushShape | collab_mode/src/engine.rs:1142-1199 | by how many entries are done: which entry a command replaces, what delta it gets, that an edit drops exactly the redo tail, and when undo and redo fail |
| GlobalHistories.GlobalHistory.MakeRoom | collab_mode/src/engine.rs:1626-1651 | the two loops shift exactly the deltas that reach before the pending section and the pointers past the given number; of a pending operation nothing else changes |
| Engines.RemoteKeepsPointersInRange | collab_mode/src/engine.rs:1593-1658 | whatever arrives, undo pointers stay in range |
| Engines.RemoteKeepsTags | collab_mode/src/engine.rs:1620-1636 | when another site's operation arrives, every pending operation keeps both its numbers and its group, and stays an original or an undo; of the arriving one only the payload changes, and nothing is done or undone |
| UndoGeneration.RemoteKeepsEntries | collab_mode/src/engine.rs:1620-1651 | so the next undo and redo take the same entries as before, unless an undo pointer lies between the length of the history and the global number, which for a client that joined at number 0 is never so |
| UndoGeneration.AckKeepsEntries | collab_mode/src/engine.rs:1604-1615 | and after an acknowledgement with the group of the first pending operation |
| ClientEngines.ClientEngine.constructor | collab_mode/src/engine.rs:1385-1394 | a new client engine |
| ClientEngines.ClientEngine.MaybePackageLocalOps | collab_mode/src/engine.rs:1437-1449 | sends all pending operations, with the current number as context, when nothing is unacknowledged, and only then |
| ClientEngines.ClientEngine.GenerateUndoOps | collab_mode/src/engine.rs:1678-1733 | the loop generates the operations whose targets `UndoTargetsIff`, `GeneratedTargets` and `LinearUndoRestoresText` state |
| ClientEngines.ClientEngine.ConvertDontApply | collab_mode/src/engine.rs:1463-1483 | the instructions take the view to what would be shown, and nothing changes |
| ClientEngines.ClientEngine.GenerateUndoOp | collab_mode/src/engine.rs:1739-1755 | what the editor is told to apply for an undo or redo gives what will be shown when the command comes back; the context is the length of the whole history |
| ClientEngines.ClientEngine.ProcessLocalOp | collab_mode/src/engine.rs:1508-1589 | which error for which input, said without the tests of the code: a wrong number, an empty insertion, a deletion in an empty document, an undo or redo whose context is not the length of the history, and that document and history then stay; otherwise what the command meant, own operations, the history with them pushed, the document as shown after them, and instructions that take the old view to the new one |
| ClientEngines.ClientEngine.ProcessRemoteOp | collab_mode/src/engine.rs:1593-1658 | which error for which input, with the state it leaves; an acknowledgement changes no document; another site's operation, transformed, changes what is shown as it says, whatever it quotes, the instruction takes the old view to the new one, and pending operations keep their numbers and group |
| ServerEngines.ServerEngine.ProcessOps | collab_mode/src/engine.rs:1790-1807 | the batch rebased over what its sender had not seen, numbered from the current number on, and added to the history; kind, group and site number of every operation stay |
| ServerEngines.HostedDoc.ApplyOp | collab_mode/src/server.rs:566-613 | the buffer stays equal to the view, and the length mismatch is never reached |
| ServerEngines.HostedDoc.HandleOpFromClient | collab_mode/src/server.rs:3446-3484 | which of the three answers for which batch, what is broadcast and recorded, and the whole server state after an accepted batch whose operations are in bounds, whatever they quote |
| ServerEngines.HostedDoc.HandleRequestOps | collab_mode/src/server.rs:3507-3546 | what the subscriber lacks is returned and its expected number is reset |
| ServerEngines.HostedDoc.ResetFromDisk | collab_mode/src/server.rs:3374-3397 | the state is that of the session's change on disk by the operations of the diff; the buffer becomes the new content if no tombstone comes before the end of the last change |
| RemoteDocs.RemoteDoc.HandleOpFromServer | collab_mode/src/server.rs:3629-3678 | the buffer grows by what continues it; one request for every operation beyond the one expected when it comes, asking for what follows the operations reached by then, and no other, so repeated and continuing operations cause none |
| RemoteDocs.RemoteDoc.ApplyInstructionUnchecked | collab_mode/src/server.rs:647-681 | edits are applied last one first |
| RemoteDocs.RemoteDoc.HandleEditorOp | collab_mode/src/server.rs:3783-3800 | when it is refused, a stale undo or redo among them, which leaves document and history alone; otherwise engine and buffer take an editor operation together as operations of the client's own site, and the lengths agree |
| RemoteDocs.RemoteDoc.ProcessBuffered | collab_mode/src/server.rs:3810-3820 | all buffered operations are processed in order, and what the editor is told to apply takes its text to the new view |
| Diffs.ChunksToOps | collab_mode/src/server.rs:796-835 | one operation per change, last one first, with consecutive site sequence numbers |
| Diffs.DiffGivesNewText | collab_mode/src/server.rs:789-835 | applied in that order they make the document show the Equal and Insert chunks |
| Diffs.DiffDenotesIff | collab_mode/src/server.rs:796-821 | every position of a diff means the right place if and only if no tombstone comes before the end of the last change |
| Diffs.DiffFits | collab_mode/src/server.rs:796-835 | wherever the positions of a diff point, its operations are in bounds |
| Diffs.TombstoneMisleadsDiff | collab_mode/src/server.rs:3374-3396 | a document with a tombstone where another character is deleted |
| Diffs.SequencedAtCurrentSeq | collab_mode/src/server.rs:3393-3394 | operations whose sender has seen everything are only numbered |
| SessionProofs.StepKeepsHealthy | collab_mode/src/engine.rs:1593-1658 | no step of a healthy session fails, and every step keeps the invariant |
| SessionProofs.DropsIff | collab_mode/src/server.rs:3459-3473 | a client loses the document exactly where its batch is refused: after a request, a batch that does not begin with number 1 |
| SessionProofs.AlignedPointers | collab_mode/src/engine.rs:1638-1651 | the undo pointers of a client that joined at number 0 always denote its own operations, so it can always undo |
| SessionHistories.UndoFits | collab_mode/src/engine.rs:1678-1733 | whatever a client's history is, an undo or redo command that takes own operations is in bounds at every step and consists of own operations |
| SessionProofs.SendKeeps | collab_mode/src/engine.rs:1404-1411 | the test for sending is true only when nothing is on its way, and what is then sent is what the invariant says of a batch in flight |
| SessionProofs.AckAgrees | collab_mode/src/engine.rs:1604-1615 | the acknowledgement is the first pending operation: payload, site number, group, and whether it is an undo |
| SessionProofs.SequencingChangesOnly | collab_mode/src/engine.rs:1790-1807 | whatever the batch and however much of the history it missed, sequencing changes payload and global number of an operation and nothing else |
| SessionProofs.ArrivalsKeepEntries | collab_mode/src/engine.rs:1593-1658 | in a session, for a client that joined at number 0, nothing that arrives changes which entries the next undo or redo takes |
| SessionProofs.AdmitRebases | collab_mode/src/engine.rs:1790-1807 | what the server makes of a batch is what the client will make of the operations it sent, even if it appended more |
| SessionProofs.SequencedIsValid | collab_mode/src/engine.rs:1790-1807 | an admitted batch is in bounds on the server's document |
| SessionProofs.BufferContinues | collab_mode/src/server.rs:3633-3678 | after lost, repeated and reordered deliveries the buffer is the run of the history right after the client's position |
| SessionProofs.DeliveryAsksIff | collab_mode/src/server.rs:3655-3673 | a delivered part of the history makes the client ask if and only if it begins after the operation that comes next; then every operation of it leaves a gap and none is kept |
| SessionTheorems.RequestFillsGap | collab_mode/src/server.rs:3655-3673 | one answered request from any position the client had reached brings everything the server has |
| SessionTheorems.EveryRunIsHealthy | collab_mode/src/README.md:75-110 | for every interleaving of joining and rejoining, editing, undo and redo, sending, admitting and refusing, delivering, requesting, receiving and changes on disk: nothing fails and the invariant holds |
| SessionTheorems.NoRequestNobodyLost | collab_mode/src/server.rs:3446-3484 | in a run without requests nobody loses the document |
| SessionTheorems.GaplessRunsLoseNobody | collab_mode/src/server.rs:3655-3673 | so in a run whose deliveries only repeat or continue what the clients have |
| SessionTheorems.StepKeepsInStep | collab_mode/src/server.rs:3446-3484 | only a client's own request makes the server expect another number than the client sends |
| SessionTheorems.ClientsConverge | collab_mode/src/README.md:95-110 | every client's document is what the server's history up to its position followed by its pending operations makes of the start; caught up it has the text of the server's document, and the liveness if the run was peaceful (for what is shown of it see `BuffersConverge`) |
| SessionTheorems.ClientsAgree | collab_mode/src/README.md:75-110 | the documents of two clients at one position with nothing pending agree, wherever the server is (for what they show see `ScreensAgree`) |
| SessionTheorems.OneBatchAtATime | collab_mode/src/README.md:84-94 | at most one batch is on its way, it is rebased over no operation of its own site, and nothing more is sent until it is back |
| SessionTheorems.ReceiveConvergesIff | collab_mode/src/op.rs:152 | receiving keeps a client's document equal to the server's view of it, liveness included, if and only if on no character that the operation marks the pending operations leave an opposite mark |
| SessionTheorems.NothingRevivedIsPeaceful | collab_mode/src/op.rs:152 | runs in which no dead text is made live converge completely |
| Divergence.LivenessCanDiverge | collab_mode/src/op.rs:152 | a run of deletions and one undo after which a client that has caught up has a character deleted that is live at the server |
| Together.SmallerSiteFirstForAll | collab_mode/src/op.rs:65-87 | for any starting document, position, texts and pair of sites: a run in which both insert there before either hears of the other, after which the server and both clients have the text of the smaller site first, whichever was sequenced first |
| SessionTheorems.PendingOpsGoOutIff | collab_mode/src/engine.rs:1437-1449 | with everything sent acknowledged, a client sends if and only if an operation with the next number is pending; unless it is stuck, whatever is pending goes out |
| SessionTheorems.StepSticksIff | collab_mode/src/engine.rs:1522-1573 | which steps get a client stuck: exactly a command without operations when everything before was sent, and sending when the last command had none |
| SessionTheorems.StuckForever | collab_mode/src/engine.rs:1404-1449 | a stuck client never sends, and no command of its editor and nothing that arrives frees it |
| SessionTheorems.StepMissesNone | collab_mode/src/engine.rs:1404-1411 | while every command yields an operation, no step gets a client stuck |
| Refusals.ClientGetsStuck | collab_mode/src/engine.rs:1522-1573 | a run in which an undo with nothing to undo keeps a client from ever sending |
| SessionQuotes.ReceivedQuotes | collab_mode/src/op.rs:90-126 | what a client receives quotes its document once it is transformed, and so do the rebased pending operations |
| SessionQuotes.AdmittedQuotes | collab_mode/src/op.rs:90-126 | what the server makes of a batch quotes its document |
| SessionQuotes.StepKeepsQuotes | collab_mode/src/op.rs:139-154 | if what is made in every step quotes the text it marks, all histories, pending operations and batches do |
| Screens.StepKeepsShowing | collab_mode/src/server.rs:568-599 | every step at which the arriving operation is harmless and undisputed keeps what each client shows equal, to the eye, to what the server showed at the client's position followed by the pending operations |
| Screens.ReceiveShowsIff | collab_mode/src/engine.rs:1593-1658 | and where another site's operation arrives, only then |
| Screens.BuffersConverge | collab_mode/src/README.md:95-110 | so in such a run a client that has caught up shows what the server shows, to the character |
| Screens.ScreensAgree | collab_mode/src/README.md:75-110 | and two clients at one position with nothing pending show the same |
| PlainScreens.QuotingBuffersConverge | collab_mode/src/README.md:95-110 | buffers of clients that have caught up are the server's in every peaceful run in which what is made quotes the text it marks |
| PlainScreens.UnrevivedBuffersConverge | collab_mode/src/README.md:95-110 | and in every run in which no deleted text is brought back |
| PlainScreens.StepKeepsPlain | collab_mode/src/engine.rs:867-958 | in steps of both kinds everybody goes on showing the documents themselves |
| PlainScreens.ScreensArePlain | collab_mode/src/engine.rs:867-958 | so at the end of runs of both kinds everybody shows the documents themselves |
| ScreensDiverge.ScreensCanDiverge | collab_mode/src/engine.rs:867-958 | a peaceful run after which a client that has caught up, with the document of the server, shows "xxaa" where the server shows "xxra" |
| SessionTheorems.AfterRequest | collab_mode/src/server.rs:3534 | after a request a batch on the wire is refused if and only if it does not begin with number 1, and the next batch if and only if the client has sent something before |
| Refusals.BatchIsRefused | collab_mode/src/server.rs:3446-3484 | a run in which an operation gets lost, the client requests it, and its batch on the wire is refused |
| Composition.DrainNeverFails | collab_mode/src/server.rs:3766-3820 | processing all buffered operations never fails in a healthy session: it is as many receiving steps, and leaves the engine's state and document as the session and the client's screen then have them |
| Composition.DrainIsPlain | collab_mode/src/server.rs:3766-3820 | where all has quoted its text, or nothing was brought back, the document is the session's, to the character |
| Composition.DeliverStep | collab_mode/src/server.rs:3629-3678 | what a client's handler makes of a delivery is the session's step: it asks once for every operation delivered if they begin after the one that comes next, and otherwise not at all |
| Composition.WireIsAccepted | collab_mode/src/server.rs:3446-3484 | what the server's handler requires holds for every batch on its way, whatever the server shows, and it answers as the session does |
| Composition.AdmitStep | collab_mode/src/server.rs:3446-3484 | what the handler then does is the session's admission |
| Composition.AdmitShown | collab_mode/src/server.rs:3486-3489 | and what it does to the buffer is what the server shows after that step |
| Composition.DiskStep | collab_mode/src/server.rs:3374-3397 | what the handler of changes on disk does is the session's change on disk |
| Composition.DiskShown | collab_mode/src/server.rs:3374-3397 | and the buffer it leaves is what the server shows after that step |
| Composition.EditStep | collab_mode/src/server.rs:3783-3800 | what the handler of editor operations does is the session's edit, undo or redo |
| Composition.EditShown | collab_mode/src/server.rs:3783-3800 | and what it shows in the editor is what the client shows after that step |
| Composition.CommandAsPreviewed | collab_mode/src/engine.rs:1739-1755 | an undo or redo sent as soon as it was fetched is accepted, and the text becomes the one previewed |
| Composition.CommandAfterEdit | collab_mode/src/engine.rs:1524-1534 | one fetched before another edit of the same editor is refused, and only the edit remains |
| Composition.CommandAfterArrival | collab_mode/src/engine.rs:1556-1565 | one fetched before an arrival is refused if that was another site's operation, and accepted if it was an acknowledgement |
| Composition.UndoIsAccepted | collab_mode/src/engine.rs:1739-1755 | what undo and redo require of the handler and of the preview holds wherever the session allows the command |
| Composition.BuffersAreEqual | collab_mode/src/server.rs:568-613 | in a run with clear arrivals the text buffer of a client that has caught up equals the server's buffer |
| Composition.QuietReceiveKeepsReplayable | collab_mode/src/engine.rs:1618-1624 | a history stays replayable if others' operations arrive with nothing pending |
| Composition.AckKeepsReplayable | collab_mode/src/engine.rs:1604-1615 | and through acknowledgements |
| Composition.AckIsSensible | collab_mode/src/engine.rs:1604-1615 | an acknowledgement in a session is one of the commands of `LinearUndoRestoresText` |
| Composition.LocalKeepsReplayable | collab_mode/src/engine.rs:1572-1586 | and through local commands |
| Composition.GeneratedTargets | collab_mode/src/engine.rs:1721-1726 | in a history that replays the operation generated for an undo queue entry marks exactly the characters that entry's operation touched |
| Composition.UndoQuotesText | collab_mode/src/engine.rs:1678-1733 | and a whole undo or redo command quotes the text it marks, so editors are shown the document itself |
| Tracking.TrackFollows | collab_mode/src/op.rs:139-154 | tracking a position through a history follows the character |
| Tracking.UndoTargeting | collab_mode/src/op.rs:130-154 | the inverse of the k-th operation carried to the end names exactly the characters it inserted or marked, over any history that replays |
| Tracking.CopiesTargetIff | collab_mode/src/engine.rs:1621-1624 | a mark carried over the copies in a client's history covers what it would cover carried over the operations as sequenced, if and only if no character it covers comes between an insertion's place and its copy's |
| Tracking.BatchIsCopy | collab_mode/src/engine.rs:1618-1624 | what a client keeps of another site's operation is the same mark up to its segments, or the same text inserted at or right of its place |
| SessionHistories.UndoAmongCopies | collab_mode/src/engine.rs:1618-1624 | the undo of an operation in a list of copies marks what the operation touched, if and only if nothing it touched comes between |
| SessionHistories.UndoTargetsIff | collab_mode/src/engine.rs:1721-1726 | the same for the operation generated in any session for any undo queue entry that denotes an own operation |
| UndoGeneration.UndoNeverFails | collab_mode/src/engine.rs:1556-1578 | pushing what an undo or redo command generates never fails |
| UndoGeneration.GeneratedSite | collab_mode/src/README.md:205-207 | a generated operation has the site of the operation it reverses |
| UndoGeneration.CommandTakes | collab_mode/src/engine.rs:1678-1733 | a command is the reversals of the entries it takes, in its order, each what would be generated for that entry alone |
| UndoGeneration.CommandSite | collab_mode/src/README.md:205-207 | a command consists of own operations if and only if the entries it takes are own |
| UndoGeneration.CommandFits | collab_mode/src/engine.rs:1678-1733 | a command can be applied if what is generated for each entry it takes can, and quotes the text if these do |
| Layers.Reverse | collab_mode/src/engine.rs:1678-1733 | one undo or redo moves the document exactly one layer |
| Layers.EditLayers | collab_mode/src/engine.rs:1150-1160 | an original edit drops the undone layers and adds one |
| LinearUndo.RedoReversesUndo | collab_mode/src/README.md:197-204 | in the timeline a redo after an undo is back where it began, unless the next edit to redo has the group the undo command was given |
| LinearUndo.CommandKeepsTimeline | collab_mode/src/engine.rs:1508-1589 | each edit, undo, redo and acknowledgement does to the visible text what the timeline says |
| LinearUndo.LinearUndoRestoresText | collab_mode/src/README.md:197-204 | for every sequence of edits, undos and redos: none fails, each undo returns to the text before the run of one group, each redo reverses it, an edit discards exactly the redo tail |
| LinearUndo.FreshRepresents | collab_mode/src/engine.rs:1092-1100 | a new history is a timeline with one text |
| Pointers.RemoteKeepsPointersIff | collab_mode/src/engine.rs:1638-1651 | when another site's operation arrives, every pointer keeps denoting the same own operation if and only if none lies between the length of the history and the global number |
| Pointers.EveryRunFollows | collab_mode/src/engine.rs:1129-1199 | for an engine that started at number 0, through every run: pointers in range and distinct, each denoting the same own operation, and every pending undo counting back to the operation it was created against |
| Pointers.PointersAreDistinct | collab_mode/src/engine.rs:1075-1086 | no two pointers denote the same operation |
| Pointers.RemoteFollows | collab_mode/src/engine.rs:1626-1651 | the deltas and pointers after another site's operation |
| Pointers.AckFollows | collab_mode/src/engine.rs:1604-1615 | and after an acknowledgement |
| UndoMisses.LateJoinerLosesPointer | collab_mode/src/engine.rs:1385-1394 | a run after which the undo of a client that joined later is an operation of another site, and out of bounds |
| UndoMisses.UndoMarksAnotherCharacter | collab_mode/src/engine.rs:1618-1733 | a run that leads to an undo command which takes the user's own insertion of "a", touched only at position 3, and for it marks position 2, where another site's "r" is; the command deletes it |

## Left out

- Connections, signaling, authentication, permissions, projects, file handlers, saving and reconnecting: not part of the engine.
- The diff itself: its chunks are an argument.
- The gap buffer: a string.
- TP2: the server's total order makes it unnecessary.
- `print_history`, serialization and logging.
- InternalDocs.InternalDoc.ApplyMark: one body with the liveness as a parameter stands for `apply_mark_dead` and `apply_mark_live`, which are the same code with live and dead exchanged; the places where the source appends to the returned runs are one helper.
- InternalDocs.InternalDoc.ShiftCursorsRight: the walk over the hash map is a map comprehension; its order does not matter.
- InternalDocs.InternalDoc.ConvertPos: cursors and iterators are values that go in and out, not mutable references.
- InternalDocs.InternalDoc.ApplyIns: the length is the caller's; the agreement of lengths in bytes and in characters elsewhere in the source is assumed.
- ClientEngines.ClientEngine.ProcessLocalOp: requires that edits fit the text the editor shows and are not empty, and that what undo generates is in bounds; `UndoIsAccepted` shows the latter in every session for commands that take own operations.
- ClientEngines.ClientEngine.ProcessRemoteOp: requires that the transformed operation is in bounds, which `DrainNeverFails` shows for every healthy session.
- ServerEngines.HostedDoc.ResetFromDisk: promises the new content in one direction only; text with a tombstone before the end of the last change may come out right by coincidence. `DiffDenotesIff` has the exact condition for the positions.
- RemoteDocs.RemoteDoc.HandleEditorOp: the body of the handler's loop over editor operations; the loop around it is not modelled.
- RemoteDocs.RemoteDoc.HandleOpFromServer: notifications to the editor are left out.
- ServerEngines.HostedDoc.HandleOpFromClient: looking up the document and checking permissions are left out; the site of a subscriber stands for its host.
- SessionTheorems.EveryRunIsHealthy: the answer to a request is a delivery of its own. A refused client drops the document at once, not when the message reaches it. A host that reopens the document starts afresh, and a batch it had on its way is lost. A request that a client has once made may reach the server any number of times. A client gives no undo or redo command that takes another site's operation; `LateJoinerLosesPointer` shows why nothing is promised for it.
- Screens.BuffersConverge: who joins shows what the server shows, with its text of dead characters; the source hands over no such text, and `ShowAllAlike` shows that it never matters.
- Pointers.EveryRunFollows: pending undo operations only; an acknowledged one has the delta the server was sent.
- Error values carry no operations, only what the code compares.
