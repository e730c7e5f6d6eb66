# Verified model of the AI-WPS adapter and clients

A Dafny model of the parts of AI-WPS whose behaviour depends on protocols, parsing and order rather
than on any single line, with proofs of what they keep.  `dafny verify dfyconfig.toml` checks all of it.

* **The chunked-body reader** of the standalone adapter (`Octets`, `ChunkGrammar`, `ChunkExtensions`,
  `ChunkDecoder`, `Numerals`, `BodyReader`).  The transfer coding of section 7.1 of RFC 9112 is given as derivation
  trees with a printer; the reader is a class over a connection that hands out octets in pieces of its
  own choosing and may fail at any read.  The reader is proved to compute one function of all the octets
  ahead, and that function to accept exactly the printed messages within the five caps.  What a whole
  request is answered is said of its headers and octets alone, numbers by the digits they print.
* **The slide-outline client** (`Outline`, `OutlineGate`, `OutlineAnswers`, `OutlineAsks`, `OutlinePane`)
  and **the task-ledger client** (`Ledger`, `LedgerJobs`, `LedgerBusy`, `LedgerPolls`, `LedgerAsks`,
  `LedgerSheet`, `LedgerReplies`, `LedgerPane`).  Each is a state machine over the pane, its
  durable copy, the requests in flight and the timers, with replies in any order, storage that may refuse
  any write and reloads at any point.  Beside each machine is a class whose methods are the client's
  handlers; each is proved to be the machine's step and to keep the class's `Valid()`, which holds the
  machine's invariants.
* **The body-limiting middlewares** (`BodyReplay`): folding a stream of messages into one bounded buffer
  and standing in for the channel afterwards.
* **Style inheritance** in the rule-pack compiler (`StyleResolution`).
* **Delivery policies and assembly** (`PolicyChain`, `Assembly`): the provenance walk, the loader, and
  building the tree from files, trees and archives.
* **The acceptance record** (`AcceptanceRecord`) and **the candidate lineage** (`CandidateLineage`): for
  each, the tool that writes it and the auditor that reads it.
* **Column names** (`ColumnNames`).

`Options` is the optional value they share.

## What the proofs found

* A job id in the ledger pane does not always mean a busy pane.  A materials change ends, clears `busy`
  and goes on to check for conflicts; if a job is started meanwhile and that check fails, the error path
  clears `busy` again under the job (`LedgerBusy.HeldNotBusy`).  A result set from outside while materials
  change clears it too.  Of all events it is exactly these two that expose the pane to it, at once or as
  soon as a job is started and the change it overlaps ends (`LedgerBusy.BusyLostExactly`).
* The ledger can stop asking after a job: the poll flag is a plain Boolean, so a job that replaces a
  cancelled one gets no timer while the old timer is still set (`LedgerPolls.PollLost`).
  `LedgerPolls.AttendedThroughoutExactly` says over every run when that happens: some handler comes to
  set the current job's timer while the flag is set by something that will not ask after it, a pane is
  loaded with a job and not restored, or a materials change makes a pane busy that holds a job it was not
  waiting for.  The flag is exactly a lock on one timer or poll of any job (`LedgerAsks.OneAtATimeAlways`).
  The outline client, which keys it by job, never stops asking (`Outline.NeverLost`), and never has two
  timers for a job either (`OutlineAsks.OneTimerAlways`).
* When the save of a catalog refresh is lost, reloading the outline pane reopens the confirmation gate
  exactly when the stored copy had it open (`Outline.LostSaveReopens`).
* The full-document-review middleware presents a body cut off by a disconnect as complete
  (`BodyReplay.FullReviewHidesCut`); the import preview does not (`BodyReplay.CallPreview`).
* Styles based on each other in a loop of two or more can depend on the order they are taken in: two
  orders give a style different attributes exactly when another style of its loop states an attribute it
  does not state itself (`StyleResolution.OrderDecidesExactly`).  A style on no such loop, one based on
  itself or one that only leads to a loop included, has the overlay of the walk up from it, whatever the
  order (`StyleResolution.CompiledIsSettled`).
* Loading a policy does not end on a circle of two (`PolicyChain.TwoPolicyLoop`); it ends exactly when
  the chain has no loop, and always when the provenance walk accepts the policy.
* An entry whose target is `release-allowlist.json` loses its content to the generated list, and is the
  only requested file that can (`Assembly.AllowlistIsExact`).
* The acceptance record passes the audit exactly for issue 59 and a predecessor whose status goes with
  its version (`AcceptanceRecord.PreparedMeetsAudit`).
* Recording a candidate leaves an earlier candidate of another build standing, and the audit then refuses
  the list (`CandidateLineage.OtherCandidateFails`); `CandidateLineage.RecordedMeetsAudit` gives the exact condition for the recorded list to pass.

## Model

| member | source | states |
|---|---|---|
| `ChunkExtensions.SkipChunkBws` | adapter_service/standalone_adapter.py:1386-1390 | the loop stops exactly at the end of the run of blanks |
| `ChunkExtensions.ConsumeChunkToken` | adapter_service/standalone_adapter.py:1392-1397 | the loop takes the longest run of token octets, and fails on an empty one |
| `ChunkExtensions.ConsumeChunkQuotedString` | adapter_service/standalone_adapter.py:1399-1429 | the loop ends right after the closing quote of a quoted-string, escapes included, or fails |
| `ChunkExtensions.ValidChunkExtensions` | adapter_service/standalone_adapter.py:1431-1454 | the handler's scan gives the verdict of the recogniser from any start |
| `ChunkExtensions.ExtensionsExact` | adapter_service/standalone_adapter.py:1431-1454 | the recogniser accepts exactly the chunk-ext language of section 7.1.1 of RFC 9112: greed neither misses nor adds a string |
| `ChunkExtensions.ParseWritingPolicyChunkSize` | adapter_service/standalone_adapter.py:1456-1462 | the size parser's loop and search give the value of the size function |
| `ChunkExtensions.SizeExact` | adapter_service/standalone_adapter.py:1456-1462 | a size line parses to a number exactly when it is a hexadecimal size of that value followed by legal extensions |
| `ChunkDecoder.RoundTrip` | adapter_service/standalone_adapter.py:1464-1527 | every split of a body into chunks, with any legal extensions and trailers within the caps, decodes to the body and takes exactly the message, whatever follows |
| `ChunkDecoder.AcceptedExact` | adapter_service/standalone_adapter.py:1464-1527 | a stream is accepted with a body and a length exactly when a message of the grammar within the caps, of that length and with that payload, is at its front |
| `ChunkDecoder.Unambiguous` | adapter_service/standalone_adapter.py:1464-1527 | two messages within the caps at the front of one stream have the same octets and the same payload |
| `ChunkDecoder.TooLargeExact` | adapter_service/standalone_adapter.py:1487-1491 | the too-large verdict falls exactly on good chunks followed by a size line that would pass 7 MiB |
| `ChunkDecoder.ReadBound` | adapter_service/standalone_adapter.py:125-135 | no input takes more than 1025*129 + 7 MiB + 2*1024 + 16 KiB + 2049 octets, nor gives a body over 7 MiB |
| `ChunkDecoder.TrailerReadBound` | adapter_service/standalone_adapter.py:1499-1527 | the trailer loop takes no more than is left of its budget and one line past it |
| `Numerals.SizeLinePrinted` | adapter_service/standalone_adapter.py:1456-1462 | a size line is parsed to n exactly when it begins with n as printed in hexadecimal, in capitals or not, zeros before it or not, and goes on with legal extensions |
| `Numerals.DecimalExact` | adapter_service/standalone_adapter.py:1284-1287 | a decimal text is read as n exactly when it is n as printed, zeros before it or not |
| `BodyReader.AnsweredOnce` | adapter_service/standalone_adapter.py:1263-1348 | what a request is to be answered, as said of its headers and octets, is one reply only |
| `BodyReader.RequestReader.ReadOnce` | adapter_service/standalone_adapter.py:1350-1363 | one read gives any non-empty piece up to the size asked, or nothing at the end, or fails |
| `BodyReader.RequestReader.ReadExact` | adapter_service/standalone_adapter.py:1365-1372 | however the pieces come, the loop takes exactly the size asked or all there is |
| `BodyReader.RequestReader.ReadLine` | adapter_service/standalone_adapter.py:1374-1383 | however the pieces come, the loop takes exactly the line, bounded by the limit and one octet |
| `BodyReader.RequestReader.ReadTrailers` | adapter_service/standalone_adapter.py:1499-1527 | the loop gives the verdict of the trailer function on the octets ahead and takes exactly what it takes |
| `BodyReader.RequestReader.ReadSize` | adapter_service/standalone_adapter.py:1467-1481 | the size line read is the size function of the octets ahead |
| `BodyReader.RequestReader.ReadChunk` | adapter_service/standalone_adapter.py:1492-1496 | the chunk and its terminator are the octets ahead, and no more than the cap is held |
| `BodyReader.RequestReader.ReadChunkedBody` | adapter_service/standalone_adapter.py:1464-1497 | for every way the connection deals out pieces, the reply and the octets taken are those of the decoder; a failed read leaves within the bound, and at most 7 MiB is ever buffered |
| `BodyReader.RequestReader.ReadBody` | adapter_service/standalone_adapter.py:1303-1348 | with no failed read the reply is the one the headers and octets call for: for a Content-Length of n within the cap of its kind the n octets ahead, or incomplete; for a chunked preview the payload of the message within the caps at the front, too large where a size line would pass the cap, invalid otherwise; `{}` for no body; the error of its kind for two declarations, a bad or too large length. A failed read gives its own error, and no body |
| `Outline.NeverLost` | formal-plugin-kit/wps-ai-assistant-wpp_1.0.0/material-outline.js:468-642 | in every state of one pane lifetime a busy, unpaused job has its own poll timer or a request of its own in flight, late timers and replies of older jobs notwithstanding |
| `Outline.PollKept` | formal-plugin-kit/wps-ai-assistant-wpp_1.0.0/material-outline.js:468-642 | every event of a pane lifetime keeps that |
| `Outline.LoadedUnattended` | formal-plugin-kit/wps-ai-assistant-wpp_1.0.0/material-outline.js:78-123 | a pane that only loads keeps it exactly when the stored job is not one to wait for |
| `Outline.GateAlways` | formal-plugin-kit/wps-ai-assistant-wpp_1.0.0/material-outline.js:672-721 | in every reachable state a confirmed outline is the non-empty deck now shown, and audience, slide count, instruction, facts and choices are those it was confirmed under |
| `Outline.GateKept` | formal-plugin-kit/wps-ai-assistant-wpp_1.0.0/material-outline.js:157-211 | every event keeps that, in the pane and in storage |
| `Outline.EventMoves` | formal-plugin-kit/wps-ai-assistant-wpp_1.0.0/material-outline.js:420-485 | no event but confirming or reloading opens the gate, or leaves it open over a change of what it vouches for |
| `Outline.StaysClosed` | formal-plugin-kit/wps-ai-assistant-wpp_1.0.0/material-outline.js:672-693 | a closed gate stays closed over every run without a confirmation |
| `Outline.StaleBasisCloses` | formal-plugin-kit/wps-ai-assistant-wpp_1.0.0/material-outline.js:438-466 | a refresh showing a missing or re-dated basis document closes the gate until it is confirmed again |
| `Outline.LostSaveReopens` | formal-plugin-kit/wps-ai-assistant-wpp_1.0.0/material-outline.js:129-155 | when that refresh is not saved, a reload reopens the gate exactly when the stored copy had it open |
| `OutlineGate.GateOpenExactly` | formal-plugin-kit/wps-ai-assistant-wpp_1.0.0/material-outline.js:672-693 | over every run, with whatever reloads and lost saves, the gate is open exactly when, among the events that what is shown comes from, the last confirmation of a deck with slides has had no closing event since; and so for the stored copy |
| `OutlineGate.EventExactly` | formal-plugin-kit/wps-ai-assistant-wpp_1.0.0/material-outline.js:157-775 | exactly which event opens the gate, which close it (another draft value, a choice, an edited page, a basis out of date, a new job or its deck, clearing), and which save the pane |
| `OutlineGate.ConfirmOpens` | formal-plugin-kit/wps-ai-assistant-wpp_1.0.0/material-outline.js:672-683 | confirming a deck with slides confirms that deck under that draft, in storage too if the write succeeds; without slides nothing happens |
| `OutlineGate.TracedIsRun` | formal-plugin-kit/wps-ai-assistant-wpp_1.0.0/material-outline.js:78-123 | without a reload what is shown comes from the whole run |
| `OutlineGate.ReloadGivesLastSaved` | formal-plugin-kit/wps-ai-assistant-wpp_1.0.0/material-outline.js:78-155 | a reload brings back the pane as it was when last saved, but for the poll bookkeeping |
| `OutlineAnswers.RepliesShow` | formal-plugin-kit/wps-ai-assistant-wpp_1.0.0/material-outline.js:504-643 | what the pane shows after each answer to a submit, poll or cancel of its job, errors included, and that nothing else changes |
| `OutlineAnswers.EndsExactly` | formal-plugin-kit/wps-ai-assistant-wpp_1.0.0/material-outline.js:504-643 | a busy pane lets go of its job exactly on a poll that says it is over or gone, a refused submit or a confirmed cancel, whatever else happens |
| `OutlineAnswers.EditsShow` | formal-plugin-kit/wps-ai-assistant-wpp_1.0.0/material-outline.js:157-211 | each setter changes the field it is for, as given or to its default, a choice replaces that of its conflict, an edit changes the first slide of its page, a refresh warns exactly of a basis out of date; nothing else changes but the gate |
| `OutlineAsks.OneTimerAlways` | formal-plugin-kit/wps-ai-assistant-wpp_1.0.0/material-outline.js:604-611 | over every run in which ids are not reused no job has two timers |
| `OutlineAsks.EventDue` | formal-plugin-kit/wps-ai-assistant-wpp_1.0.0/material-outline.js:468-643 | every request or timer an event adds is for the job the pane holds: a poll only while it waits for it, a cancel only if it was asked to stop it, a submit only as it begins |
| `OutlinePane.Session.constructor` | formal-plugin-kit/wps-ai-assistant-wpp_1.0.0/material-outline.js:78-123 | a pane opens with what storage holds for it and polls at once, and is then `Valid()`: the job it waits for is asked after, and a confirmed outline is the one shown, if a pane that kept that stored it |
| `OutlinePane.Session.SetAudience` | formal-plugin-kit/wps-ai-assistant-wpp_1.0.0/material-outline.js:157-169 | is the machine's step, the default for an empty audience and the gate closed on a change, and keeps `Valid()` |
| `OutlinePane.Session.SetSlideCount` | formal-plugin-kit/wps-ai-assistant-wpp_1.0.0/material-outline.js:171-185 | is the machine's step, the default outside the limits and the gate closed on a change, and keeps `Valid()` |
| `OutlinePane.Session.SetConflictResolution` | formal-plugin-kit/wps-ai-assistant-wpp_1.0.0/material-outline.js:420-436 | replaces the choice for the conflict, closes the gate, and keeps `Valid()` |
| `OutlinePane.Session.OnMaterialsChanged` | formal-plugin-kit/wps-ai-assistant-wpp_1.0.0/material-outline.js:438-466 | the two loops find exactly whether a basis document is missing or re-dated |
| `OutlinePane.Session.Submit` | formal-plugin-kit/wps-ai-assistant-wpp_1.0.0/material-outline.js:468-503 | is the machine's step, resuming a paused job or clearing the result and the gate and submitting, and leaves the job asked after |
| `OutlinePane.Session.SubmitReplied` | formal-plugin-kit/wps-ai-assistant-wpp_1.0.0/material-outline.js:504-536 | is the machine's step for each answer, a late one included, and leaves the job asked after |
| `OutlinePane.Session.PollReplied` | formal-plugin-kit/wps-ai-assistant-wpp_1.0.0/material-outline.js:543-602 | is the machine's step for each answer, a late one included, and leaves the job asked after and a new deck unconfirmed |
| `OutlinePane.Session.CancelReplied` | formal-plugin-kit/wps-ai-assistant-wpp_1.0.0/material-outline.js:613-643 | is the machine's step for each answer to a cancel, and leaves a job still live asked after |
| `OutlinePane.Session.UpdateSlideTitle` | formal-plugin-kit/wps-ai-assistant-wpp_1.0.0/material-outline.js:695-707 | changes the first slide of that index and closes the gate |
| `OutlinePane.Session.UpdateSlideKeyPoints` | formal-plugin-kit/wps-ai-assistant-wpp_1.0.0/material-outline.js:709-721 | changes the first slide of that index and closes the gate |
| `Ledger.AtMostOneWrite` | formal-plugin-kit/wps-ai-assistant-et_1.0.0/material-ledger.js:777-837 | over every run, with reloads, deaths in the sheet call and any lost save, no accepted result is written to the sheet twice |
| `Ledger.WriteInvKept` | formal-plugin-kit/wps-ai-assistant-et_1.0.0/material-ledger.js:68-101 | every event keeps each copy of a written result, in the pane and in storage, locked against writing |
| `Ledger.EventMoves` | formal-plugin-kit/wps-ai-assistant-et_1.0.0/material-ledger.js:456-665 | no event but a sheet call or a reload unlocks a result or writes one; a result changes only by being dropped or newly accepted |
| `Ledger.WritableIsUnwritten` | formal-plugin-kit/wps-ai-assistant-et_1.0.0/material-ledger.js:777-791 | whenever the pane may write its result, that result has never been written, in this pane's life or an earlier one |
| `Ledger.OnlyNewResultUnlocks` | formal-plugin-kit/wps-ai-assistant-et_1.0.0/material-ledger.js:68-101 | once the result is written or its write interrupted, no continuation of any run, with reloads, deaths in the sheet call and lost saves, may write but a result accepted since |
| `Ledger.LockKept` | formal-plugin-kit/wps-ai-assistant-et_1.0.0/material-ledger.js:777-837 | every event keeps the result a locked pane shows in storage too, locked |
| `LedgerSheet.ResultExactly` | formal-plugin-kit/wps-ai-assistant-et_1.0.0/material-ledger.js:456-733 | exactly which events give the pane another result or drop it, with what rows and from which job, and that its write state starts afresh then and only then |
| `LedgerSheet.TargetWasBlank` | formal-plugin-kit/wps-ai-assistant-et_1.0.0/material-ledger.js:721-775 | over every run the target is confirmed exactly when some inspection found it blank, for a result with rows neither written nor in doubt, and since then there has been no new result, header change, reload, death or other finding |
| `LedgerSheet.WritesToBlank` | formal-plugin-kit/wps-ai-assistant-et_1.0.0/material-ledger.js:777-795 | whenever the pane may write, the target was found blank so |
| `LedgerSheet.CallShows` | formal-plugin-kit/wps-ai-assistant-et_1.0.0/material-ledger.js:777-837 | what each outcome of a sheet call leaves in the pane, in storage and in the sheet, "writing" being stored before it; nothing without leave |
| `LedgerSheet.SubmittedIffCleared` | formal-plugin-kit/wps-ai-assistant-et_1.0.0/material-ledger.js:507-546 | over every run with fresh ids the jobs submitted are exactly those whose own preparation was answered, while the pane held them, with no conflict open |
| `LedgerReplies.StoredExactly` | formal-plugin-kit/wps-ai-assistant-et_1.0.0/material-ledger.js:456-733 | exactly which events bring storage up to date with the pane |
| `LedgerReplies.ErrorsShow` | formal-plugin-kit/wps-ai-assistant-et_1.0.0/material-ledger.js:507-665 | what the pane shows after a preparation, a refused or unconfirmed submit, a failed poll and a cancel without an answer |
| `LedgerAsks.OneAtATimeAlways` | formal-plugin-kit/wps-ai-assistant-et_1.0.0/material-ledger.js:577-620 | over every run the pane has one timer or poll outstanding, of any job, while its poll flag is set, and none otherwise |
| `LedgerAsks.EventDue` | formal-plugin-kit/wps-ai-assistant-et_1.0.0/material-ledger.js:479-665 | every request or timer an event adds is for the job the pane holds, a poll only while it waits for it |
| `LedgerJobs.AnswersShow` | formal-plugin-kit/wps-ai-assistant-et_1.0.0/material-ledger.js:456-665 | an answer for the current job, but a live poll answer in a paused pane, is what the pane then shows: its status, its rows unwritten, everything pending let go when it is over |
| `LedgerJobs.OncePerJobAlways` | formal-plugin-kit/wps-ai-assistant-et_1.0.0/material-ledger.js:456-665 | over every run with fresh ids no job's result is written twice, no job's outcome is applied twice in a pane lifetime, and no job cancelled while preparing is submitted |
| `LedgerJobs.JobInvKept` | formal-plugin-kit/wps-ai-assistant-et_1.0.0/material-ledger.js:456-665 | every event keeps that, with a held job live, unwritten and pending only as itself |
| `LedgerJobs.EndsWithOneOutcome` | formal-plugin-kit/wps-ai-assistant-et_1.0.0/material-ledger.js:456-477 | on an answer, or a cancel while preparing, the pane lets its job go exactly when one outcome of that job is applied |
| `LedgerJobs.WritesAreSheetCalls` | formal-plugin-kit/wps-ai-assistant-et_1.0.0/material-ledger.js:777-837 | the sheet gains the result exactly when a permitted call got past storing "writing" and succeeded, or took the pane down having written |
| `LedgerJobs.CancelledIsNeverSubmitted` | formal-plugin-kit/wps-ai-assistant-et_1.0.0/material-ledger.js:631-640 | a job cancelled while it was preparing has no submit in flight at any later moment of the run |
| `LedgerBusy.BusyLostExactly` | formal-plugin-kit/wps-ai-assistant-et_1.0.0/material-ledger.js:358-438 | of all events it is exactly two that expose a pane to holding a job id without being busy, at once or in an undisturbed run from there: a result set while materials change, and a failed check after a change while a job is held or materials change again |
| `LedgerBusy.HeldIsBusy` | formal-plugin-kit/wps-ai-assistant-et_1.0.0/material-ledger.js:479-575 | in every run without those two events a job id means a busy pane |
| `LedgerBusy.HeldNotBusy` | formal-plugin-kit/wps-ai-assistant-et_1.0.0/material-ledger.js:390-405 | the run in which materials change, a job is started after the change and the check of the change fails ends with a job id in a pane that is not busy |
| `LedgerPolls.AttendedExactly` | formal-plugin-kit/wps-ai-assistant-et_1.0.0/material-ledger.js:456-665 | an event leaves the pane waiting for a job that nothing will ask after exactly when its guard says so: the flag set by another job's timer or poll where a timer of this one is due, a load, or a materials change over a job not waited for |
| `LedgerPolls.AttendedThroughoutExactly` | formal-plugin-kit/wps-ai-assistant-et_1.0.0/material-ledger.js:456-665 | from every attended state, a run with fresh ids attends to the job waited for at every moment exactly when none of its events is such a one |
| `LedgerPolls.RestoredAttends` | formal-plugin-kit/wps-ai-assistant-et_1.0.0/material-ledger.js:839-845 | a pane that is loaded and restored attends to its job whatever was outstanding before |
| `LedgerPolls.PollLost` | formal-plugin-kit/wps-ai-assistant-et_1.0.0/material-ledger.js:577-587 | the run in which a job is cancelled and replaced before its timer fires ends with a live job, no timer and no request |
| `LedgerPane.Session.constructor` | formal-plugin-kit/wps-ai-assistant-et_1.0.0/material-ledger.js:56-106 | a pane opens with what storage holds, a write under way read as interrupted, and is then `Valid()`: no result can be written twice and the job's books are in order, if a pane that kept that stored it |
| `LedgerPane.Session.FinishJob` | formal-plugin-kit/wps-ai-assistant-et_1.0.0/material-ledger.js:456-477 | is the machine's step: status and busy, the result and a fresh write state on completion, the job settled when it is over |
| `LedgerPane.Session.Generate` | formal-plugin-kit/wps-ai-assistant-et_1.0.0/material-ledger.js:479-506 | is the machine's step, resuming a paused job, submitting a pending one again or preparing a new one, and keeps what bars a second write; with a fresh id it keeps `Valid()` |
| `LedgerPane.Session.ConflictsReplied` | formal-plugin-kit/wps-ai-assistant-et_1.0.0/material-ledger.js:507-545 | is the machine's step for each outcome of the conflict check, a late one included, and keeps `Valid()` |
| `LedgerPane.Session.SubmitReplied` | formal-plugin-kit/wps-ai-assistant-et_1.0.0/material-ledger.js:546-574 | is the machine's step for each answer, accepted, unconfirmed or refused, and keeps what bars a second write; with a fresh id it keeps `Valid()` |
| `LedgerPane.Session.PollReplied` | formal-plugin-kit/wps-ai-assistant-et_1.0.0/material-ledger.js:582-620 | is the machine's step for each answer to a poll, and keeps `Valid()` |
| `LedgerPane.Session.Cancel` | formal-plugin-kit/wps-ai-assistant-et_1.0.0/material-ledger.js:631-645 | settles a preparing job on the spot, and asks the server otherwise; keeps `Valid()` |
| `LedgerPane.Session.CancelReplied` | formal-plugin-kit/wps-ai-assistant-et_1.0.0/material-ledger.js:642-665 | is the machine's step for each answer, with the waiting handler going on after it, and keeps `Valid()` |
| `LedgerPane.Session.InspectTargetRange` | formal-plugin-kit/wps-ai-assistant-et_1.0.0/material-ledger.js:735-775 | confirms the target exactly when it is blank for a result with rows, keeps it as it was once the write is done or in doubt, and keeps `Valid()` |
| `LedgerPane.Session.WriteToSheet` | formal-plugin-kit/wps-ai-assistant-et_1.0.0/material-ledger.js:777-837 | stores "writing" before the sheet call and makes none if that fails; notes the report, the error or the death; and keeps `Valid()`, so that no later call writes the result again |
| `BodyReplay.FullReviewBody` | adapter_service/app/main.py:61-86 | the loop decides as the stream's meaning says: refused over the cap by declaration or content, accepted with the joined body, and takes exactly the messages of the body |
| `BodyReplay.PreviewBody` | adapter_service/app/main.py:277-331 | the loop decides as the stream's meaning says and takes exactly the messages of the body |
| `BodyReplay.CallFullReview` | adapter_service/app/main.py:61-104 | an accepted request gives the application one message with the whole body, then the rest of the stream; other requests are passed through untouched |
| `BodyReplay.CallPreview` | adapter_service/app/main.py:277-348 | an accepted preview gives one message with the whole body, called complete only if it is, or only the disconnect when no request message came |
| `BodyReplay.FullReviewReplay.Receive` | adapter_service/app/main.py:88-102 | hands out the upcoming messages one by one, then disconnects if the client has gone |
| `BodyReplay.PreviewReplay.Receive` | adapter_service/app/main.py:333-346 | hands out the upcoming messages one by one, then disconnects if the client has gone |
| `BodyReplay.LengthsDecide` | adapter_service/app/main.py:65-86 | a whole body is taken or refused on its declared and actual lengths alone |
| `BodyReplay.SplitUnseen` | adapter_service/app/main.py:72-86 | however a body is sent in parts, it is the parts joined, and what follows is left |
| `BodyReplay.FullReviewHidesCut` | adapter_service/app/main.py:70-100 | an accepted body is presented as complete though it is not exactly when a disconnect came before the last part; no buffer passes the cap |
| `BodyReplay.FullReviewCutExample` | adapter_service/app/main.py:70-100 | a stream on which that happens |
| `BodyReplay.PreviewExact` | adapter_service/app/main.py:289-331 | a preview is refused exactly when its body passes the cap or is whole and declared over it, and its body is cut exactly by a disconnect |
| `BodyReplay.FullReviewDecides` | adapter_service/app/main.py:65-86 | a declaration over the cap is refused unread; else the body is refused with the length at which its parts first pass the cap, taken as all parts up to the first last part or disconnect, or still open |
| `BodyReplay.PreviewDecides` | adapter_service/app/main.py:289-331 | the same, but that the declaration counts only against a body that is whole and within the cap |
| `BodyReplay.DecisionStays` | adapter_service/app/main.py:72-86 | what has been decided on a stream is not changed by what comes after |
| `StyleResolution.ExtractStyle` | adapter_service/tools/compile_format_rule_pack.py:84-132 | the font name is the first that is not empty of the East Asian, ASCII and other Latin names, sizes are halved, `both` is justify, spacing is read before indent, each measure under its own key; what the style does not say is inherited |
| `StyleResolution.NearestSays` | adapter_service/tools/compile_format_rule_pack.py:84-132 | the overlay of a walk has for each attribute what the nearest style on it states |
| `StyleResolution.TrailDoesNotMatter` | adapter_service/tools/compile_format_rule_pack.py:144-152 | a style on no loop of two or more resolves to the overlay of the walk up from it by whatever trail it is reached |
| `StyleResolution.LineageIffNotCircular` | adapter_service/tools/compile_format_rule_pack.py:144-149 | a style has a lineage exactly when its basedOn links do not run in a circle |
| `StyleResolution.CompiledIsSettled` | adapter_service/tools/compile_format_rule_pack.py:135-156 | whatever the order, every style on no such loop ends up with that overlay, loops elsewhere or not |
| `StyleResolution.OrderDecidesExactly` | adapter_service/tools/compile_format_rule_pack.py:144-156 | for every sheet, two orders give a style different attributes exactly when a style of a loop through it states an attribute it does not state itself |
| `StyleResolution.Parser.constructor` | adapter_service/tools/compile_format_rule_pack.py:135-142 | collects the styles with an id, the last of each, in the order the ids first come |
| `StyleResolution.Parser.Resolve` | adapter_service/tools/compile_format_rule_pack.py:144-152 | ends on every sheet, circular or not, returns the resolved attributes and stores each style it passes |
| `StyleResolution.Parser.ParseStyles` | adapter_service/tools/compile_format_rule_pack.py:135-156 | every style is in the result, with the overlay of the walk up from it unless it is on a loop of two or more |
| `PolicyChain.Provenance.PolicySources` | packaging/check_delivery_source_provenance.py:46-86 | the recursion over the shared set of seen policies gives the list of the chain, or the failure |
| `PolicyChain.LoadEndsExactly` | packaging/assemble_phase1_delivery.py:146-169 | loading ends exactly when the chain of bases has no loop |
| `PolicyChain.LoadedIsChain` | packaging/assemble_phase1_delivery.py:160-169 | a loaded policy has the entries of its chain base first, the nearest version, and the generated files of all |
| `PolicyChain.LoadsExactly` | packaging/assemble_phase1_delivery.py:146-160 | a policy loads exactly when a chain of known policies leads from it, each naming its base explicitly, down to one without a base |
| `PolicyChain.ListedExactly` | packaging/check_delivery_source_provenance.py:46-86 | the walk accepts a policy exactly when its bases resolve, one after the other without coming twice, to known policies whose entries make sense, and then lists exactly those policies and what their entries name |
| `PolicyChain.ProvenanceCoversLoading` | packaging/check_delivery_source_provenance.py:46-86 | if the walk accepts a policy, loading it ends, and every policy and every file the merged entries name is in the list |
| `PolicyChain.TwoPolicyLoop` | packaging/assemble_phase1_delivery.py:158-160 | two policies based on each other: loading never ends, and the walk refuses them |
| `Assembly.Delivery.RepositorySource` | packaging/assemble_phase1_delivery.py:30-40 | refuses a path exactly when it or a directory on it is a symbolic link |
| `Assembly.Delivery.CopyFile` | packaging/assemble_phase1_delivery.py:47-56 | succeeds exactly when the source is a regular file and nothing is in the way of the target, and then changes that one path |
| `Assembly.Delivery.CopyTree` | packaging/assemble_phase1_delivery.py:59-84 | succeeds exactly when the entry is good and its files fit the tree as a group, and then adds exactly those |
| `Assembly.Delivery.CopyArchive` | packaging/assemble_phase1_delivery.py:87-143 | succeeds exactly when the entry is good and its members fit the tree as a group, and then adds exactly those |
| `Assembly.Delivery.Assemble` | packaging/assemble_phase1_delivery.py:172-223 | succeeds exactly when there was no delivery, the policy loads, and its entries are sound and leave room for the list; the delivery then holds at each path what the last entry for it gives, and the list with the version, the generated files and exactly the files; a failure leaves nothing; only what the entries name well is read |
| `Assembly.BuiltIsResult` | packaging/assemble_phase1_delivery.py:181-200 | the tree has exactly the paths asked for, each with what its last entry gives, and an entry that does not replace overwrote nothing |
| `Assembly.EntryGives` | packaging/assemble_phase1_delivery.py:47-143 | what an entry asks for is its target, or its target with each path it includes, and what it gives there is the file it names, the file of that path under its tree, or the one member of its archive, data and mode |
| `Assembly.EntryGoodExactly` | packaging/assemble_phase1_delivery.py:30-143 | an entry succeeds on its own exactly when its paths are plain and free of links, its source is there, what it includes is explicit, without metadata or duplicates, and is there; an archive has no link and no member outside, and each file once |
| `Assembly.BuildsExactly` | packaging/assemble_phase1_delivery.py:181-200 | the entries can be copied in order exactly when each succeeds on its own, no file is in another's way, and what is overwritten is by an entry that replaces |
| `Assembly.DeliveryOfChain` | packaging/assemble_phase1_delivery.py:146-220 | the delivery's files are those the entries of the whole chain are for, and its list has the nearest version and the generated files of all |
| `Assembly.ArchiveFindsAll` | packaging/assemble_phase1_delivery.py:108-143 | every requested file is in its archive exactly once, and is what is delivered |
| `Assembly.AllowlistIsExact` | packaging/assemble_phase1_delivery.py:202-220 | the emitted list has exactly the files of the tree, and every requested file but one of the list's own name keeps its content |
| `Assembly.AssembleListed` | packaging/build_v0253_delivery_kit.sh:37-84 | an assembly of a policy the walk has accepted reads nothing the walk has not listed |
| `AcceptanceRecord.AcceptanceFile.Write` | packaging/prepare_v0253_delivery.py:465-548 | rewrites a canonical record between the delimiters and leaves the rest, and its last check never fails; any other record is refused untouched |
| `AcceptanceRecord.SourceExactly` | packaging/prepare_v0253_delivery.py:475-526 | a record can be rewritten exactly when its head is canonical, the matrix is there and each delimiter is mentioned once |
| `AcceptanceRecord.OutsideKept` | packaging/prepare_v0253_delivery.py:532-544 | everything outside the delimiters, and so the test matrix, is kept |
| `AcceptanceRecord.AuditExactly` | packaging/audit_v0253_delivery.py:375-497 | a record whose head fits some context passes the audit exactly when that is the context the manifest calls for |
| `AcceptanceRecord.AuditIsHead` | packaging/audit_v0253_delivery.py:375-497 | for every record the audit passes exactly when its lines open with the canonical ones around the context the manifest calls for, and the title, headings and delimiters come once |
| `AcceptanceRecord.GeneratedTells` | packaging/prepare_v0253_delivery.py:481-531 | what is written tells any two candidates, issues and predecessors apart |
| `AcceptanceRecord.PreparedMeetsAudit` | packaging/audit_v0253_delivery.py:409-497 | against the tool's own manifest the written record passes exactly for issue 59 and a predecessor whose status goes with its version |
| `AcceptanceRecord.EitherPredecessorPasses` | packaging/prepare_v0253_delivery.py:224-264 | for both kinds of predecessor the tool reads, issue 59 is all it depends on |
| `CandidateLineage.StatusFile.RecordCandidate` | packaging/prepare_v0253_delivery.py:267-322 | refuses the list untouched exactly when the predecessor's record is not as expected; otherwise the new record is last and the only one of its build, and every record of another build is kept in order |
| `CandidateLineage.RecordedMeetsAudit` | packaging/audit_v0253_delivery.py:641-749 | for a predecessor and a list the tool accepts, the recorded list passes exactly when the archive's series goes with its version and build, no other build is a candidate, and a rejected predecessor's record is of its own build |
| `CandidateLineage.LineageExactly` | packaging/audit_v0253_delivery.py:641-749 | for every list and manifest the audit passes exactly when the one candidate is the one record of the manifest's build, with its archive, commit and checksum, and the predecessor is absent, if of the series before, or else the one record of its archive, rejected, of its build, digest and commit |
| `CandidateLineage.CandidatesRecorded` | packaging/prepare_v0253_delivery.py:307-322 | the recorded list has one candidate exactly when every earlier one was of the same build, and then it is the new one |
| `CandidateLineage.OtherCandidateFails` | packaging/prepare_v0253_delivery.py:314-321 | a list with a candidate of another build keeps it, and never passes after recording |
| `ColumnNames.ExcelColumnName` | adapter_service/tools/build_writing_policy_candidates.py:262-267 | the loop gives a name of the letters A to Z that stands for the index, empty only for 0 |
| `ColumnNames.Bijection` | adapter_service/tools/build_writing_policy_candidates.py:262-267 | every name is the name of exactly one index |
| `ColumnNames.OrderKept` | adapter_service/tools/build_writing_policy_candidates.py:262-267 | indices are in the order of their names, by length and then by letter |
| `ColumnNames.EndsExactly` | adapter_service/tools/build_writing_policy_candidates.py:262-267 | the loop ends exactly for the indices that are not negative |

## Left out

- Sockets, clocks and the read deadline: a connection is a script of how many octets each read has ready and which reads fail; a read timing out is a failure with its own reply.
- HTTP headers come as their trimmed values, transfer codings in lower case; HTTP routing and response envelopes are not modelled.
- Message texts, labels, rendering, notifications, phases and error strings of the two clients; the source drawers, clipboard, document conversion and file upload.
- The ledger's headers, instruction, facts and conflict choices: whether a column is chosen and how the conflict check comes out are parameters of the events.
- The sheet itself: a sheet call throws having written nothing, returns a report, or takes the pane down with the write done or not.
- One session of each client; binding a saved outline to another document is not modelled, and texts reach the outline's setters trimmed.
- The fields of a session are one record in a field of its class, so a method updates several at once where the client assigns them one by one between two waits.
- `History` in `Ledger` (acceptance numbers, writes, outcomes, ids) is the model's own record of a run; the client keeps none of it.
- OutlineAsks.OneTimerAlways: assumes ids are not reused; `FreshJobs` states it.
- LedgerSheet.SubmittedIffCleared: assumes ids are not reused, as `FreshRun` states it.
- LedgerJobs.OncePerJobAlways: assumes ids are not reused, where the client draws them at random and the server chooses its own; `FreshRun` states it.
- LedgerPane.Session.Generate: takes the drawn id as a parameter, and keeps the whole of `Valid()` only if it is fresh; so does LedgerPane.Session.SubmitReplied for the id the server gives.
- LedgerPane.Session.Cancel: keeps `Valid()` as the handler of a user's cancel; as the tail of another handler it is part of that handler's step, which keeps it.
- LedgerPolls.AttendedThroughoutExactly: a cancel that the user asked for does not count as something that will ask after the job, since its handler polls only on some answers.
- Outline.NeverLost: one pane lifetime that starts, as the task pane does, with a poll on opening; what holds without that poll is `Outline.LoadedUnattended`.
- The outline's status after a late cancel reply is not claimed stable: the reply sets it while the job id is still the same.
- BodyReplay.FullReviewBody: the response of a refusal and the log are left out; the length that passed the cap is kept.
- The smart-fill middleware and the others derived from the full-review one differ in path and cap only.
- StyleResolution.ExtractStyle: line spacing is the exact quotient, not rounded to four digits, and sizes are reals; attribute texts are read from a record instead of XML.
- PolicyChain.ProvenanceCoversLoading: policy files are not symbolic links, so that resolving a path is a matter of its parts; sources that are links are modelled and refused.
- PolicyChain.LoadPolicy: takes a bound on nested calls, since loading need not end; `PolicyChain.LoadEndsExactly` says when some bound is enough, and `LoadIsFinal` that a larger one changes nothing.
- JSON, tar and path text are not parsed: policies, archives and paths come as records and parts, and values of the wrong type are left out.
- Assembly.Delivery.Assemble: failures are not told apart, and the emitted list is a set, not a sorted list.
- AcceptanceRecord.AcceptanceFile.Write: a record is a sequence of lines and the canonical and generated lines are their parts, so joining and splitting text and the wording are not modelled; a stale narrative is a mark of the other lines, which the canonical and generated ones lack.
- CandidateLineage.RecordedMeetsAudit: names of archives and builds come as their parts, digests are well formed, and the checks of the file's own header and of the manifest's dates, which both tools make alike, are left out.
- The delivery note, version rewriting and archive checksums.
- SHA-256, regular expressions, secret scanning, shell scripts, lifecycle gates, the site and ribbon scripts, and the job stores and services behind the adapter.
