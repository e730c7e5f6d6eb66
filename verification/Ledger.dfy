/** The task-ledger client as a state machine: one pane, its durable copy, the requests it has in
    flight, the poll timers it has set and the sheet it writes to.  Each handler is cut where it
    waits; storage may fail at any write and the pane may be reloaded between any two events. */
module Ledger {
  import opened Options

  datatype Status = Idle | Running | Queued | Completed | Failed | Cancelled | Interrupted | Other

  datatype WriteStatus = NotWritten | Ready | Writing | Written | WriteFailed | WriteInterrupted

  // An accepted result.  `stamp` and `job` are the model's own marks: the number of the acceptance,
  // and the job it came from ("" when it was set directly).
  datatype Table = Table(stamp: nat, job: string, rows: nat)

  // What the pane remembers of writing the current result to the sheet; `report` is the success
  // flag of the last report, `target` whether a blank target range has been confirmed.
  datatype WriteState = WriteState(status: WriteStatus, report: Option<bool>, target: bool, writing: bool)

  datatype Pane =
    Pane(jobId: string, clientJobId: string, status: Status, result: Option<Table>, pending: Option<string>,
         paused: bool, includeHeaders: bool, write: WriteState,
         busy: bool, pollScheduled: bool, preparing: bool, submissionPending: bool, cancelRequested: bool,
         pollErrors: nat)

  // What `persist` writes.
  datatype Saved =
    Saved(jobId: string, clientJobId: string, status: Status, result: Option<Table>, pending: Option<string>,
          paused: bool, includeHeaders: bool, writeStatus: WriteStatus, report: Option<bool>)

  // Who continues when a cancel request is answered: nobody, or a handler that waits for it and then
  // polls for the job current by then, or for the job it was handling.
  datatype Resume = Alone | ThenCurrent | ThenJob(job: string)

  datatype Request =
    | PrepareFor(jobId: string)
    | SubmitFor(jobId: string)
    | PollFor(jobId: string)
    | CancelFor(jobId: string, resume: Resume)
    | MaterialsChange
    | MaterialsCheck

  // The model's own record of a run: results accepted so far, sheet writes that succeeded or may
  // have, ids in use, jobs whose terminal outcome this pane has applied, jobs submitted, and jobs
  // cancelled while preparing.
  datatype History =
    History(accepted: nat, writes: seq<Table>, names: set<string>, outcomes: seq<string>,
            submitted: set<string>, dropped: set<string>)

  datatype World =
    World(pane: Pane, store: Option<Saved>, inFlight: multiset<Request>, timers: multiset<string>, history: History)

  const MAX_POLL_ERRORS := 3

  // ---- replies and events

  datatype Job = Job(status: Status, rows: Option<nat>)

  datatype ConflictsReply = ConflictsError | Unresolved | Clear
  // A reply without a job id is an error without a status.
  datatype SubmitReply = Submitted(jobId: string, job: Job) | SubmitError(refused: bool)
  datatype PollReply = Polled(job: Job) | PollError(gone: bool)
  datatype CancelReply = CancelAnswered(job: Job) | CancelMissing | CancelGone | CancelError

  // What becomes of the sheet call: it is not available, it throws having written nothing, it
  // returns a report, or the pane dies during it with the write done or not.
  datatype SheetCall = Unavailable | Threw | Reported(success: bool) | Died(wrote: bool)

  // `saved` says whether the write to storage, where the handler makes one, succeeds.
  datatype Event =
    | Generate(id: string, headersChosen: bool, saved: bool)
    | ConflictsReplied(jobId: string, conflictsReply: ConflictsReply, saved: bool)
    | SubmitReplied(jobId: string, submitReply: SubmitReply, saved: bool)
    | TimerFired(jobId: string)
    | PollReplied(jobId: string, pollReply: PollReply, saved: bool)
    | StopWaiting(saved: bool)
    | Cancel(saved: bool)
    | CancelReplied(jobId: string, resume: Resume, cancelReply: CancelReply, saved: bool)
    | SetResult(rows: Option<nat>, saved: bool)
    | MaterialsStarted
    | MaterialsEnded(failed: bool, saved: bool)
    | MaterialsChecked(failed: bool)
    | Edit(saved: bool)
    | Restore
    | SetIncludeHeaders(shown: bool, saved: bool)
    | InspectTarget(blank: bool)
    | WriteToSheet(savedBefore: bool, sheet: SheetCall, savedAfter: bool)
    | Reload

  // ---- persistence

  function Save(p: Pane): Saved {
    Saved(p.jobId, p.clientJobId, p.status, p.result, p.pending, p.paused, p.includeHeaders,
          p.write.status, p.write.report)
  }

  const NoWrite := WriteState(NotWritten, None, false, false)

  predicate IsLive(s: Status) {
    s == Running || s == Queued
  }

  // A write that was under way when the pane went away is interrupted: nobody knows how it ended.
  function LoadWrite(s: Saved): WriteState {
    var status :=
      if s.writeStatus == Writing || s.writeStatus == WriteInterrupted then WriteInterrupted
      else if s.report == Some(true) then Written
      else NotWritten;
    WriteState(status, s.report, false, false)
  }

  function Load(store: Option<Saved>): Pane {
    match store
    case None =>
      Pane("", "", Idle, None, None, false, true, NoWrite, false, false, false, false, false, 0)
    case Some(s) =>
      Pane(s.jobId, s.clientJobId, s.status, s.result, s.pending, s.paused, s.includeHeaders, LoadWrite(s),
           s.jobId != "" && IsLive(s.status), false, false, false, false, 0)
  }

  function Persist(w: World, saved: bool): World {
    if saved then w.(store := Some(Save(w.pane))) else w
  }

  // ---- jobs

  function PollJob(w: World, jobId: string): World {
    var p := w.pane;
    if jobId == "" || p.jobId != jobId || p.pollScheduled || !p.busy || p.paused then w
    else w.(pane := p.(pollScheduled := true), timers := w.timers + multiset{jobId})
  }

  function Settled(p: Pane): Pane {
    p.(jobId := "", pending := None, paused := false, cancelRequested := false, submissionPending := false,
       preparing := false)
  }

  // finishJob, for an answer about `source` ("" when no job gave it).
  function FinishJob(w: World, source: string, job: Job, saved: bool): World {
    var h := w.history;
    var p := w.pane.(status := job.status, busy := IsLive(job.status));
    var p1 :=
      if job.status == Completed then
        p.(write := NoWrite,
           result := if job.rows.None? then None else Some(Table(h.accepted, source, job.rows.value)))
      else p;
    var h1 := h.(accepted := if job.status == Completed then h.accepted + 1 else h.accepted,
                 outcomes := if source == "" || IsLive(job.status) then h.outcomes else h.outcomes + [source]);
    Persist(w.(pane := if IsLive(job.status) then p1 else Settled(p1), history := h1), saved)
  }

  // The front of `cancel`: a job still preparing is settled on the spot.
  function StartCancel(w: World, resume: Resume, saved: bool): World {
    var p := w.pane;
    if p.jobId == "" then w
    else if p.preparing then
      var w' := w.(pane := p.(cancelRequested := true, preparing := false),
                   history := w.history.(dropped := w.history.dropped + {p.jobId}));
      FinishJob(w', p.jobId, Job(Cancelled, None), saved)
    else w.(pane := p.(cancelRequested := true), inFlight := w.inFlight + multiset{CancelFor(p.jobId, resume)})
  }

  function BeginSubmit(w: World, jobId: string, saved: bool): World {
    var p := w.pane.(pending := Some(jobId), preparing := false, submissionPending := true, clientJobId := jobId,
                     jobId := jobId, status := Running, result := None, write := NoWrite, busy := true);
    var h := w.history.(submitted := w.history.submitted + {jobId});
    Persist(w.(pane := p, history := h), saved).(inFlight := w.inFlight + multiset{SubmitFor(jobId)})
  }

  function StartGenerate(w: World, id: string, headersChosen: bool, saved: bool): World {
    var p := w.pane;
    if p.jobId != "" && p.paused then PollJob(w.(pane := p.(paused := false, pollErrors := 0)), p.jobId)
    else if p.busy || (p.pending.None? && !headersChosen) then w
    else
      var jobId := if p.pending.None? then id else p.pending.value;
      var p' := p.(clientJobId := jobId, jobId := jobId, status := Running, preparing := p.pending.None?,
                   cancelRequested := false, paused := false, pollErrors := 0, busy := true);
      var w' := w.(pane := p', history := w.history.(names := w.history.names + {jobId}));
      if p.pending.None? then w'.(inFlight := w.inFlight + multiset{PrepareFor(jobId)})
      else BeginSubmit(w', jobId, saved)
  }

  function FinishPrepare(w: World, jobId: string, reply: ConflictsReply, saved: bool): World {
    if w.pane.jobId != jobId then w
    else if reply.Clear? then BeginSubmit(w, jobId, saved)
    else w.(pane := w.pane.(preparing := false, jobId := "", status := Failed, busy := false))
  }

  // The tail the submit and poll handlers share once a live answer is in.
  function CancelOrPoll(w: World, resume: Resume, saved: bool): World {
    if !w.pane.busy then w
    else if w.pane.cancelRequested then StartCancel(w, resume, saved)
    else PollJob(w, w.pane.jobId)
  }

  // The submit may have arrived: the job is kept and asked after.
  function UnconfirmedSubmit(w: World, saved: bool): World {
    var p := w.pane.(submissionPending := false, status := Running, busy := true);
    PollJob(Persist(w.(pane := p), saved), p.jobId)
  }

  function RefusedSubmit(w: World, saved: bool): World {
    var p := w.pane.(submissionPending := false, pending := None, jobId := "", status := Failed, busy := false);
    var h := w.history.(outcomes := w.history.outcomes + [w.pane.jobId]);
    Persist(w.(pane := p, history := h), saved)
  }

  function AcceptedSubmit(w: World, id: string, job: Job, saved: bool): World {
    var w' := w.(pane := w.pane.(submissionPending := false, jobId := id, pending := None),
                 history := w.history.(names := w.history.names + {id}));
    CancelOrPoll(FinishJob(w', id, job, saved), ThenCurrent, saved)
  }

  function FinishSubmit(w: World, clientJobId: string, reply: SubmitReply, saved: bool): World {
    if w.pane.clientJobId != clientJobId || w.pane.jobId != clientJobId then w
    else match reply
      case Submitted(id, job) => if id == "" then UnconfirmedSubmit(w, saved) else AcceptedSubmit(w, id, job, saved)
      case SubmitError(false) => UnconfirmedSubmit(w, saved)
      case SubmitError(true) => RefusedSubmit(w, saved)
  }

  function Fire(w: World, jobId: string): World {
    var p := w.pane;
    var w' := w.(timers := w.timers - multiset{jobId});
    if p.jobId != jobId || !p.busy || p.paused then w'.(pane := p.(pollScheduled := false))
    else w'.(inFlight := w.inFlight + multiset{PollFor(jobId)})
  }

  function Pause(w: World, saved: bool): World {
    if w.pane.jobId == "" then w else Persist(w.(pane := w.pane.(paused := true)), saved)
  }

  // The job is gone from the server.
  function LoseJob(w: World): World {
    w.(pane := w.pane.(jobId := "", pending := None, status := Interrupted, busy := false),
       history := w.history.(outcomes := w.history.outcomes + [w.pane.jobId]))
  }

  function ApplyPoll(w: World, job: Job, saved: bool): World {
    var w' := w.(pane := w.pane.(pending := None, submissionPending := false, pollErrors := 0));
    if w.pane.paused && IsLive(job.status) then w'
    else CancelOrPoll(FinishJob(w', w.pane.jobId, job, saved), ThenJob(w.pane.jobId), saved)
  }

  function FailPoll(w: World, gone: bool, saved: bool): World {
    var p := w.pane;
    if p.paused then w
    else if gone && !p.submissionPending then Persist(LoseJob(w), saved)
    else
      var w' := w.(pane := p.(pollErrors := p.pollErrors + 1));
      if p.pollErrors + 1 > MAX_POLL_ERRORS then Pause(w', saved) else PollJob(w', p.jobId)
  }

  function FinishPoll(w: World, jobId: string, reply: PollReply, saved: bool): World {
    var w' := w.(pane := w.pane.(pollScheduled := false));
    if w.pane.jobId != jobId then w'
    else match reply
      case Polled(job) => ApplyPoll(w', job, saved)
      case PollError(gone) => FailPoll(w', gone, saved)
  }

  function AnswerCancel(w: World, jobId: string, reply: CancelReply, saved: bool): World {
    var p := w.pane;
    if p.jobId != jobId then w
    else match reply
      case CancelAnswered(job) =>
        var w' := FinishJob(w, jobId, job, saved);
        if w'.pane.busy then PollJob(w', w'.pane.jobId) else w'
      case CancelMissing => if p.submissionPending then w else LoseJob(w)
      case CancelGone => LoseJob(w)
      case CancelError => w
  }

  function FinishCancel(w: World, jobId: string, resume: Resume, reply: CancelReply, saved: bool): World {
    var w' := AnswerCancel(w, jobId, reply, saved);
    match resume
    case Alone => w'
    case ThenCurrent => PollJob(w', w'.pane.jobId)
    case ThenJob(job) => PollJob(w', job)
  }

  // ---- writing to the sheet

  function SetHeaders(w: World, shown: bool, saved: bool): World {
    var wr := w.pane.write;
    if wr.report == Some(true) || wr.status == WriteInterrupted then w
    else Persist(w.(pane := w.pane.(includeHeaders := shown, write := wr.(target := false, status := NotWritten))), saved)
  }

  predicate HasRows(p: Pane) {
    p.result.Some? && p.result.value.rows > 0
  }

  function Inspect(w: World, blank: bool): World {
    var wr := w.pane.write;
    if wr.status == WriteInterrupted || wr.report == Some(true) then w
    else if HasRows(w.pane) && blank then w.(pane := w.pane.(write := wr.(target := true, status := Ready)))
    else w.(pane := w.pane.(write := wr.(target := false, status := WriteFailed)))
  }

  predicate MayWrite(p: Pane) {
    && p.status == Completed && HasRows(p) && p.write.report != Some(true)
    && p.write.status != WriteInterrupted && !p.write.writing && p.write.target
  }

  function FailWrite(w: World, savedAfter: bool): World {
    Persist(w.(pane := w.pane.(write := w.pane.write.(writing := false, status := WriteFailed))), savedAfter)
  }

  function Logged(w: World): World
    requires w.pane.result.Some?
  {
    w.(history := w.history.(writes := w.history.writes + [w.pane.result.value]))
  }

  // "writing" goes to storage before the sheet is touched; without it there is no sheet call.
  function Write(w: World, savedBefore: bool, sheet: SheetCall, savedAfter: bool): World {
    if !MayWrite(w.pane) then w
    else
      var w1 := w.(pane := w.pane.(write := w.pane.write.(writing := true, status := Writing)));
      if sheet.Unavailable? || !savedBefore then FailWrite(w1, savedAfter)
      else
        EndCall(Persist(w1, true), sheet, savedAfter)
  }

  // The sheet call and what follows it.
  function EndCall(w: World, sheet: SheetCall, savedAfter: bool): World
    requires w.pane.result.Some? && !sheet.Unavailable?
  {
    match sheet
    case Threw => FailWrite(w, savedAfter)
    case Reported(success) =>
      var w' := if success then Logged(w) else w;
      Persist(w'.(pane := w'.pane.(write :=
        w'.pane.write.(writing := false, status := Written, report := Some(success)))), savedAfter)
    case Died(wrote) => Reopened(if wrote then Logged(w) else w)
  }

  function Reopened(w: World): World {
    World(Load(w.store), w.store, multiset{}, multiset{}, w.history.(outcomes := []))
  }

  // ---- steps

  function Taken(w: World, r: Request): World {
    w.(inFlight := w.inFlight - multiset{r})
  }

  function StartMaterials(w: World): World {
    if w.pane.busy then w
    else w.(pane := w.pane.(busy := true), inFlight := w.inFlight + multiset{MaterialsChange})
  }

  // A change that succeeds goes on to check for conflicts, no longer busy; if the check fails, the
  // handler's error path clears `busy` a second time.
  function EndMaterials(w: World, failed: bool, saved: bool): World {
    var w' := w.(pane := w.pane.(busy := false));
    if failed then w' else Persist(w', saved).(inFlight := w.inFlight + multiset{MaterialsCheck})
  }

  function EndCheck(w: World, failed: bool): World {
    if failed then w.(pane := w.pane.(busy := false)) else w
  }

  function Step(w: World, e: Event): World {
    match e
    case Generate(id, headersChosen, saved) => StartGenerate(w, id, headersChosen, saved)
    case ConflictsReplied(id, reply, saved) =>
      if PrepareFor(id) !in w.inFlight then w else FinishPrepare(Taken(w, PrepareFor(id)), id, reply, saved)
    case SubmitReplied(id, reply, saved) =>
      if SubmitFor(id) !in w.inFlight then w else FinishSubmit(Taken(w, SubmitFor(id)), id, reply, saved)
    case TimerFired(id) => if id !in w.timers then w else Fire(w, id)
    case PollReplied(id, reply, saved) =>
      if PollFor(id) !in w.inFlight then w else FinishPoll(Taken(w, PollFor(id)), id, reply, saved)
    case StopWaiting(saved) => Pause(w, saved)
    case Cancel(saved) => StartCancel(w, Alone, saved)
    case CancelReplied(id, resume, reply, saved) =>
      if CancelFor(id, resume) !in w.inFlight then w
      else FinishCancel(Taken(w, CancelFor(id, resume)), id, resume, reply, saved)
    case SetResult(rows, saved) => FinishJob(w, "", Job(Completed, rows), saved)
    case MaterialsStarted => StartMaterials(w)
    case MaterialsEnded(failed, saved) =>
      if MaterialsChange !in w.inFlight then w else EndMaterials(Taken(w, MaterialsChange), failed, saved)
    case MaterialsChecked(failed) =>
      if MaterialsCheck !in w.inFlight then w else EndCheck(Taken(w, MaterialsCheck), failed)
    case Edit(saved) => Persist(w, saved)
    case Restore => if w.pane.busy then PollJob(w, w.pane.jobId) else w
    case SetIncludeHeaders(shown, saved) => SetHeaders(w, shown, saved)
    case InspectTarget(blank) => Inspect(w, blank)
    case WriteToSheet(savedBefore, sheet, savedAfter) => Write(w, savedBefore, sheet, savedAfter)
    case Reload => Reopened(w)
  }

  function Run(w: World, es: seq<Event>): World
    decreases |es|
  {
    if es == [] then w else Step(Run(w, es[..|es| - 1]), es[|es| - 1])
  }

  const Fresh := World(Load(None), None, multiset{}, multiset{}, History(0, [], {}, [], {}, {}))

  // ---- one sheet write per accepted result

  // A copy of the result, in the pane or in storage, that will not be written again.
  ghost predicate Locked(p: Pane) {
    p.write.report == Some(true) || p.write.status == WriteInterrupted
  }

  ghost predicate SavedLocked(s: Saved) {
    s.report == Some(true) || s.writeStatus == WriteInterrupted || s.writeStatus == Writing
  }

  ghost predicate StampWritten(h: History, stamp: nat) {
    exists i :: 0 <= i < |h.writes| && h.writes[i].stamp == stamp
  }

  ghost predicate CopyOk(h: History, result: Option<Table>, locked: bool) {
    result.Some? ==> result.value.stamp < h.accepted && (StampWritten(h, result.value.stamp) ==> locked)
  }

  ghost predicate WriteInv(w: World) {
    && CopyOk(w.history, w.pane.result, Locked(w.pane))
    && (w.store.Some? ==> CopyOk(w.history, w.store.value.result, SavedLocked(w.store.value)))
    && (forall i :: 0 <= i < |w.history.writes| ==> w.history.writes[i].stamp < w.history.accepted)
    && OncePerResult(w.history)
  }

  ghost predicate OncePerResult(h: History) {
    forall i, j :: 0 <= i < j < |h.writes| ==> h.writes[i].stamp != h.writes[j].stamp
  }

  // What every event but a sheet write and a reload does to the copies: the pane keeps its result,
  // and its lock if it had one, or drops it, or accepts a new one, and locks nothing; storage is left
  // alone or takes the result the pane has now, with its lock.
  ghost predicate PaneMove(p: Pane, h: History, p': Pane, h': History) {
    && (|| (p'.result == p.result && (Locked(p) ==> Locked(p')))
        || p'.result.None?
        || h.accepted <= p'.result.value.stamp < h'.accepted)
    && (Locked(p') ==> Locked(p) && p'.result == p.result)
  }

  ghost predicate StoreMove(store: Option<Saved>, p': Pane, store': Option<Saved>) {
    || store' == store
    || (store'.Some? && store'.value.result == p'.result && (Locked(p') ==> SavedLocked(store'.value)))
  }

  ghost predicate Moved(p: Pane, store: Option<Saved>, h: History, p': Pane, store': Option<Saved>, h': History) {
    h'.writes == h.writes && h.accepted <= h'.accepted && PaneMove(p, h, p', h') && StoreMove(store, p', store')
  }

  ghost predicate WriteMove(w: World, w': World) {
    Moved(w.pane, w.store, w.history, w'.pane, w'.store, w'.history)
  }

  // Nothing in the pane that bears on writing has changed; storage may have been brought up to date.
  ghost predicate SameWrites(w: World, w': World) {
    && w'.pane.result == w.pane.result && w'.pane.write == w.pane.write
    && w'.history.writes == w.history.writes && w'.history.accepted == w.history.accepted
    && StoreMove(w.store, w'.pane, w'.store)
  }

  lemma SameIsMove(w: World, w': World)
    requires SameWrites(w, w')
    ensures WriteMove(w, w')
  {
  }

  lemma MoveThenSame(w: World, w1: World, w2: World)
    requires WriteMove(w, w1) && SameWrites(w1, w2)
    ensures WriteMove(w, w2)
  {
  }

  lemma SameThenMove(w: World, w1: World, w2: World)
    requires SameWrites(w, w1) && w1.store == w.store && WriteMove(w1, w2)
    ensures WriteMove(w, w2)
  {
  }

  lemma PersistSame(w: World, w1: World, saved: bool)
    requires SameWrites(w, w1) && w1.store == w.store
    ensures SameWrites(w, Persist(w1, saved))
  {
  }

  lemma PollJobSame(w: World, jobId: string)
    ensures SameWrites(w, PollJob(w, jobId)) && PollJob(w, jobId).store == w.store
  {
  }

  lemma FinishJobMoves(w: World, source: string, job: Job, saved: bool)
    ensures WriteMove(w, FinishJob(w, source, job, saved))
    ensures job.status != Completed ==> SameWrites(w, FinishJob(w, source, job, saved))
  {
  }

  lemma CancelSame(w: World, resume: Resume, saved: bool)
    ensures SameWrites(w, StartCancel(w, resume, saved))
  {
    hide FinishJob;
    var p := w.pane;
    var w' := w.(pane := p.(cancelRequested := true, preparing := false),
                 history := w.history.(dropped := w.history.dropped + {p.jobId}));
    FinishJobMoves(w', p.jobId, Job(Cancelled, None), saved);
  }

  lemma CancelOrPollSame(w: World, resume: Resume, saved: bool)
    ensures SameWrites(w, CancelOrPoll(w, resume, saved))
  {
    hide StartCancel, PollJob;
    CancelSame(w, resume, saved);
    PollJobSame(w, w.pane.jobId);
  }

  lemma BeginSubmitMoves(w: World, jobId: string, saved: bool)
    ensures WriteMove(w, BeginSubmit(w, jobId, saved))
  {
  }

  lemma GenerateMoves(w: World, id: string, headersChosen: bool, saved: bool)
    ensures WriteMove(w, StartGenerate(w, id, headersChosen, saved))
  {
    hide BeginSubmit, PollJob;
    Unmoved(w);
    var p := w.pane;
    var w0 := w.(pane := p.(paused := false, pollErrors := 0));
    PollJobSame(w0, p.jobId);
    SameIsMove(w0, PollJob(w0, p.jobId));
    var jobId := if p.pending.None? then id else p.pending.value;
    var p' := p.(clientJobId := jobId, jobId := jobId, status := Running, preparing := p.pending.None?,
                 cancelRequested := false, paused := false, pollErrors := 0, busy := true);
    BeginSubmitMoves(w.(pane := p', history := w.history.(names := w.history.names + {jobId})), jobId, saved);
  }

  lemma PrepareMoves(w: World, jobId: string, reply: ConflictsReply, saved: bool)
    ensures WriteMove(w, FinishPrepare(w, jobId, reply, saved))
  {
    hide BeginSubmit;
    BeginSubmitMoves(w, jobId, saved);
  }

  lemma AnswerMoves(w: World, w': World, source: string, job: Job, resume: Resume, saved: bool)
    requires SameWrites(w, w') && w'.store == w.store
    ensures WriteMove(w, CancelOrPoll(FinishJob(w', source, job, saved), resume, saved))
  {
    hide FinishJob, CancelOrPoll, SameWrites, WriteMove;
    FinishJobMoves(w', source, job, saved);
    SameThenMove(w, w', FinishJob(w', source, job, saved));
    CancelOrPollSame(FinishJob(w', source, job, saved), resume, saved);
    MoveThenSame(w, FinishJob(w', source, job, saved), CancelOrPoll(FinishJob(w', source, job, saved), resume, saved));
  }

  lemma SubmitReplyMoves(w: World, id: string, reply: SubmitReply, saved: bool)
    ensures WriteMove(w, FinishSubmit(w, id, reply, saved))
  {
    hide FinishJob, CancelOrPoll, PollJob, WriteMove;
    SameIsMove(w, w);
    match reply {
      case Submitted(id', job) =>
        AnswerMoves(w, w.(pane := w.pane.(submissionPending := false, jobId := id', pending := None),
                          history := w.history.(names := w.history.names + {id'})), id', job, ThenCurrent, saved);
        UnconfirmedMoves(w, saved);
      case SubmitError(_) =>
        UnconfirmedMoves(w, saved);
        SameIsMove(w, RefusedSubmit(w, saved));
    }
  }

  lemma UnconfirmedMoves(w: World, saved: bool)
    ensures WriteMove(w, UnconfirmedSubmit(w, saved))
  {
    hide PollJob;
    var p := w.pane.(submissionPending := false, status := Running, busy := true);
    PollJobSame(Persist(w.(pane := p), saved), p.jobId);
  }

  lemma PollReplyMoves(w: World, id: string, reply: PollReply, saved: bool)
    ensures WriteMove(w, FinishPoll(w, id, reply, saved))
  {
    hide ApplyPoll, FailPoll;
    var w' := w.(pane := w.pane.(pollScheduled := false));
    match reply {
      case Polled(job) => ApplyPollMoves(w', job, saved);
      case PollError(gone) => FailPollMoves(w', gone, saved);
    }
  }

  lemma ApplyPollMoves(w: World, job: Job, saved: bool)
    ensures WriteMove(w, ApplyPoll(w, job, saved))
  {
    hide FinishJob, CancelOrPoll, WriteMove;
    var w' := w.(pane := w.pane.(pending := None, submissionPending := false, pollErrors := 0));
    SameIsMove(w, w');
    AnswerMoves(w, w', w.pane.jobId, job, ThenJob(w.pane.jobId), saved);
  }

  lemma FailPollMoves(w: World, gone: bool, saved: bool)
    ensures WriteMove(w, FailPoll(w, gone, saved))
  {
    hide PollJob, Moved, Pause, SameWrites;
    assert SameWrites(w, w) && SameWrites(w, Persist(LoseJob(w), saved)) by {
      LostSame(w, saved);
    }
    var w' := w.(pane := w.pane.(pollErrors := w.pane.pollErrors + 1));
    SameIsMove(w, w);
    SameIsMove(w, Persist(LoseJob(w), saved));
    PollJobSame(w', w.pane.jobId);
    SameIsMove(w', PollJob(w', w.pane.jobId));
    PauseSame(w', saved);
    SameIsMove(w', Pause(w', saved));
    CountMoves(w, w', PollJob(w', w.pane.jobId));
    CountMoves(w, w', Pause(w', saved));
  }

  lemma LostSame(w: World, saved: bool)
    ensures SameWrites(w, w) && SameWrites(w, Persist(LoseJob(w), saved))
  {
  }

  lemma CountMoves(w: World, w': World, w'': World)
    requires w' == w.(pane := w.pane.(pollErrors := w.pane.pollErrors + 1)) && WriteMove(w', w'')
    ensures WriteMove(w, w'')
  {
  }

  lemma CancelReplyMoves(w: World, id: string, resume: Resume, reply: CancelReply, saved: bool)
    ensures WriteMove(w, FinishCancel(w, id, resume, reply, saved))
  {
    hide AnswerCancel, PollJob, WriteMove;
    var w' := AnswerCancel(w, id, reply, saved);
    AnswerCancelMoves(w, id, reply, saved);
    if !resume.Alone? {
      var job := if resume.ThenCurrent? then w'.pane.jobId else resume.job;
      PollJobSame(w', job);
      MoveThenSame(w, w', PollJob(w', job));
    }
  }

  lemma AnswerCancelMoves(w: World, id: string, reply: CancelReply, saved: bool)
    ensures WriteMove(w, AnswerCancel(w, id, reply, saved))
  {
    hide FinishJob, PollJob, WriteMove;
    SameIsMove(w, w);
    SameIsMove(w, LoseJob(w));
    if reply.CancelAnswered? {
      var w' := FinishJob(w, id, reply.job, saved);
      FinishJobMoves(w, id, reply.job, saved);
      PollJobSame(w', w'.pane.jobId);
      MoveThenSame(w, w', PollJob(w', w'.pane.jobId));
    }
  }

  lemma PauseSame(w: World, saved: bool)
    ensures SameWrites(w, Pause(w, saved))
  {
  }

  lemma FireSame(w: World, jobId: string)
    ensures SameWrites(w, Fire(w, jobId))
  {
  }

  lemma OtherMoves(w: World, e: Event)
    requires e.Edit? || e.SetIncludeHeaders? || e.InspectTarget?
    ensures WriteMove(w, Step(w, e))
  {
  }

  lemma MaterialsMove(w: World, e: Event)
    requires e.MaterialsStarted? || e.MaterialsEnded? || e.MaterialsChecked?
    ensures WriteMove(w, Step(w, e))
  {
  }

  lemma EventMoves(w: World, e: Event)
    requires !e.WriteToSheet? && !e.Reload?
    ensures WriteMove(w, Step(w, e))
  {
    hide StartGenerate, FinishPrepare, FinishSubmit, FinishPoll, FinishCancel, StartCancel, FinishJob, PollJob, Moved,
         Pause, Fire, SameWrites;
    assert WriteMove(w, w) by {
      Unmoved(w);
    }
    match e {
      case Generate(id, headersChosen, saved) => GenerateMoves(w, id, headersChosen, saved);
      case ConflictsReplied(id, reply, saved) => PrepareMoves(Taken(w, PrepareFor(id)), id, reply, saved);
      case SubmitReplied(id, reply, saved) => SubmitReplyMoves(Taken(w, SubmitFor(id)), id, reply, saved);
      case TimerFired(id) =>
        FireSame(w, id);
        SameIsMove(w, Fire(w, id));
      case PollReplied(id, reply, saved) => PollReplyMoves(Taken(w, PollFor(id)), id, reply, saved);
      case StopWaiting(saved) =>
        PauseSame(w, saved);
        SameIsMove(w, Pause(w, saved));
      case Cancel(saved) =>
        CancelSame(w, Alone, saved);
        SameIsMove(w, StartCancel(w, Alone, saved));
      case CancelReplied(id, resume, reply, saved) =>
        CancelReplyMoves(Taken(w, CancelFor(id, resume)), id, resume, reply, saved);
      case SetResult(rows, saved) => FinishJobMoves(w, "", Job(Completed, rows), saved);
      case Restore =>
        PollJobSame(w, w.pane.jobId);
        SameIsMove(w, PollJob(w, w.pane.jobId));
      case MaterialsStarted => MaterialsMove(w, e);
      case MaterialsEnded(_, _) => MaterialsMove(w, e);
      case MaterialsChecked(_) => MaterialsMove(w, e);
      case _ => OtherMoves(w, e);
    }
  }

  lemma Unmoved(w: World)
    ensures WriteMove(w, w)
  {
  }

  lemma MoveKeepsWriteInv(w: World, w': World)
    requires WriteInv(w) && WriteMove(w, w')
    ensures WriteInv(w')
  {
    assert forall t: nat :: StampWritten(w'.history, t) ==> StampWritten(w.history, t);
  }

  // The pane had no lock, so its result has not been written before.
  lemma LogKeepsWriteInv(h: History, t: Table)
    requires OncePerResult(h) && !StampWritten(h, t.stamp)
    ensures OncePerResult(h.(writes := h.writes + [t]))
    ensures forall x: nat :: StampWritten(h.(writes := h.writes + [t]), x) <==> StampWritten(h, x) || x == t.stamp
  {
    var h' := h.(writes := h.writes + [t]);
    assert h'.writes[|h.writes|] == t;
    forall x: nat | StampWritten(h, x)
      ensures StampWritten(h', x)
    {
      var i :| 0 <= i < |h.writes| && h.writes[i].stamp == x;
      assert h'.writes[i].stamp == x;
    }
  }

  // A write is noted in a world whose copies of the result are locked.
  lemma LoggedKeeps(w: World)
    requires WriteInv(w) && w.pane.result.Some? && !StampWritten(w.history, w.pane.result.value.stamp)
    requires Locked(w.pane) && (w.store.Some? ==> SavedLocked(w.store.value))
    ensures WriteInv(Logged(w))
  {
    LogKeepsWriteInv(w.history, w.pane.result.value);
    hide StampWritten, OncePerResult;
  }

  lemma WriteStateKeeps(w: World, write: WriteState, saved: bool)
    requires WriteInv(w) && (Locked(w.pane) ==> Locked(w.pane.(write := write)))
    ensures WriteInv(w.(pane := w.pane.(write := write))) && WriteInv(Persist(w.(pane := w.pane.(write := write)), saved))
  {
    hide StampWritten, OncePerResult;
  }

  lemma PersistWriteInv(w: World, saved: bool)
    requires WriteInv(w)
    ensures WriteInv(Persist(w, saved))
  {
    hide StampWritten, OncePerResult;
  }

  lemma InterruptedKeeps(w: World)
    requires WriteInv(Reopened(w)) && w.pane.result.Some? && !StampWritten(w.history, w.pane.result.value.stamp)
    requires w.store == Some(Save(w.pane)) && w.pane.write.status == Writing
    ensures WriteInv(Reopened(Logged(w)))
  {
    assert !StampWritten(Reopened(w).history, w.pane.result.value.stamp);
    hide WriteInv, StampWritten;
    LoggedKeeps(Reopened(w));
    assert Reopened(Logged(w)) == Logged(Reopened(w));
  }

  lemma EndCallKeeps(w: World, sheet: SheetCall, savedAfter: bool)
    requires WriteInv(w) && w.pane.result.Some? && !StampWritten(w.history, w.pane.result.value.stamp)
    requires w.store == Some(Save(w.pane)) && w.pane.write.status == Writing && w.pane.write.report != Some(true)
    requires !sheet.Unavailable?
    ensures WriteInv(EndCall(w, sheet, savedAfter))
  {
    hide WriteInv, Persist, Reopened;
    match sheet {
      case Threw => WriteStateKeeps(w, w.pane.write.(writing := false, status := WriteFailed), savedAfter);
      case Reported(success) =>
        var ended := w.pane.write.(writing := false, status := Written, report := Some(success));
        WriteStateKeeps(w, ended, savedAfter);
        if success {
          LoggedKeeps(w.(pane := w.pane.(write := ended)));
          PersistWriteInv(Logged(w.(pane := w.pane.(write := ended))), savedAfter);
        }
      case Died(wrote) =>
        ReloadKeeps(w);
        if wrote {
          InterruptedKeeps(w);
        }
    }
  }

  // What `writeToSheet` makes of the state once "writing" is stored.
  function Calling(w: World): World {
    Persist(w.(pane := w.pane.(write := w.pane.write.(writing := true, status := Writing))), true)
  }

  function Noted(w: World, write: WriteState): World {
    w.(pane := w.pane.(write := write))
  }

  lemma WriteIs(w: World, savedBefore: bool, sheet: SheetCall, savedAfter: bool)
    requires MayWrite(w.pane)
    ensures Write(w, savedBefore, sheet, savedAfter) ==
            if savedBefore && !sheet.Unavailable? then EndCall(Calling(w), sheet, savedAfter)
            else Persist(Noted(w, w.pane.write.(writing := false, status := WriteFailed)), savedAfter)
  {
    hide EndCall;
  }

  lemma WriteKeeps(w: World, savedBefore: bool, sheet: SheetCall, savedAfter: bool)
    requires WriteInv(w)
    ensures WriteInv(Write(w, savedBefore, sheet, savedAfter))
  {
    hide EndCall, StampWritten, OncePerResult, WriteInv;
    if MayWrite(w.pane) {
      WriteIs(w, savedBefore, sheet, savedAfter);
      WriteStateKeeps(w, w.pane.write.(writing := false, status := WriteFailed), savedAfter);
      if savedBefore && !sheet.Unavailable? {
        CallingUnwritten(w);
        EndCallKeeps(Calling(w), sheet, savedAfter);
      }
    }
  }

  lemma CallingUnwritten(w: World)
    requires WriteInv(w) && MayWrite(w.pane)
    ensures WriteInv(Calling(w)) && !StampWritten(Calling(w).history, w.pane.result.value.stamp)
  {
    WriteStateKeeps(w, w.pane.write.(writing := true, status := Writing), true);
    hide StampWritten, OncePerResult;
  }

  lemma ReloadKeeps(w: World)
    requires WriteInv(w)
    ensures WriteInv(Reopened(w))
  {
    assert forall t: nat :: StampWritten(Reopened(w).history, t) ==> StampWritten(w.history, t);
  }

  lemma WriteInvKept(w: World, e: Event)
    requires WriteInv(w)
    ensures WriteInv(Step(w, e))
  {
    hide WriteInv, Write, Reopened, WriteMove;
    if e.WriteToSheet? {
      WriteKeeps(w, e.savedBefore, e.sheet, e.savedAfter);
    } else if e.Reload? {
      ReloadKeeps(w);
    } else {
      EventMoves(w, e);
      MoveKeepsWriteInv(w, Step(w, e));
    }
  }

  // Over every run, whatever storage refuses to keep and however often the pane is reloaded or dies
  // in the middle of a sheet call, no accepted result is written to the sheet twice.
  lemma {:induction false} AtMostOneWrite(es: seq<Event>)
    ensures WriteInv(Run(Fresh, es)) && OncePerResult(Run(Fresh, es).history)
    decreases |es|
  {
    if es != [] {
      AtMostOneWrite(es[..|es| - 1]);
      hide Step;
      WriteInvKept(Run(Fresh, es[..|es| - 1]), es[|es| - 1]);
    }
  }

  // Whenever the pane would write its result, no write of that result has happened, in this pane's
  // life or in an earlier one.
  lemma WritableIsUnwritten(es: seq<Event>)
    requires MayWrite(Run(Fresh, es).pane)
    ensures !StampWritten(Run(Fresh, es).history, Run(Fresh, es).pane.result.value.stamp)
  {
    AtMostOneWrite(es);
    hide Run;
  }

  // ---- only a new result unlocks

  // Every copy of a result accepted before the `n`th is locked.
  ghost predicate Since(w: World, n: nat) {
    && n <= w.history.accepted
    && (w.pane.result.Some? && w.pane.result.value.stamp < n ==> Locked(w.pane))
    && (w.store.Some? && w.store.value.result.Some? && w.store.value.result.value.stamp < n ==>
          SavedLocked(w.store.value))
  }

  // What a locked pane shows is in storage, locked.
  ghost predicate LockInv(w: World) {
    Locked(w.pane) ==> w.store.Some? && w.store.value.result == w.pane.result && SavedLocked(w.store.value)
  }

  lemma LockKept(w: World, e: Event)
    requires LockInv(w)
    ensures LockInv(Step(w, e))
  {
    if e.WriteToSheet? {
      CallKeepsLock(w, e.savedBefore, e.sheet, e.savedAfter);
      hide LockInv, Write;
    } else if e.Reload? {
      ReloadKeepsLock(w);
      hide LockInv, Reopened;
    } else {
      EventMoves(w, e);
      hide Step;
    }
  }

  lemma ReloadKeepsLock(w: World)
    ensures LockInv(Reopened(w))
  {
  }

  lemma CallKeepsLock(w: World, savedBefore: bool, sheet: SheetCall, savedAfter: bool)
    requires LockInv(w)
    ensures LockInv(Write(w, savedBefore, sheet, savedAfter))
  {
    hide EndCall, Calling, Reopened;
    if MayWrite(w.pane) {
      WriteIs(w, savedBefore, sheet, savedAfter);
      if savedBefore && !sheet.Unavailable? {
        assert Calling(w).pane.write.status == Writing && Calling(w).store == Some(Save(Calling(w).pane))
               && Calling(w).pane.write.report != Some(true) && Calling(w).pane.result == w.pane.result by {
          CallingIs(w);
        }
        EndKeepsLock(Calling(w), sheet, savedAfter);
      }
    }
  }

  lemma CallingIs(w: World)
    ensures var c := Calling(w);
            && c.pane == w.pane.(write := w.pane.write.(writing := true, status := Writing))
            && c.store == Some(Save(c.pane)) && c.history == w.history
  {
  }

  lemma EndKeepsLock(w: World, sheet: SheetCall, savedAfter: bool)
    requires w.pane.result.Some? && !sheet.Unavailable? && w.store == Some(Save(w.pane))
    requires w.pane.write.status == Writing && w.pane.write.report != Some(true)
    ensures LockInv(EndCall(w, sheet, savedAfter))
  {
    hide Reopened;
    if sheet.Died? {
      ReloadKeepsLock(if sheet.wrote then Logged(w) else w);
    }
  }

  lemma SinceKept(w: World, e: Event, n: nat)
    requires Since(w, n)
    ensures Since(Step(w, e), n)
  {
    if e.WriteToSheet? {
      CallKeepsSince(w, e.savedBefore, e.sheet, e.savedAfter, n);
      hide Since, Write;
    } else if e.Reload? {
      ReloadKeepsSince(w, n);
      hide Since, Reopened;
    } else {
      EventMoves(w, e);
      hide Step;
    }
  }

  lemma ReloadKeepsSince(w: World, n: nat)
    requires Since(w, n)
    ensures Since(Reopened(w), n)
  {
  }

  lemma CallKeepsSince(w: World, savedBefore: bool, sheet: SheetCall, savedAfter: bool, n: nat)
    requires Since(w, n)
    ensures Since(Write(w, savedBefore, sheet, savedAfter), n)
  {
    hide EndCall, Calling, Reopened;
    if MayWrite(w.pane) {
      WriteIs(w, savedBefore, sheet, savedAfter);
      CallingIs(w);
      if savedBefore && !sheet.Unavailable? {
        EndKeepsSince(Calling(w), sheet, savedAfter, n);
      }
    }
  }

  lemma EndKeepsSince(w: World, sheet: SheetCall, savedAfter: bool, n: nat)
    requires w.pane.result.Some? && !sheet.Unavailable? && w.store == Some(Save(w.pane))
    requires n <= w.history.accepted && n <= w.pane.result.value.stamp
    ensures Since(EndCall(w, sheet, savedAfter), n)
  {
    hide Reopened;
    if sheet.Died? {
      ReloadKeepsSince(if sheet.wrote then Logged(w) else w, n);
    }
  }

  lemma {:induction false} SinceAlways(w: World, es: seq<Event>, n: nat)
    requires Since(w, n)
    ensures Since(Run(w, es), n)
    decreases |es|
  {
    if es != [] {
      SinceAlways(w, es[..|es| - 1], n);
      hide Step, Since;
      SinceKept(Run(w, es[..|es| - 1]), es[|es| - 1], n);
    }
  }

  lemma {:induction false} LockAlways(es: seq<Event>)
    ensures LockInv(Run(Fresh, es))
    decreases |es|
  {
    if es != [] {
      LockAlways(es[..|es| - 1]);
      hide Step, LockInv;
      LockKept(Run(Fresh, es[..|es| - 1]), es[|es| - 1]);
    }
  }

  // Once the pane's result is written or its write interrupted, no continuation of the run, with
  // whatever reloads, deaths and lost saves, writes again but with a result accepted since.
  lemma OnlyNewResultUnlocks(before: seq<Event>, after: seq<Event>)
    requires Locked(Run(Fresh, before).pane) && MayWrite(Run(Run(Fresh, before), after).pane)
    ensures Run(Fresh, before).history.accepted <= Run(Run(Fresh, before), after).pane.result.value.stamp
  {
    var w := Run(Fresh, before);
    LockAlways(before);
    AtMostOneWrite(before);
    hide Run;
    SinceAlways(w, after, w.history.accepted);
  }

  // A pane that dies in the sheet call, and every pane that reloads after "writing" was stored, finds
  // the write interrupted.
  lemma DeathIsInterrupted(w: World, savedBefore: bool, wrote: bool, savedAfter: bool)
    requires MayWrite(w.pane) && savedBefore
    ensures var p := Step(w, WriteToSheet(savedBefore, Died(wrote), savedAfter)).pane;
            p.write.status == WriteInterrupted && p.result == w.pane.result && !MayWrite(p)
  {
  }

  // Reloading a saved pane keeps the job, the result and the header choice, and of the write only
  // whether it is known to be done or not known to have ended.
  lemma SaveThenLoad(p: Pane)
    ensures var q := Load(Some(Save(p)));
            && q.jobId == p.jobId && q.clientJobId == p.clientJobId && q.status == p.status && q.result == p.result
            && q.pending == p.pending && q.paused == p.paused && q.includeHeaders == p.includeHeaders
            && (q.busy <==> p.jobId != "" && IsLive(p.status))
            && !q.pollScheduled && !q.preparing && !q.submissionPending && !q.cancelRequested && q.pollErrors == 0
            && q.write.report == p.write.report && !q.write.target && !q.write.writing
            && (q.write.status == WriteInterrupted <==> p.write.status == Writing || p.write.status == WriteInterrupted)
            && (q.write.status == Written ==> p.write.report == Some(true))
  {
  }
}
