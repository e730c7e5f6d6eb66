/** What the ledger pane is ready to write, and where: exactly which events give it another result, and
    that a target it may write to was found blank. */
module LedgerSheet {
  import opened Options
  import opened Ledger
  import opened LedgerJobs

  // ---- the result and the write state

  // With the results accepted and the jobs submitted so far.
  datatype Sheet = Sheet(result: Option<Table>, write: WriteState, accepted: nat, submitted: set<string>)

  function SheetOf(w: World): Sheet {
    Sheet(w.pane.result, w.pane.write, w.history.accepted, w.history.submitted)
  }

  datatype Acceptance = Acceptance(source: string, rows: Option<nat>)

  function Completion(source: string, job: Job): Option<Acceptance> {
    if job.status == Completed then Some(Acceptance(source, job.rows)) else None
  }

  // The completed job an event brings the pane, if it is the one it holds.
  function Accepts(w: World, e: Event): Option<Acceptance> {
    match e
    case SetResult(rows, _) => Some(Acceptance("", rows))
    case SubmitReplied(id, Submitted(id', job), _) =>
      if SubmitFor(id) in w.inFlight && w.pane.jobId == w.pane.clientJobId == id && id' != "" then Completion(id', job)
      else None
    case PollReplied(id, Polled(job), _) =>
      if PollFor(id) in w.inFlight && w.pane.jobId == id then Completion(id, job) else None
    case CancelReplied(id, resume, CancelAnswered(job), _) =>
      if CancelFor(id, resume) in w.inFlight && w.pane.jobId == id then Completion(id, job) else None
    case _ => None
  }

  // The job an event submits: a prepared one whose facts are free of conflict, or once more one whose
  // submit was left unanswered.
  function Submits(w: World, e: Event): Option<string> {
    match e
    case Generate(_, _, _) => Resubmits(w.pane)
    case ConflictsReplied(id, Clear, _) => if PrepareFor(id) in w.inFlight && w.pane.jobId == id then Some(id) else None
    case _ => None
  }

  function Resubmits(p: Pane): Option<string> {
    if (p.jobId != "" && p.paused) || p.busy then None else p.pending
  }

  // A submission drops the result, a completed job brings its own; either starts the writing afresh.
  function After(s: Sheet, accepts: Option<Acceptance>, submits: Option<string>): Sheet {
    if submits.Some? then Sheet(None, NoWrite, s.accepted, s.submitted + {submits.value})
    else if accepts.None? then s
    else
      var rows := accepts.value.rows;
      Sheet(if rows.None? then None else Some(Table(s.accepted, accepts.value.source, rows.value)), NoWrite,
            s.accepted + 1, s.submitted)
  }

  lemma PollSheet(w: World, jobId: string)
    ensures SheetOf(PollJob(w, jobId)) == SheetOf(w)
  {
  }

  lemma FinishSheet(w: World, source: string, job: Job, saved: bool)
    ensures SheetOf(FinishJob(w, source, job, saved)) == After(SheetOf(w), Completion(source, job), None)
  {
  }

  lemma CancelSheet(w: World, resume: Resume, saved: bool)
    ensures SheetOf(StartCancel(w, resume, saved)) == SheetOf(w)
  {
    hide FinishJob;
    var p := w.pane;
    var w' := w.(pane := p.(cancelRequested := true, preparing := false),
                 history := w.history.(dropped := w.history.dropped + {p.jobId}));
    FinishSheet(w', p.jobId, Job(Cancelled, None), saved);
  }

  lemma GoOnSheet(w: World, resume: Resume, saved: bool)
    ensures SheetOf(CancelOrPoll(w, resume, saved)) == SheetOf(w)
  {
    hide StartCancel, PollJob;
    CancelSheet(w, resume, saved);
    PollSheet(w, w.pane.jobId);
  }

  lemma BeginSheet(w: World, jobId: string, saved: bool)
    ensures SheetOf(BeginSubmit(w, jobId, saved)) == After(SheetOf(w), None, Some(jobId))
  {
  }

  lemma GenerateSheet(w: World, id: string, headersChosen: bool, saved: bool)
    ensures SheetOf(StartGenerate(w, id, headersChosen, saved)) ==
            After(SheetOf(w), None, Resubmits(w.pane))
  {
    hide BeginSubmit, PollJob;
    var p := w.pane;
    PollSheet(w.(pane := p.(paused := false, pollErrors := 0)), p.jobId);
    var jobId := if p.pending.None? then id else p.pending.value;
    var p' := p.(clientJobId := jobId, jobId := jobId, status := Running, preparing := p.pending.None?,
                 cancelRequested := false, paused := false, pollErrors := 0, busy := true);
    BeginSheet(w.(pane := p', history := w.history.(names := w.history.names + {jobId})), jobId, saved);
  }

  lemma PrepareSheet(w: World, jobId: string, reply: ConflictsReply, saved: bool)
    ensures SheetOf(FinishPrepare(w, jobId, reply, saved)) == 
            After(SheetOf(w), None, if w.pane.jobId == jobId && reply.Clear? then Some(jobId) else None)
  {
    hide BeginSubmit;
    BeginSheet(w, jobId, saved);
  }

  lemma UnconfirmedSheet(w: World, saved: bool)
    ensures SheetOf(UnconfirmedSubmit(w, saved)) == SheetOf(w)
  {
    hide PollJob;
    var p := w.pane.(submissionPending := false, status := Running, busy := true);
    PollSheet(Persist(w.(pane := p), saved), p.jobId);
  }

  lemma SubmitReplySheet(w: World, id: string, reply: SubmitReply, saved: bool)
    ensures SheetOf(FinishSubmit(w, id, reply, saved)) ==
            After(SheetOf(w),
                  if w.pane.jobId == w.pane.clientJobId == id && reply.Submitted? && reply.jobId != ""
                  then Completion(reply.jobId, reply.job) else None, None)
  {
    hide FinishJob, CancelOrPoll, UnconfirmedSubmit, Completion;
    UnconfirmedSheet(w, saved);
    if reply.Submitted? {
      var w' := w.(pane := w.pane.(submissionPending := false, jobId := reply.jobId, pending := None),
                   history := w.history.(names := w.history.names + {reply.jobId}));
      FinishSheet(w', reply.jobId, reply.job, saved);
      GoOnSheet(FinishJob(w', reply.jobId, reply.job, saved), ThenCurrent, saved);
    }
  }

  lemma ApplySheet(w: World, job: Job, saved: bool)
    ensures SheetOf(ApplyPoll(w, job, saved)) == After(SheetOf(w), Completion(w.pane.jobId, job), None)
  {
    hide FinishJob, CancelOrPoll;
    var w' := w.(pane := w.pane.(pending := None, submissionPending := false, pollErrors := 0));
    FinishSheet(w', w.pane.jobId, job, saved);
    GoOnSheet(FinishJob(w', w.pane.jobId, job, saved), ThenJob(w.pane.jobId), saved);
  }

  lemma FailSheet(w: World, gone: bool, saved: bool)
    ensures SheetOf(FailPoll(w, gone, saved)) == SheetOf(w)
  {
    hide PollJob;
    PollSheet(w.(pane := w.pane.(pollErrors := w.pane.pollErrors + 1)), w.pane.jobId);
  }

  lemma PollReplySheet(w: World, id: string, reply: PollReply, saved: bool)
    ensures SheetOf(FinishPoll(w, id, reply, saved)) ==
            After(SheetOf(w), if w.pane.jobId == id && reply.Polled? then Completion(id, reply.job) else None, None)
  {
    hide ApplyPoll, FailPoll, Completion;
    var w' := w.(pane := w.pane.(pollScheduled := false));
    match reply {
      case Polled(job) => ApplySheet(w', job, saved);
      case PollError(gone) => FailSheet(w', gone, saved);
    }
  }

  lemma AnswerSheet(w: World, id: string, reply: CancelReply, saved: bool)
    ensures SheetOf(AnswerCancel(w, id, reply, saved)) ==
            After(SheetOf(w), if w.pane.jobId == id && reply.CancelAnswered? then Completion(id, reply.job) else None, None)
  {
    hide FinishJob, PollJob, Completion;
    if reply.CancelAnswered? {
      var w' := FinishJob(w, id, reply.job, saved);
      FinishSheet(w, id, reply.job, saved);
      PollSheet(w', w'.pane.jobId);
    }
  }

  lemma CancelReplySheet(w: World, id: string, resume: Resume, reply: CancelReply, saved: bool)
    ensures SheetOf(FinishCancel(w, id, resume, reply, saved)) ==
            After(SheetOf(w), if w.pane.jobId == id && reply.CancelAnswered? then Completion(id, reply.job) else None, None)
  {
    hide AnswerCancel, PollJob, Completion, After;
    AnswerSheet(w, id, reply, saved);
    var w' := AnswerCancel(w, id, reply, saved);
    PollSheet(w', w'.pane.jobId);
    if resume.ThenJob? {
      PollSheet(w', resume.job);
    }
  }

  predicate OnSheet(e: Event) {
    e.SetIncludeHeaders? || e.InspectTarget? || e.WriteToSheet? || e.Reload?
  }

  lemma QuietSheet(w: World, e: Event)
    requires e.StopWaiting? || e.TimerFired? || e.Edit? || e.MaterialsStarted? || e.MaterialsEnded? || e.MaterialsChecked?
    ensures SheetOf(Step(w, e)) == SheetOf(w)
  {
  }

  lemma RepliesSheet(w: World, e: Event)
    requires e.ConflictsReplied? || e.SubmitReplied? || e.PollReplied? || e.CancelReplied?
    ensures SheetOf(Step(w, e)) == After(SheetOf(w), Accepts(w, e), Submits(w, e))
  {
    hide FinishPrepare, FinishSubmit, FinishPoll, FinishCancel, Completion;
    match e {
      case ConflictsReplied(id, reply, saved) => PrepareSheet(Taken(w, PrepareFor(id)), id, reply, saved);
      case SubmitReplied(id, reply, saved) => SubmitReplySheet(Taken(w, SubmitFor(id)), id, reply, saved);
      case PollReplied(id, reply, saved) => PollReplySheet(Taken(w, PollFor(id)), id, reply, saved);
      case CancelReplied(id, resume, reply, saved) =>
        CancelReplySheet(Taken(w, CancelFor(id, resume)), id, resume, reply, saved);
    }
  }

  lemma QuietIsQuiet(w: World, e: Event)
    requires e.StopWaiting? || e.TimerFired? || e.Edit? || e.MaterialsStarted? || e.MaterialsEnded? || e.MaterialsChecked?
             || e.Cancel? || e.Restore?
    ensures SheetOf(w) == After(SheetOf(w), Accepts(w, e), Submits(w, e))
  {
  }

  // Exactly what every event but the sheet's own and a reload makes of the result and its write state.
  lemma ResultExactly(w: World, e: Event)
    requires !OnSheet(e)
    ensures SheetOf(Step(w, e)) == After(SheetOf(w), Accepts(w, e), Submits(w, e))
  {
    hide StartGenerate, StartCancel, FinishJob, PollJob, SheetOf, After;
    match e {
      case Generate(id, headersChosen, saved) => GenerateSheet(w, id, headersChosen, saved);
      case SetResult(rows, saved) => SetSheet(w, rows, saved);
      case Cancel(saved) =>
        QuietIsQuiet(w, e);
        CancelSheet(w, Alone, saved);
      case Restore =>
        QuietIsQuiet(w, e);
        PollSheet(w, w.pane.jobId);
      case ConflictsReplied(_, _, _) =>
        RepliesSheet(w, e);
        hide Step, Accepts, Submits;
      case SubmitReplied(_, _, _) =>
        RepliesSheet(w, e);
        hide Step, Accepts, Submits;
      case PollReplied(_, _, _) =>
        RepliesSheet(w, e);
        hide Step, Accepts, Submits;
      case CancelReplied(_, _, _, _) =>
        RepliesSheet(w, e);
        hide Step, Accepts, Submits;
      case _ =>
        QuietIsQuiet(w, e);
        hide Step, Accepts, Submits;
        QuietSheet(w, e);
    }
  }

  lemma SetSheet(w: World, rows: Option<nat>, saved: bool)
    ensures SheetOf(FinishJob(w, "", Job(Completed, rows), saved)) == After(SheetOf(w), Some(Acceptance("", rows)), None)
  {
    FinishSheet(w, "", Job(Completed, rows), saved);
    hide FinishJob;
  }

  // ---- the sheet's own events

  // A write that is done, or whose end is unknown, is not begun again.
  predicate Closed(p: Pane) {
    p.write.report == Some(true) || p.write.status == WriteInterrupted
  }

  // The range looked at was blank, for a result with rows that may still be written.
  predicate Confirms(w: World, e: Event) {
    e == InspectTarget(true) && w.pane.result.Some? && w.pane.result.value.rows > 0 && !Closed(w.pane)
  }

  // The events after which the target has to be looked at again.
  predicate Drops(w: World, e: Event) {
    match e
    case InspectTarget(_) => !Closed(w.pane) && !Confirms(w, e)
    case SetIncludeHeaders(_, _) => !Closed(w.pane)
    case WriteToSheet(savedBefore, sheet, _) => MayCall(w.pane) && savedBefore && sheet.Died?
    case Reload => true
    case _ => Accepts(w, e).Some? || Submits(w, e).Some?
  }

  // A finished table whose target is confirmed and whose write is neither done, under way nor in doubt.
  predicate MayCall(p: Pane) {
    && p.status == Completed && p.result.Some? && p.result.value.rows > 0
    && !Closed(p) && !p.write.writing && p.write.target
  }

  // The pane as it goes to storage before the sheet is touched.
  function UnderWay(p: Pane): Pane {
    p.(write := WriteState(Writing, p.write.report, true, true))
  }

  ghost predicate Called(w: World, savedBefore: bool, sheet: SheetCall, savedAfter: bool, w': World) {
    var p, p' := w.pane, w'.pane;
    && w'.history.submitted == w.history.submitted
    && (!sheet.Died? || !savedBefore ==> w'.inFlight == w.inFlight && w'.timers == w.timers)
    && if !MayCall(p) then w' == w
    else if !savedBefore || sheet.Unavailable? then
      && p' == p.(write := WriteState(WriteFailed, p.write.report, true, false)) && w'.history == w.history
      && w'.store == (if savedAfter then Some(Save(p')) else w.store)
    else match sheet
      case Threw =>
        && p' == p.(write := WriteState(WriteFailed, p.write.report, true, false)) && w'.history == w.history
        && w'.store == Some(Save(if savedAfter then p' else UnderWay(p)))
      case Reported(success) =>
        && p' == p.(write := WriteState(Written, Some(success), true, false))
        && w'.history.writes == w.history.writes + (if success then [p.result.value] else [])
        && w'.store == Some(Save(if savedAfter then p' else UnderWay(p)))
      case Died(wrote) =>
        && p'.result == p.result && p'.write == WriteState(WriteInterrupted, p.write.report, false, false)
        && w'.history.writes == w.history.writes + (if wrote then [p.result.value] else [])
        && w'.store == Some(Save(UnderWay(p))) && w'.inFlight == multiset{} && w'.timers == multiset{}
      case _ => false
  }

  lemma FailureShows(w: World, savedBefore: bool, sheet: SheetCall, savedAfter: bool)
    requires MayCall(w.pane) && (!savedBefore || sheet.Unavailable? || sheet.Threw?)
    ensures Called(w, savedBefore, sheet, savedAfter, Write(w, savedBefore, sheet, savedAfter))
  {
    hide Save;
  }

  lemma ReportShows(w: World, success: bool, savedAfter: bool)
    requires MayCall(w.pane)
    ensures Called(w, true, Reported(success), savedAfter, Write(w, true, Reported(success), savedAfter))
  {
    hide Save;
  }

  lemma NoCall(w: World, savedBefore: bool, sheet: SheetCall, savedAfter: bool)
    requires !MayCall(w.pane)
    ensures Called(w, savedBefore, sheet, savedAfter, Write(w, savedBefore, sheet, savedAfter))
  {
    hide Save, EndCall, FailWrite;
  }

  // What a sheet call comes to: nothing without leave; a failure where it could not be stored first,
  // made or completed; the report; or a pane reopened with its end unknown.
  lemma CallShows(w: World, savedBefore: bool, sheet: SheetCall, savedAfter: bool)
    ensures Called(w, savedBefore, sheet, savedAfter, Step(w, WriteToSheet(savedBefore, sheet, savedAfter)))
  {
    hide Write, Called;
    if !MayCall(w.pane) {
      NoCall(w, savedBefore, sheet, savedAfter);
    } else {
      if !savedBefore || sheet.Unavailable? || sheet.Threw? {
        FailureShows(w, savedBefore, sheet, savedAfter);
      } else if sheet.Reported? {
        ReportShows(w, sheet.success, savedAfter);
      } else {
        DeathShows(w, sheet.wrote, savedAfter);
      }
    }
  }

  lemma DeathShows(w: World, wrote: bool, savedAfter: bool)
    requires MayCall(w.pane)
    ensures Called(w, true, Died(wrote), savedAfter, Write(w, true, Died(wrote), savedAfter))
  {
  }

  lemma CallTarget(w: World, savedBefore: bool, sheet: SheetCall, savedAfter: bool, w': World)
    requires Called(w, savedBefore, sheet, savedAfter, w')
    ensures w'.pane.write.target <==> w.pane.write.target && !(MayCall(w.pane) && savedBefore && sheet.Died?)
  {
    hide Save, Closed;
    if MayCall(w.pane) {
      assert w.pane.write.target;
    }
  }

  lemma LooksTarget(w: World, e: Event)
    requires e.InspectTarget? || e.SetIncludeHeaders?
    ensures Step(w, e).pane.write.target <==> Confirms(w, e) || (w.pane.write.target && !Drops(w, e))
    ensures Step(w, e).history == w.history
  {
    hide Save;
  }

  lemma ReloadTarget(w: World)
    ensures !Step(w, Reload).pane.write.target && Step(w, Reload).history.submitted == w.history.submitted
  {
  }

  // Exactly which events confirm the target and which drop it; a pane whose write is done or in doubt
  // keeps its target as it was, whatever is looked at.
  lemma TargetExactly(w: World, e: Event)
    ensures Step(w, e).pane.write.target <==> Confirms(w, e) || (w.pane.write.target && !Drops(w, e))
  {
    hide Step, Accepts, Submits, MayCall, Closed;
    match e {
      case InspectTarget(_) => LooksTarget(w, e);
      case SetIncludeHeaders(_, _) => LooksTarget(w, e);
      case Reload => ReloadTarget(w);
      case WriteToSheet(savedBefore, sheet, savedAfter) =>
        CallShows(w, savedBefore, sheet, savedAfter);
        CallTarget(w, savedBefore, sheet, savedAfter, Step(w, e));
        hide Called;
      case _ => ResultExactly(w, e);
    }
  }

  // ---- whole runs

  // The k-th event of the run found the target blank, and none since has made that worthless.
  ghost predicate FoundBlank(es: seq<Event>, k: nat)
    requires k < |es|
  {
    Confirms(Run(Fresh, es[..k]), es[k]) && forall i :: k < i < |es| ==> !Drops(Run(Fresh, es[..i]), es[i])
  }

  ghost predicate BlankSince(es: seq<Event>) {
    exists k :: 0 <= k < |es| && FoundBlank(es, k)
  }

  lemma BlankNext(es: seq<Event>, e: Event)
    ensures BlankSince(es + [e]) <==>
            Confirms(Run(Fresh, es), e) || (BlankSince(es) && !Drops(Run(Fresh, es), e))
  {
    hide Run, Confirms, Drops;
    var es' := es + [e];
    assert forall i :: 0 <= i <= |es| ==> es'[..i] == es[..i];
    assert es[..|es|] == es;
    if Confirms(Run(Fresh, es), e) {
      assert FoundBlank(es', |es|);
    }
    if BlankSince(es) && !Drops(Run(Fresh, es), e) {
      var k :| 0 <= k < |es| && FoundBlank(es, k);
      assert FoundBlank(es', k);
    }
    if BlankSince(es') {
      var k :| 0 <= k < |es'| && FoundBlank(es', k);
      if k < |es| {
        assert forall i :: k < i < |es| ==> es'[i] == es[i] && es'[..i] == es[..i];
        assert FoundBlank(es, k) && es'[|es|] == e;
      }
    }
  }

  // Over every run the target is confirmed exactly when some inspection found it blank, and since then
  // there has been no new result, change of the headers, reload, death or other finding.
  lemma {:induction false} TargetWasBlank(es: seq<Event>)
    ensures Run(Fresh, es).pane.write.target <==> BlankSince(es)
    decreases |es|
  {
    if es == [] {
      assert !Run(Fresh, []).pane.write.target;
    } else {
      var before, e := es[..|es| - 1], es[|es| - 1];
      TargetWasBlank(before);
      BlankNext(before, e);
      assert before + [e] == es;
      hide Step, BlankSince, Confirms, Drops;
      TargetExactly(Run(Fresh, before), e);
    }
  }

  // Whatever the pane may write, it writes to a range that was found blank for it.
  lemma WritesToBlank(es: seq<Event>)
    ensures MayWrite(Run(Fresh, es).pane) <==> MayCall(Run(Fresh, es).pane)
    ensures MayWrite(Run(Fresh, es).pane) ==> BlankSince(es)
  {
    TargetWasBlank(es);
    hide Run, BlankSince;
  }

  // ---- only what was found free of conflict is submitted

  lemma SubmittedExactly(w: World, e: Event)
    ensures Step(w, e).history.submitted ==
            w.history.submitted + (if Submits(w, e).Some? then {Submits(w, e).value} else {})
  {
    hide Step, Accepts, Submits, MayCall, Closed;
    match e {
      case InspectTarget(_) => LooksSubmit(w, e);
      case SetIncludeHeaders(_, _) => LooksSubmit(w, e);
      case Reload => LooksSubmit(w, e);
      case WriteToSheet(savedBefore, sheet, savedAfter) => LooksSubmit(w, e);
      case _ => ResultExactly(w, e);
    }
  }

  lemma LooksSubmit(w: World, e: Event)
    requires OnSheet(e)
    ensures Step(w, e).history.submitted == w.history.submitted && Submits(w, e).None?
  {
    hide Step, Called;
    match e {
      case Reload => ReloadTarget(w);
      case WriteToSheet(savedBefore, sheet, savedAfter) =>
        CallShows(w, savedBefore, sheet, savedAfter);
        CallSubmits(w, savedBefore, sheet, savedAfter, Step(w, e));
      case _ => LooksTarget(w, e);
    }
  }

  lemma CallSubmits(w: World, savedBefore: bool, sheet: SheetCall, savedAfter: bool, w': World)
    requires Called(w, savedBefore, sheet, savedAfter, w')
    ensures w'.history.submitted == w.history.submitted
  {
  }

  // The k-th event of the run is the answer to the job's own preparation, while the pane holds it, that
  // leaves no conflict open.
  predicate ClearedAt(es: seq<Event>, k: nat, jobId: string)
    requires k < |es|
  {
    var w := Run(Fresh, es[..k]);
    es[k].ConflictsReplied? && es[k].jobId == jobId && es[k].conflictsReply == Clear &&
    PrepareFor(jobId) in w.inFlight && w.pane.jobId == jobId
  }

  ghost predicate Cleared(es: seq<Event>, jobId: string) {
    exists k :: 0 <= k < |es| && ClearedAt(es, k, jobId)
  }

  lemma ClearedNext(es: seq<Event>, e: Event, jobId: string)
    ensures Cleared(es + [e], jobId) <==>
            Cleared(es, jobId) || (e.ConflictsReplied? && Submits(Run(Fresh, es), e) == Some(jobId))
  {
    hide Run;
    var es' := es + [e];
    assert forall i :: 0 <= i <= |es| ==> es'[..i] == es[..i];
    assert es[..|es|] == es;
    if e.ConflictsReplied? && Submits(Run(Fresh, es), e) == Some(jobId) {
      assert ClearedAt(es', |es|, jobId);
    }
    if Cleared(es, jobId) {
      var k :| 0 <= k < |es| && ClearedAt(es, k, jobId);
      assert ClearedAt(es', k, jobId);
    }
    if Cleared(es', jobId) {
      var k :| 0 <= k < |es'| && ClearedAt(es', k, jobId);
      if k < |es| {
        assert ClearedAt(es, k, jobId);
      }
    }
  }

  lemma PendingWasSubmitted(w: World)
    requires JobInv(w)
    ensures w.pane.pending.Some? ==> w.pane.pending.value in w.history.submitted
    ensures forall j :: SubmitFor(j) in w.inFlight ==> j in w.history.submitted
  {
    hide StoreOk, HistoryOk, ResultOk;
  }

  // Over every run with fresh ids, the jobs submitted are exactly those whose own preparation was
  // answered, while the pane held them, with no conflict left open; a submit in flight is of such a job.
  lemma {:induction false} SubmittedIffCleared(es: seq<Event>, jobId: string)
    requires FreshRun(Fresh, es)
    ensures jobId in Run(Fresh, es).history.submitted <==> Cleared(es, jobId)
    ensures SubmitFor(jobId) in Run(Fresh, es).inFlight ==> Cleared(es, jobId)
    decreases |es|
  {
    hide Step, Cleared, JobInv;
    JobInvAlways(es);
    PendingWasSubmitted(Run(Fresh, es));
    if es == [] {
      NothingCleared(jobId);
    } else {
      var before, e := es[..|es| - 1], es[|es| - 1];
      SubmittedIffCleared(before, jobId);
      ClearedNext(before, e, jobId);
      assert before + [e] == es;
      JobInvAlways(before);
      PendingWasSubmitted(Run(Fresh, before));
      SubmittedExactly(Run(Fresh, before), e);
      SubmitsPending(Run(Fresh, before), e);
      hide Submits;
    }
  }

  lemma SubmitsPending(w: World, e: Event)
    ensures Submits(w, e).Some? && !e.ConflictsReplied? ==> Submits(w, e) == w.pane.pending
  {
  }

  lemma NothingCleared(jobId: string)
    ensures jobId !in Run(Fresh, []).history.submitted && !Cleared([], jobId)
  {
  }
}
