/** That the ledger client goes on asking after the job it waits for.  Its poll flag is not tied to a
    job, so a timer or a poll of an earlier job can stand in the way of the current one's: exactly
    which events leave a waiting pane with nothing that will ask. */
module LedgerPolls {
  import opened Options
  import opened Ledger
  import opened LedgerJobs
  import opened LedgerBusy

  predicate Waits(p: Pane) {
    p.jobId != "" && p.busy && !p.paused
  }

  // Something that will ask after the job or go on to do so: its timer, a request of its own, or a
  // cancel of its own whose handler polls once it is answered.  A cancel the user asked for does not.
  predicate Outstanding(w: World, jobId: string) {
    || jobId in w.timers || PrepareFor(jobId) in w.inFlight || SubmitFor(jobId) in w.inFlight
    || PollFor(jobId) in w.inFlight
    || CancelFor(jobId, ThenCurrent) in w.inFlight || CancelFor(jobId, ThenJob(jobId)) in w.inFlight
  }

  predicate Attended(w: World) {
    Waits(w.pane) ==> Outstanding(w, w.pane.jobId)
  }

  // A submit of the current job is answered under the client's id.
  predicate OwnSubmit(w: World) {
    SubmitFor(w.pane.jobId) in w.inFlight ==> w.pane.clientJobId == w.pane.jobId
  }

  // The poll flag is set, and not by anything that will ask after this job.
  predicate Shadowed(w: World, jobId: string) {
    w.pane.pollScheduled && !Outstanding(w, jobId)
  }

  // The events that leave a waiting pane unattended: where a handler would set the poll timer of the
  // job then current and finds the flag set by another's; where a pane is loaded with a job to wait
  // for; and where a materials change makes busy a pane that holds a job it was not waiting for.
  predicate Starves(w: World, e: Event) {
    match e
    case Generate(_, _, _) => w.pane.jobId != "" && w.pane.paused && w.pane.busy && Shadowed(w, w.pane.jobId)
    case SubmitReplied(id, reply, _) =>
      && SubmitFor(id) in w.inFlight && w.pane.jobId == w.pane.clientJobId == id && !w.pane.paused
      && (match reply
          case Submitted(id', job) =>
            if id' == "" then Shadowed(Taken(w, SubmitFor(id)), id)
            else IsLive(job.status) && !w.pane.cancelRequested && Shadowed(Taken(w, SubmitFor(id)), id')
          case SubmitError(refused) => !refused && Shadowed(Taken(w, SubmitFor(id)), id))
    case CancelReplied(id, resume, reply, _) =>
      && CancelFor(id, resume) in w.inFlight && w.pane.jobId == id && !w.pane.paused
      && Shadowed(Taken(w, CancelFor(id, resume)), id)
      && (match reply
          case CancelAnswered(job) => IsLive(job.status)
          case CancelMissing => w.pane.submissionPending && w.pane.busy
          case CancelGone => false
          case CancelError => w.pane.busy)
    case MaterialsStarted => w.pane.jobId != "" && !w.pane.busy && !w.pane.paused && !Outstanding(w, w.pane.jobId)
    case Restore => Waits(w.pane) && Shadowed(w, w.pane.jobId)
    case Reload => Waits(Load(w.store))
    case _ => false
  }

  // ---- pieces of the handlers

  // Polling for the current job attends to it, unless the flag is set by something else.
  lemma PollJobAttends(w: World)
    ensures Attended(PollJob(w, w.pane.jobId)) <==> !(Waits(w.pane) && Shadowed(w, w.pane.jobId))
  {
  }

  lemma PollJobKeepsAttended(w: World, jobId: string)
    ensures Attended(w) ==> Attended(PollJob(w, jobId))
    ensures jobId != w.pane.jobId ==> PollJob(w, jobId) == w
    ensures PollJob(w, jobId).pane.jobId == w.pane.jobId && PollJob(w, jobId).pane.clientJobId == w.pane.clientJobId
    ensures PollJob(w, jobId).inFlight == w.inFlight
  {
  }

  lemma FinishAttends(w: World, source: string, job: Job, saved: bool)
    requires source == w.pane.jobId != ""
    ensures var w' := FinishJob(w, source, job, saved);
            && w'.inFlight == w.inFlight && w'.timers == w.timers && w'.pane.pollScheduled == w.pane.pollScheduled
            && w'.pane.clientJobId == w.pane.clientJobId
            && (if IsLive(job.status) then
                  && w'.pane.jobId == source && w'.pane.busy && w'.pane.paused == w.pane.paused
                  && w'.pane.cancelRequested == w.pane.cancelRequested && w'.pane.preparing == w.pane.preparing
                else w'.pane.jobId == "" && !w'.pane.busy)
  {
  }

  // Going on after a live answer: a cancel that was asked for is made, and a poll otherwise.
  lemma GoOnAttends(w: World, resume: Resume, saved: bool)
    requires resume == ThenCurrent || resume == ThenJob(w.pane.jobId)
    ensures Attended(CancelOrPoll(w, resume, saved)) <==>
            !(Waits(w.pane) && !w.pane.cancelRequested && Shadowed(w, w.pane.jobId))
  {
    hide PollJob, FinishJob;
    PollJobAttends(w);
    if w.pane.jobId != "" {
      FinishAttends(w.(pane := w.pane.(cancelRequested := true, preparing := false),
                       history := w.history.(dropped := w.history.dropped + {w.pane.jobId})),
                    w.pane.jobId, Job(Cancelled, None), saved);
    }
  }

  lemma AnswerAttends(w: World, source: string, job: Job, resume: Resume, saved: bool)
    requires source == w.pane.jobId != "" && (resume == ThenCurrent || resume == ThenJob(source))
    ensures Attended(CancelOrPoll(FinishJob(w, source, job, saved), resume, saved)) <==>
            !(IsLive(job.status) && !w.pane.paused && !w.pane.cancelRequested && Shadowed(w, source))
  {
    hide FinishJob, CancelOrPoll;
    var w' := FinishJob(w, source, job, saved);
    FinishAttends(w, source, job, saved);
    if IsLive(job.status) {
      GoOnAttends(w', resume, saved);
    } else {
      assert CancelOrPoll(w', resume, saved) == w' by { NotBusyStays(w', resume, saved); }
    }
  }

  lemma NotBusyStays(w: World, resume: Resume, saved: bool)
    requires !w.pane.busy
    ensures CancelOrPoll(w, resume, saved) == w
  {
  }

  // ---- the handlers

  lemma GenerateAttends(w: World, e: Event)
    requires e.Generate? && Attended(w)
    ensures Attended(Step(w, e)) <==> !Starves(w, e)
  {
    hide PollJob;
    PollJobAttends(w.(pane := w.pane.(paused := false, pollErrors := 0)));
  }

  lemma UnconfirmedAttends(w: World, saved: bool)
    ensures Attended(UnconfirmedSubmit(w, saved)) <==>
            !(w.pane.jobId != "" && !w.pane.paused && Shadowed(w, w.pane.jobId))
  {
    hide PollJob;
    var p := w.pane.(submissionPending := false, status := Running, busy := true);
    PollJobAttends(Persist(w.(pane := p), saved));
  }

  lemma AcceptedAttends(w: World, id: string, job: Job, saved: bool)
    requires id != ""
    ensures Attended(AcceptedSubmit(w, id, job, saved)) <==>
            !(IsLive(job.status) && !w.pane.paused && !w.pane.cancelRequested && Shadowed(w, id))
  {
    hide FinishJob, CancelOrPoll;
    AnswerAttends(w.(pane := w.pane.(submissionPending := false, jobId := id, pending := None),
                     history := w.history.(names := w.history.names + {id})), id, job, ThenCurrent, saved);
  }

  lemma TakenAttends(w: World, r: Request)
    requires Attended(w) && r != PrepareFor(w.pane.jobId) && r != SubmitFor(w.pane.jobId) && r != PollFor(w.pane.jobId)
    requires r != CancelFor(w.pane.jobId, ThenCurrent) && r != CancelFor(w.pane.jobId, ThenJob(w.pane.jobId))
    ensures Attended(Taken(w, r))
  {
  }

  lemma SubmitReplyAttends(w: World, e: Event)
    requires e.SubmitReplied? && Attended(w) && OwnSubmit(w) && SubmitFor("") !in w.inFlight
    ensures Attended(Step(w, e)) <==> !Starves(w, e)
  {
    hide UnconfirmedSubmit, AcceptedSubmit, RefusedSubmit;
    var id, w' := e.jobId, Taken(w, SubmitFor(e.jobId));
    if SubmitFor(id) in w.inFlight {
      if w.pane.jobId != id {
        TakenAttends(w, SubmitFor(id));
      } else {
        UnconfirmedAttends(w', e.saved);
        assert Attended(RefusedSubmit(w', e.saved)) by { RefusedAttends(w', e.saved); }
        if e.submitReply.Submitted? && e.submitReply.jobId != "" {
          AcceptedAttends(w', e.submitReply.jobId, e.submitReply.job, e.saved);
        }
      }
    }
  }

  lemma RefusedAttends(w: World, saved: bool)
    ensures Attended(RefusedSubmit(w, saved))
  {
  }

  // The answer to a poll always clears the flag first.
  lemma PollReplyAttends(w: World, e: Event)
    requires e.PollReplied? && Attended(w) && PollFor("") !in w.inFlight
    ensures Attended(Step(w, e))
  {
    hide ApplyPoll, FailPoll;
    var id, w' := e.jobId, Taken(w, PollFor(e.jobId));
    var w'' := w'.(pane := w'.pane.(pollScheduled := false));
    if PollFor(id) in w.inFlight {
      if w.pane.jobId != id {
        TakenAttends(w, PollFor(id));
      } else if e.pollReply.Polled? {
        AppliedAttends(w'', e.pollReply.job, e.saved);
      } else {
        FailedAttends(w'', e.pollReply.gone, e.saved);
      }
    }
  }

  lemma AppliedAttends(w: World, job: Job, saved: bool)
    requires w.pane.jobId != "" && !w.pane.pollScheduled
    ensures Attended(ApplyPoll(w, job, saved))
  {
    hide FinishJob, CancelOrPoll;
    var w' := w.(pane := w.pane.(pending := None, submissionPending := false, pollErrors := 0));
    AnswerAttends(w', w.pane.jobId, job, ThenJob(w.pane.jobId), saved);
  }

  lemma FailedAttends(w: World, gone: bool, saved: bool)
    requires w.pane.jobId != "" && !w.pane.pollScheduled
    ensures Attended(FailPoll(w, gone, saved))
  {
    hide PollJob;
    PollJobAttends(w.(pane := w.pane.(pollErrors := w.pane.pollErrors + 1)));
  }

  lemma NoJobAttends(w: World, jobId: string)
    requires w.pane.jobId == ""
    ensures Attended(w) && PollJob(w, jobId) == w
  {
  }

  // Where the handler of a cancel goes on, with `w` what the answer left of the pane.
  function Continued(w: World, resume: Resume): World {
    match resume
    case Alone => w
    case ThenCurrent => PollJob(w, w.pane.jobId)
    case ThenJob(job) => PollJob(w, job)
  }

  lemma ContinuedIs(w: World, id: string, resume: Resume, reply: CancelReply, saved: bool)
    ensures FinishCancel(w, id, resume, reply, saved) == Continued(AnswerCancel(w, id, reply, saved), resume)
  {
    hide AnswerCancel, PollJob;
  }

  lemma ContinuedKeeps(w: World, resume: Resume)
    ensures Attended(w) ==> Attended(Continued(w, resume))
    ensures Waits(w.pane) && w.pane.pollScheduled ==> Continued(w, resume) == w
  {
  }

  // The job is live: the pane polls for it before the handler goes on.
  lemma LiveCancelAttends(w: World, resume: Resume, job: Job, saved: bool)
    requires w.pane.jobId != "" && IsLive(job.status)
    ensures Attended(FinishCancel(w, w.pane.jobId, resume, CancelAnswered(job), saved)) <==>
            !(!w.pane.paused && Shadowed(w, w.pane.jobId))
  {
    hide FinishJob, PollJob, Continued;
    var id := w.pane.jobId;
    var w' := FinishJob(w, id, job, saved);
    FinishAttends(w, id, job, saved);
    PollJobAttends(w');
    PolledWaits(w');
    ContinuedIs(w, id, resume, CancelAnswered(job), saved);
    ContinuedKeeps(PollJob(w', id), resume);
  }

  lemma PolledWaits(w: World)
    ensures Waits(PollJob(w, w.pane.jobId).pane) == Waits(w.pane)
    ensures Waits(w.pane) ==> PollJob(w, w.pane.jobId).pane.pollScheduled
  {
  }

  lemma OverCancelAttends(w: World, resume: Resume, job: Job, saved: bool)
    requires w.pane.jobId != "" && !IsLive(job.status)
    ensures Attended(FinishCancel(w, w.pane.jobId, resume, CancelAnswered(job), saved))
  {
    hide FinishJob, Continued;
    FinishAttends(w, w.pane.jobId, job, saved);
    ContinuedIs(w, w.pane.jobId, resume, CancelAnswered(job), saved);
    ContinuedKeeps(FinishJob(w, w.pane.jobId, job, saved), resume);
  }

  // The job is gone, or the answer says nothing and the handler goes on with the pane as it is.
  lemma OtherCancelAttends(w: World, resume: Resume, reply: CancelReply, saved: bool)
    requires w.pane.jobId != "" && !reply.CancelAnswered?
    requires Waits(w.pane) ==> Outstanding(w, w.pane.jobId) || resume == ThenCurrent || resume == ThenJob(w.pane.jobId)
    ensures Attended(FinishCancel(w, w.pane.jobId, resume, reply, saved)) <==>
            !((reply.CancelError? || (reply.CancelMissing? && w.pane.submissionPending))
              && Waits(w.pane) && Shadowed(w, w.pane.jobId))
  {
    hide PollJob;
    PollJobAttends(w);
    PollJobKeepsAttended(w, if resume.ThenJob? then resume.job else w.pane.jobId);
    NoJobAttends(LoseJob(w), "");
    if resume.ThenJob? {
      NoJobAttends(LoseJob(w), resume.job);
    }
  }

  lemma CancelReplyAttends(w: World, e: Event)
    requires e.CancelReplied? && Attended(w) && CancelFor("", e.resume) !in w.inFlight
    ensures Attended(Step(w, e)) <==> !Starves(w, e)
  {
    hide FinishCancel, PollJob;
    var id, w' := e.jobId, Taken(w, CancelFor(e.jobId, e.resume));
    if CancelFor(id, e.resume) in w.inFlight {
      if w.pane.jobId != id {
        TakenAttends(w, CancelFor(id, e.resume));
        StrayCancelAttends(w', id, e.resume, e.cancelReply, e.saved);
      } else if e.cancelReply.CancelAnswered? {
        if IsLive(e.cancelReply.job.status) {
          LiveCancelAttends(w', e.resume, e.cancelReply.job, e.saved);
        } else {
          OverCancelAttends(w', e.resume, e.cancelReply.job, e.saved);
        }
      } else {
        OtherCancelAttends(w', e.resume, e.cancelReply, e.saved);
      }
    }
  }

  lemma StrayCancelAttends(w: World, id: string, resume: Resume, reply: CancelReply, saved: bool)
    requires w.pane.jobId != id && Attended(w)
    ensures Attended(FinishCancel(w, id, resume, reply, saved))
  {
    ContinuedIs(w, id, resume, reply, saved);
    ContinuedKeeps(w, resume);
    hide Continued;
  }

  lemma FireAttends(w: World, e: Event)
    requires e.TimerFired? && Attended(w)
    ensures Attended(Step(w, e))
  {
  }

  lemma PrepareAttends(w: World, e: Event)
    requires e.ConflictsReplied? && Attended(w)
    ensures Attended(Step(w, e))
  {
  }

  lemma CancelAttends(w: World, saved: bool)
    requires Attended(w)
    ensures Attended(StartCancel(w, Alone, saved))
  {
  }

  lemma ReloadAttends(w: World)
    ensures Attended(Reopened(w)) <==> !Waits(Load(w.store))
  {
  }

  // A pane that dies in a sheet call had a completed job, so none to wait for.
  lemma WriteAttends(w: World, e: Event)
    requires e.WriteToSheet? && Attended(w)
    ensures Attended(Step(w, e))
  {
    hide Write;
    SheetLeaves(w, e.savedBefore, e.sheet, e.savedAfter);
  }

  // Nothing that bears on polling has changed.
  ghost predicate SamePolling(w: World, w': World) {
    && w'.pane.jobId == w.pane.jobId && w'.pane.clientJobId == w.pane.clientJobId && w'.pane.busy == w.pane.busy
    && w'.pane.paused == w.pane.paused && w'.inFlight == w.inFlight && w'.timers == w.timers
  }

  lemma SheetLeaves(w: World, savedBefore: bool, sheet: SheetCall, savedAfter: bool)
    ensures var w' := Write(w, savedBefore, sheet, savedAfter);
            || SamePolling(w, w')
            || (!w'.pane.busy && w'.inFlight == multiset{})
  {
    hide EndCall, Calling;
    if MayWrite(w.pane) {
      WriteIs(w, savedBefore, sheet, savedAfter);
      CallingSame(w);
      FailSame(w, savedAfter);
      if savedBefore && !sheet.Unavailable? {
        EndLeaves(Calling(w), sheet, savedAfter);
      }
    }
  }

  lemma CallingSame(w: World)
    ensures SamePolling(w, Calling(w)) && Calling(w).pane.status == w.pane.status
    ensures Calling(w).pane.result == w.pane.result && Calling(w).store == Some(Save(Calling(w).pane))
  {
  }

  lemma FailSame(w: World, savedAfter: bool)
    ensures SamePolling(w, FailWrite(w, savedAfter))
    ensures SamePolling(w, Persist(Noted(w, w.pane.write.(writing := false, status := WriteFailed)), savedAfter))
  {
  }

  lemma EndLeaves(w: World, sheet: SheetCall, savedAfter: bool)
    requires w.pane.result.Some? && !sheet.Unavailable? && w.store == Some(Save(w.pane)) && w.pane.status == Completed
    ensures var w' := EndCall(w, sheet, savedAfter);
            || SamePolling(w, w')
            || (!w'.pane.busy && w'.inFlight == multiset{})
  {
    hide Reopened, FailWrite;
    FailSame(w, savedAfter);
    if sheet.Died? {
      ReopenedIdle(if sheet.wrote then Logged(w) else w);
    }
  }

  lemma ReopenedIdle(w: World)
    requires w.store.Some? && !IsLive(w.store.value.status)
    ensures !Reopened(w).pane.busy && Reopened(w).inFlight == multiset{}
  {
  }

  lemma StopAttends(w: World, saved: bool)
    requires Attended(w)
    ensures Attended(Pause(w, saved))
  {
  }

  lemma SetAttends(w: World, e: Event)
    requires e.SetResult?
    ensures Attended(Step(w, e))
  {
  }

  lemma ChangeAttends(w: World, e: Event)
    requires (e.MaterialsEnded? || e.MaterialsChecked?) && Attended(w)
    ensures Attended(Step(w, e))
  {
  }

  lemma HeadersSame(w: World, shown: bool, saved: bool)
    ensures SamePolling(w, SetHeaders(w, shown, saved))
  {
    hide Save;
  }

  lemma InspectSame(w: World, blank: bool)
    ensures SamePolling(w, Inspect(w, blank))
  {
    hide HasRows;
  }

  lemma EditSame(w: World, e: Event)
    requires e.Edit? || e.SetIncludeHeaders? || e.InspectTarget?
    ensures SamePolling(w, Step(w, e))
  {
    hide Inspect, SetHeaders, Save;
    match e {
      case SetIncludeHeaders(shown, saved) => HeadersSame(w, shown, saved);
      case InspectTarget(blank) => InspectSame(w, blank);
      case _ =>
    }
  }

  lemma EditAttends(w: World, e: Event)
    requires (e.Edit? || e.SetIncludeHeaders? || e.InspectTarget?) && Attended(w)
    ensures Attended(Step(w, e))
  {
    EditSame(w, e);
    hide Step;
  }

  lemma MaterialsAttend(w: World, e: Event)
    requires e.MaterialsStarted? && Attended(w)
    ensures Attended(Step(w, e)) <==> !Starves(w, e)
  {
  }

  // ---- exactly which events leave a waiting pane unattended

  lemma AttendedExactly(w: World, e: Event)
    requires JobInv(w) && OwnSubmit(w) && (Attended(w) || e.Restore?)
    ensures Attended(Step(w, e)) <==> !Starves(w, e)
  {
    QueuedFacts(w);
    hide JobInv, Attended, Outstanding, OwnSubmit, Shadowed, SamePolling, StartCancel, Reopened, PollJob, Pause;
    match e {
      case Generate(_, _, _) => GenerateAttends(w, e);
      case ConflictsReplied(_, _, _) => PrepareAttends(w, e);
      case SubmitReplied(_, _, _) => SubmitReplyAttends(w, e);
      case TimerFired(_) => FireAttends(w, e);
      case PollReplied(_, _, _) => PollReplyAttends(w, e);
      case Cancel(saved) => CancelAttends(w, saved);
      case CancelReplied(_, _, _, _) => CancelReplyAttends(w, e);
      case MaterialsStarted => MaterialsAttend(w, e);
      case Restore => RestoreAttends(w);
      case WriteToSheet(_, _, _) => WriteAttends(w, e);
      case Reload => ReloadAttends(w);
      case Edit(_) => EditAttends(w, e);
      case SetIncludeHeaders(_, _) => EditAttends(w, e);
      case InspectTarget(_) => EditAttends(w, e);
      case StopWaiting(saved) => StopAttends(w, saved);
      case SetResult(_, _) => SetAttends(w, e);
      case _ => ChangeAttends(w, e);
    }
  }

  lemma RestoreAttends(w: World)
    ensures Attended(Step(w, Restore)) <==> !Starves(w, Restore)
  {
    hide PollJob;
    PollJobAttends(w);
  }

  // ---- over runs

  // The job and the client's id for it stay, or the job goes, and nothing is submitted.
  ghost predicate SameIds(w: World, w': World) {
    && (w'.pane.jobId == w.pane.jobId || w'.pane.jobId == "") && w'.pane.clientJobId == w.pane.clientJobId
    && (forall j :: SubmitFor(j) in w'.inFlight ==> SubmitFor(j) in w.inFlight)
  }

  lemma SameIdsKeep(w: World, w': World)
    requires OwnSubmit(w) && SubmitFor("") !in w.inFlight && SameIds(w, w')
    ensures OwnSubmit(w')
  {
  }

  lemma SameIdsTwice(w: World, w1: World, w2: World)
    requires SameIds(w, w1) && SameIds(w1, w2)
    ensures SameIds(w, w2)
  {
  }

  lemma PollJobIds(w: World, jobId: string)
    ensures SameIds(w, w) && SameIds(w, PollJob(w, jobId))
  {
  }

  lemma FinishIds(w: World, source: string, job: Job, saved: bool)
    ensures SameIds(w, FinishJob(w, source, job, saved))
  {
  }

  lemma CancelIds(w: World, resume: Resume, saved: bool)
    ensures SameIds(w, StartCancel(w, resume, saved))
  {
    hide FinishJob;
    FinishIds(w.(pane := w.pane.(cancelRequested := true, preparing := false),
                 history := w.history.(dropped := w.history.dropped + {w.pane.jobId})),
              w.pane.jobId, Job(Cancelled, None), saved);
  }

  lemma PauseIds(w: World, saved: bool)
    ensures SameIds(w, Pause(w, saved)) && SameIds(w, LoseJob(w)) && SameIds(w, Persist(LoseJob(w), saved))
  {
  }

  lemma AnswerIds(w: World, source: string, job: Job, resume: Resume, saved: bool)
    ensures SameIds(w, CancelOrPoll(FinishJob(w, source, job, saved), resume, saved))
  {
    hide FinishJob, StartCancel, PollJob, SameIds;
    var w' := FinishJob(w, source, job, saved);
    FinishIds(w, source, job, saved);
    CancelIds(w', resume, saved);
    PollJobIds(w', w'.pane.jobId);
    SameIdsTwice(w, w', CancelOrPoll(w', resume, saved));
  }

  lemma AppliedIds(w: World, job: Job, saved: bool)
    ensures SameIds(w, ApplyPoll(w, job, saved))
  {
    hide FinishJob, CancelOrPoll;
    AnswerIds(w.(pane := w.pane.(pending := None, submissionPending := false, pollErrors := 0)), w.pane.jobId, job,
              ThenJob(w.pane.jobId), saved);
  }

  lemma FailedIds(w: World, gone: bool, saved: bool)
    ensures SameIds(w, FailPoll(w, gone, saved))
  {
    hide PollJob, Pause, LoseJob, Ledger.Persist;
    PauseIds(w, saved);
    var w' := w.(pane := w.pane.(pollErrors := w.pane.pollErrors + 1));
    PollJobIds(w', w.pane.jobId);
    PauseIds(w', saved);
  }

  lemma PollReplyIds(w: World, id: string, reply: PollReply, saved: bool)
    ensures SameIds(w, FinishPoll(w, id, reply, saved))
  {
    hide ApplyPoll, FailPoll;
    var w' := w.(pane := w.pane.(pollScheduled := false));
    match reply {
      case Polled(job) => AppliedIds(w', job, saved);
      case PollError(gone) => FailedIds(w', gone, saved);
    }
  }

  lemma CancelReplyIds(w: World, id: string, resume: Resume, reply: CancelReply, saved: bool)
    ensures SameIds(w, FinishCancel(w, id, resume, reply, saved))
  {
    hide FinishJob, PollJob, SameIds, LoseJob;
    PollJobIds(w, id);
    PauseIds(w, saved);
    if reply.CancelAnswered? {
      var w1 := FinishJob(w, id, reply.job, saved);
      FinishIds(w, id, reply.job, saved);
      PollJobIds(w1, w1.pane.jobId);
      SameIdsTwice(w, w1, PollJob(w1, w1.pane.jobId));
    }
    var w2 := AnswerCancel(w, id, reply, saved);
    var job := if resume.ThenJob? then resume.job else w2.pane.jobId;
    PollJobIds(w2, job);
    SameIdsTwice(w, w2, PollJob(w2, job));
  }

  lemma SubmitReplyIds(w: World, id: string, reply: SubmitReply, saved: bool)
    requires OwnSubmit(w) && SubmitFor("") !in w.inFlight
    requires forall j :: SubmitFor(j) in w.inFlight ==> j in w.history.names
    requires reply.Submitted? ==> reply.jobId == "" || reply.jobId == id || reply.jobId !in w.history.names
    ensures OwnSubmit(FinishSubmit(w, id, reply, saved))
  {
    hide FinishJob, CancelOrPoll, PollJob;
    var p := w.pane.(submissionPending := false, status := Running, busy := true);
    PollJobIds(Persist(w.(pane := p), saved), p.jobId);
    if reply.Submitted? && reply.jobId != "" && w.pane.clientJobId == w.pane.jobId == id {
      var w' := w.(pane := w.pane.(submissionPending := false, jobId := reply.jobId, pending := None),
                   history := w.history.(names := w.history.names + {reply.jobId}));
      AnswerIds(w', reply.jobId, reply.job, ThenCurrent, saved);
    }
  }

  lemma GenerateIds(w: World, e: Event)
    requires OwnSubmit(w) && e.Generate? && SubmitFor("") !in w.inFlight
    ensures OwnSubmit(Step(w, e))
  {
    hide PollJob;
    PollJobIds(w.(pane := w.pane.(paused := false, pollErrors := 0)), w.pane.jobId);
  }

  lemma PrepareIds(w: World, e: Event)
    requires OwnSubmit(w) && e.ConflictsReplied? && SubmitFor("") !in w.inFlight
    ensures OwnSubmit(Step(w, e))
  {
    hide BeginSubmit;
    BeginIds(Taken(w, PrepareFor(e.jobId)), e.jobId, e.saved);
  }

  lemma BeginIds(w: World, jobId: string, saved: bool)
    ensures OwnSubmit(BeginSubmit(w, jobId, saved))
  {
  }

  lemma SheetIds(w: World, e: Event)
    requires e.WriteToSheet? && OwnSubmit(w)
    ensures OwnSubmit(Step(w, e))
  {
    hide Write;
    SheetLeaves(w, e.savedBefore, e.sheet, e.savedAfter);
    var w' := Step(w, e);
    assert w' == Write(w, e.savedBefore, e.sheet, e.savedAfter);
    if w'.inFlight != multiset{} {
      assert w'.pane.jobId == w.pane.jobId && w'.pane.clientJobId == w.pane.clientJobId;
    }
  }

  lemma FireIds(w: World, id: string)
    ensures SameIds(w, Fire(w, id))
  {
  }

  lemma SameIsSameIds(w: World, w': World)
    requires SamePolling(w, w')
    ensures SameIds(w, w')
  {
  }

  lemma MaterialsIds(w: World, e: Event)
    requires e.MaterialsStarted? || e.MaterialsEnded? || e.MaterialsChecked?
    ensures SameIds(w, Step(w, e))
  {
  }

  lemma SubmitsAreNamed(w: World)
    requires JobInv(w)
    ensures SubmitFor("") !in w.inFlight && forall j :: SubmitFor(j) in w.inFlight ==> j in w.history.names
  {
    hide PaneOk, StoreOk;
  }

  lemma TakenIds(w: World, r: Request, w': World)
    requires SameIds(Taken(w, r), w')
    ensures SameIds(w, w')
  {
  }

  lemma EventIds(w: World, e: Event)
    requires !e.Generate? && !e.ConflictsReplied? && !e.SubmitReplied? && !e.WriteToSheet? && !e.Reload?
    ensures SameIds(w, Step(w, e))
  {
    hide FinishPoll, FinishCancel, StartCancel, FinishJob, PollJob, Pause, Fire, SameIds;
    PollJobIds(w, w.pane.jobId);
    match e {
      case PollReplied(id, reply, saved) =>
        PollReplyIds(Taken(w, PollFor(id)), id, reply, saved);
        TakenIds(w, PollFor(id), FinishPoll(Taken(w, PollFor(id)), id, reply, saved));
      case CancelReplied(id, resume, reply, saved) =>
        CancelReplyIds(Taken(w, CancelFor(id, resume)), id, resume, reply, saved);
        TakenIds(w, CancelFor(id, resume), FinishCancel(Taken(w, CancelFor(id, resume)), id, resume, reply, saved));
      case Cancel(saved) => CancelIds(w, Alone, saved);
      case StopWaiting(saved) => PauseIds(w, saved);
      case SetResult(rows, saved) => FinishIds(w, "", Job(Completed, rows), saved);
      case TimerFired(id) => FireIds(w, id);
      case Restore =>
      case MaterialsStarted => MaterialsIds(w, e);
      case MaterialsEnded(_, _) => MaterialsIds(w, e);
      case MaterialsChecked(_) => MaterialsIds(w, e);
      case _ =>
        EditSame(w, e);
        SameIsSameIds(w, Step(w, e));
    }
  }

  lemma OwnSubmitKept(w: World, e: Event)
    requires JobInv(w) && OwnSubmit(w) && FreshIds(w.history, e)
    ensures OwnSubmit(Step(w, e))
  {
    SubmitsAreNamed(w);
    hide JobInv, FinishSubmit, SameIds;
    match e {
      case Generate(_, _, _) => GenerateIds(w, e);
      case ConflictsReplied(_, _, _) => PrepareIds(w, e);
      case SubmitReplied(id, reply, saved) =>
        if SubmitFor(id) in w.inFlight {
          SubmitReplyIds(Taken(w, SubmitFor(id)), id, reply, saved);
        }
      case WriteToSheet(_, _, _) => SheetIds(w, e);
      case Reload =>
      case _ =>
        EventIds(w, e);
        hide Step;
        SameIdsKeep(w, Step(w, e));
    }
  }

  predicate Unstarved(w: World, es: seq<Event>)
    decreases |es|
  {
    es == [] || (Unstarved(w, es[..|es| - 1]) && !Starves(Run(w, es[..|es| - 1]), es[|es| - 1]))
  }

  ghost predicate AttendedThroughout(w: World, es: seq<Event>) {
    forall k :: 0 <= k <= |es| ==> Attended(Run(w, es[..k]))
  }

  lemma {:induction false} PollInvAlways(w: World, es: seq<Event>)
    requires JobInv(w) && OwnSubmit(w) && FreshRun(w, es)
    ensures JobInv(Run(w, es)) && OwnSubmit(Run(w, es))
    decreases |es|
  {
    if es != [] {
      var before, e := Run(w, es[..|es| - 1]), es[|es| - 1];
      PollInvAlways(w, es[..|es| - 1]);
      hide Step, JobInv, OwnSubmit;
      JobInvKept(before, e);
      OwnSubmitKept(before, e);
    }
  }

  lemma ThroughoutLast(w: World, es: seq<Event>)
    requires es != []
    ensures AttendedThroughout(w, es) <==> AttendedThroughout(w, es[..|es| - 1]) && Attended(Run(w, es))
  {
    hide Run, Attended;
    var before := es[..|es| - 1];
    assert es[..|es|] == es;
    assert forall k :: 0 <= k <= |before| ==> before[..k] == es[..k];
  }

  // From an attended pane, a run attends to the job it waits for at every moment exactly when none of
  // its events starves it.
  lemma {:induction false} AttendedThroughoutExactly(w: World, es: seq<Event>)
    requires JobInv(w) && OwnSubmit(w) && Attended(w) && FreshRun(w, es)
    ensures AttendedThroughout(w, es) <==> Unstarved(w, es)
    decreases |es|
  {
    if es == [] {
      assert es[..0] == [];
    } else {
      var before, e := es[..|es| - 1], es[|es| - 1];
      AttendedThroughoutExactly(w, before);
      PollInvAlways(w, before);
      ThroughoutLast(w, es);
      if AttendedThroughout(w, before) {
        assert before[..|before|] == before;
        assert Attended(Run(w, before));
        hide Step, JobInv, OwnSubmit, Attended, AttendedThroughout, Starves;
        AttendedExactly(Run(w, before), e);
      }
    }
  }

  // Over every run from an empty store.
  lemma AttendedFromFresh(es: seq<Event>)
    requires FreshRun(Fresh, es)
    ensures AttendedThroughout(Fresh, es) <==> Unstarved(Fresh, es)
  {
    JobInvAlways([]);
    AttendedThroughoutExactly(Fresh, es);
    hide AttendedThroughout, Unstarved, FreshRun;
  }

  // A pane that is reloaded and restored, as the task pane does on opening, attends to its job
  // whatever was outstanding before.
  lemma RestoredAttends(w: World)
    ensures Attended(Step(Step(w, Reload), Restore)) && OwnSubmit(Step(Step(w, Reload), Restore))
  {
    hide PollJob;
    RestoreAttends(Reopened(w));
    PollJobIds(Reopened(w), Reopened(w).pane.jobId);
  }

  // ---- a run that loses its job

  // The pane waits for its job with no request in flight and no timer set.
  predicate Abandoned(w: World) {
    Waits(w.pane) && w.inFlight == multiset{} && w.timers == multiset{}
  }

  // A job is started, checked, submitted and taken on.
  function Submission(id: string): seq<Event> {
    [Generate(id, true, true), ConflictsReplied(id, Clear, true),
     SubmitReplied(id, Submitted(id, Job(Running, None)), true)]
  }

  // A job is cancelled and replaced while its timer is still set; then the timer fires.
  const POLL_LOST: seq<Event> :=
    Submission("a") + [Cancel(true)] + [CancelReplied("a", Alone, CancelAnswered(Job(Cancelled, None)), true)]
    + Submission("b") + [TimerFired("a")]

  lemma Submitting(es: seq<Event>, id: string)
    requires FreshRun(Fresh, es) && id != "" && id !in Run(Fresh, es).history.names
    requires var w := Run(Fresh, es);
             w.pane.jobId == "" && !w.pane.busy && w.pane.pending.None? && w.inFlight == multiset{}
    ensures FreshRun(Fresh, es + Submission(id))
    ensures var p, w := Run(Fresh, es).pane, Run(Fresh, es + Submission(id));
            && w.pane.jobId == id && w.pane.busy && !w.pane.paused && !w.pane.preparing && w.inFlight == multiset{}
            && w.pane.pollScheduled && w.history.names == Run(Fresh, es).history.names + {id}
            && w.timers == Run(Fresh, es).timers + (if p.pollScheduled then multiset{} else multiset{id})
  {
    hide Run, FreshRun, Step;
    var e1, e2, e3 := Submission(id)[0], Submission(id)[1], Submission(id)[2];
    var w := Run(Fresh, es);
    Prepared(w, id);
    RunThen(es, e1);
    RunThen(es + [e1], e2);
    Accepted(Step(Step(w, e1), e2), id);
    RunThen(es + [e1] + [e2], e3);
    assert es + Submission(id) == es + [e1] + [e2] + [e3];
  }

  lemma Prepared(w: World, id: string)
    requires w.pane.jobId == "" && !w.pane.busy && w.pane.pending.None? && w.inFlight == multiset{} && id != ""
    ensures var w' := Step(Step(w, Generate(id, true, true)), ConflictsReplied(id, Clear, true));
            && w'.pane.clientJobId == w'.pane.jobId == id && !w'.pane.cancelRequested && !w'.pane.paused
            && !w'.pane.preparing && w'.pane.pollScheduled == w.pane.pollScheduled
            && w'.inFlight == multiset{SubmitFor(id)} && w'.timers == w.timers
            && w'.history.names == w.history.names + {id}
  {
  }

  lemma Accepted(w: World, id: string)
    requires w.pane.clientJobId == w.pane.jobId == id != "" && !w.pane.cancelRequested && !w.pane.paused
    requires !w.pane.preparing && w.inFlight == multiset{SubmitFor(id)} && id in w.history.names
    ensures var w' := Step(w, SubmitReplied(id, Submitted(id, Job(Running, None)), true));
            && w'.pane.jobId == id && w'.pane.busy && !w'.pane.paused && !w'.pane.preparing
            && w'.inFlight == multiset{} && w'.pane.pollScheduled && w'.history.names == w.history.names
            && w'.timers == w.timers + (if w.pane.pollScheduled then multiset{} else multiset{id})
  {
    hide StartCancel;
  }

  // The new job gets no timer of its own, the old one clears the flag and asks for nothing.
  lemma PollLost()
    ensures FreshRun(Fresh, POLL_LOST) && Abandoned(Run(Fresh, POLL_LOST))
  {
    var w := Opened();
    hide Run, FreshRun, Step;
    var es := [] + Submission("a");
    Submitting([], "a");
    var e1, e2 := Cancel(true), CancelReplied("a", Alone, CancelAnswered(Job(Cancelled, None)), true);
    RunThen(es, e1);
    RunThen(es + [e1], e2);
    CancelledIdle(Run(Fresh, es), "a");
    var es' := es + [e1] + [e2];
    Submitting(es', "b");
    RunThen(es' + Submission("b"), TimerFired("a"));
    StaleTimer(Run(Fresh, es' + Submission("b")), "a");
    assert [] + Submission("a") == Submission("a");
  }

  lemma StaleTimer(w: World, first: string)
    requires w.pane.jobId != "" && w.pane.jobId != first && w.pane.busy && !w.pane.paused
    requires w.inFlight == multiset{} && w.timers == multiset{first}
    ensures Abandoned(Step(w, TimerFired(first)))
  {
  }

  lemma CancelledIdle(w: World, id: string)
    requires w.pane.jobId == id != "" && w.pane.busy && !w.pane.paused && !w.pane.preparing && w.inFlight == multiset{}
    ensures var w' := Step(Step(w, Cancel(true)), CancelReplied(id, Alone, CancelAnswered(Job(Cancelled, None)), true));
            && w'.pane.jobId == "" && !w'.pane.busy && w'.pane.pending.None? && w'.inFlight == multiset{}
            && w'.pane.pollScheduled == w.pane.pollScheduled && w'.timers == w.timers
            && w'.history.names == w.history.names
  {
  }
}
