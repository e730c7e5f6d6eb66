/** What the ledger pane makes of a preparation, an error or an unanswered request, and exactly which
    events bring storage up to date. */
module LedgerReplies {
  import opened Options
  import opened Ledger
  import opened LedgerSheet

  // ---- storage

  // Storage takes the pane as the event leaves it, or is left alone.
  ghost predicate Stored(store: Option<Saved>, w': World, saves: bool) {
    w'.store == if saves then Some(Save(w'.pane)) else store
  }

  // The events that save the pane, if the write succeeds.
  predicate Saves(w: World, e: Event) {
    var p := w.pane;
    match e
    case Generate(_, _, saved) => saved && Resubmits(p).Some?
    case ConflictsReplied(id, reply, saved) =>
      saved && PrepareFor(id) in w.inFlight && p.jobId == id && reply == Clear
    case SubmitReplied(id, _, saved) => saved && SubmitFor(id) in w.inFlight && p.jobId == p.clientJobId == id
    case PollReplied(id, reply, saved) =>
      saved && PollFor(id) in w.inFlight && p.jobId == id && PollSaves(p, reply)
    case StopWaiting(saved) => saved && p.jobId != ""
    case Cancel(saved) => saved && p.jobId != "" && p.preparing
    case CancelReplied(id, resume, CancelAnswered(_), saved) =>
      saved && CancelFor(id, resume) in w.inFlight && p.jobId == id
    case SetResult(_, saved) => saved
    case MaterialsEnded(failed, saved) => saved && MaterialsChange in w.inFlight && !failed
    case Edit(saved) => saved
    case SetIncludeHeaders(_, saved) => saved && !Closed(p)
    case _ => false
  }

  // A paused pane takes note only of the end of its job; an error counts until the job is gone or the
  // pane has had enough.
  predicate PollSaves(p: Pane, reply: PollReply) {
    match reply
    case Polled(job) => !p.paused || !IsLive(job.status)
    case PollError(gone) => !p.paused && FailSaves(p, gone)
  }

  predicate FailSaves(p: Pane, gone: bool) {
    (gone && !p.submissionPending) || (p.pollErrors >= 3 && p.jobId != "")
  }

  lemma PollStores(w: World, jobId: string)
    ensures var w' := PollJob(w, jobId); w'.store == w.store && Save(w'.pane) == Save(w.pane)
  {
  }

  lemma ThenPolls(store: Option<Saved>, w: World, jobId: string, saves: bool)
    requires Stored(store, w, saves)
    ensures Stored(store, PollJob(w, jobId), saves)
  {
    PollStores(w, jobId);
    hide PollJob, Save;
  }

  lemma FinishStores(w: World, source: string, job: Job, saved: bool)
    ensures Stored(w.store, FinishJob(w, source, job, saved), saved)
  {
    hide Save;
  }

  lemma ThenCancels(store: Option<Saved>, w: World, resume: Resume, saved: bool)
    requires Stored(store, w, saved)
    ensures Stored(store, StartCancel(w, resume, saved), saved)
  {
    hide FinishJob;
    var p := w.pane;
    FinishStores(w.(pane := p.(cancelRequested := true, preparing := false),
                    history := w.history.(dropped := w.history.dropped + {p.jobId})),
                 p.jobId, Job(Cancelled, None), saved);
  }

  lemma ThenGoesOn(store: Option<Saved>, w: World, resume: Resume, saved: bool)
    requires Stored(store, w, saved)
    ensures Stored(store, CancelOrPoll(w, resume, saved), saved)
  {
    hide StartCancel, PollJob, Stored;
    ThenCancels(store, w, resume, saved);
    ThenPolls(store, w, w.pane.jobId, saved);
  }

  lemma AnswerStores(w: World, source: string, job: Job, resume: Resume, saved: bool)
    ensures Stored(w.store, CancelOrPoll(FinishJob(w, source, job, saved), resume, saved), saved)
  {
    hide FinishJob, CancelOrPoll, Stored;
    FinishStores(w, source, job, saved);
    ThenGoesOn(w.store, FinishJob(w, source, job, saved), resume, saved);
  }

  lemma BeginStores(w: World, jobId: string, saved: bool)
    ensures Stored(w.store, BeginSubmit(w, jobId, saved), saved)
  {
    hide Save;
  }

  lemma NothingStored(w: World)
    ensures Stored(w.store, w, false)
  {
  }

  lemma GenerateStores(w: World, id: string, headersChosen: bool, saved: bool)
    ensures Stored(w.store, StartGenerate(w, id, headersChosen, saved), saved && Resubmits(w.pane).Some?)
  {
    hide BeginSubmit, PollJob, Stored, Save;
    var p := w.pane;
    if p.jobId != "" && p.paused {
      var w0 := w.(pane := p.(paused := false, pollErrors := 0));
      NothingStored(w0);
      ThenPolls(w0.store, w0, p.jobId, false);
    } else if !p.busy && p.pending.Some? {
      var jobId := p.pending.value;
      var p' := p.(clientJobId := jobId, jobId := jobId, status := Running, preparing := false,
                   cancelRequested := false, paused := false, pollErrors := 0, busy := true);
      BeginStores(w.(pane := p', history := w.history.(names := w.history.names + {jobId})), jobId, saved);
    } else {
      NothingStored(w);
      PreparingStores(w, id, headersChosen, saved);
    }
  }

  lemma PreparingStores(w: World, id: string, headersChosen: bool, saved: bool)
    requires !(w.pane.jobId != "" && w.pane.paused) && (w.pane.busy || w.pane.pending.None?)
    ensures Stored(w.store, StartGenerate(w, id, headersChosen, saved), false)
  {
  }

  lemma PrepareStores(w: World, jobId: string, reply: ConflictsReply, saved: bool)
    ensures Stored(w.store, FinishPrepare(w, jobId, reply, saved), saved && w.pane.jobId == jobId && reply == Clear)
  {
    hide BeginSubmit, Save;
    BeginStores(w, jobId, saved);
  }

  lemma PersistStores(w: World, w': World, saved: bool)
    requires w'.store == w.store
    ensures Stored(w.store, Persist(w', saved), saved)
  {
  }

  lemma SubmitReplyStores(w: World, id: string, reply: SubmitReply, saved: bool)
    ensures Stored(w.store, FinishSubmit(w, id, reply, saved), saved && w.pane.jobId == w.pane.clientJobId == id)
  {
    hide FinishJob, CancelOrPoll, PollJob, Stored, Save, Persist;
    NothingStored(w);
    var p := w.pane.(submissionPending := false, status := Running, busy := true);
    PersistStores(w, w.(pane := p), saved);
    ThenPolls(w.store, Persist(w.(pane := p), saved), p.jobId, saved);
    match reply {
      case Submitted(id', job) =>
        AnswerStores(w.(pane := w.pane.(submissionPending := false, jobId := id', pending := None),
                        history := w.history.(names := w.history.names + {id'})), id', job, ThenCurrent, saved);
      case SubmitError(_) =>
        PersistStores(w, w.(pane := w.pane.(submissionPending := false, pending := None, jobId := "", status := Failed,
                                            busy := false),
                            history := w.history.(outcomes := w.history.outcomes + [w.pane.jobId])), saved);
    }
  }

  lemma FailStores(w: World, gone: bool, saved: bool)
    ensures Stored(w.store, FailPoll(w, gone, saved), saved && !w.pane.paused && FailSaves(w.pane, gone))
  {
    hide PollJob, Stored, Save, Persist, LoseJob;
    var w' := w.(pane := w.pane.(pollErrors := w.pane.pollErrors + 1));
    NothingStored(w);
    NothingStored(w');
    LostStores(w);
    PersistStores(w, LoseJob(w), saved);
    PersistStores(w', w'.(pane := w'.pane.(paused := true)), saved);
    ThenPolls(w.store, w', w.pane.jobId, false);
  }

  lemma LostStores(w: World)
    ensures LoseJob(w).store == w.store
  {
  }

  lemma PollReplyStores(w: World, id: string, reply: PollReply, saved: bool)
    ensures Stored(w.store, FinishPoll(w, id, reply, saved), saved && w.pane.jobId == id && PollSaves(w.pane, reply))
  {
    hide FailPoll, FinishJob, CancelOrPoll, Stored;
    var w' := w.(pane := w.pane.(pollScheduled := false));
    NothingStored(w');
    match reply {
      case Polled(job) =>
        var w'' := w'.(pane := w'.pane.(pending := None, submissionPending := false, pollErrors := 0));
        NothingStored(w'');
        AnswerStores(w'', w.pane.jobId, job, ThenJob(w.pane.jobId), saved);
      case PollError(gone) => FailStores(w', gone, saved);
    }
  }

  lemma CancelReplyStores(w: World, id: string, resume: Resume, reply: CancelReply, saved: bool)
    ensures Stored(w.store, FinishCancel(w, id, resume, reply, saved), saved && w.pane.jobId == id && reply.CancelAnswered?)
  {
    hide AnswerCancel, PollJob, Stored;
    var w', saves := AnswerCancel(w, id, reply, saved), saved && w.pane.jobId == id && reply.CancelAnswered?;
    AnswerCancelStores(w, id, reply, saved);
    ThenPolls(w.store, w', w'.pane.jobId, saves);
    if resume.ThenJob? {
      ThenPolls(w.store, w', resume.job, saves);
    }
  }

  lemma AnswerCancelStores(w: World, id: string, reply: CancelReply, saved: bool)
    ensures Stored(w.store, AnswerCancel(w, id, reply, saved), saved && w.pane.jobId == id && reply.CancelAnswered?)
  {
    hide FinishJob, PollJob, Save;
    if reply.CancelAnswered? {
      FinishStores(w, id, reply.job, saved);
      ThenPolls(w.store, FinishJob(w, id, reply.job, saved), FinishJob(w, id, reply.job, saved).pane.jobId, saved);
    }
  }

  lemma QuietStores(w: World, e: Event)
    requires e.TimerFired? || e.StopWaiting? || e.Edit? || e.MaterialsStarted? || e.MaterialsEnded? || e.MaterialsChecked?
             || e.SetIncludeHeaders? || e.InspectTarget? || e.Reload?
    ensures Stored(w.store, Step(w, e), Saves(w, e))
  {
    hide Save, Load;
  }

  lemma StartCancelStores(w: World, saved: bool)
    ensures Stored(w.store, StartCancel(w, Alone, saved), saved && w.pane.jobId != "" && w.pane.preparing)
  {
    hide FinishJob, Save;
    var p := w.pane;
    FinishStores(w.(pane := p.(cancelRequested := true, preparing := false),
                    history := w.history.(dropped := w.history.dropped + {p.jobId})),
                 p.jobId, Job(Cancelled, None), saved);
  }

  lemma RepliesStore(w: World, e: Event)
    requires e.ConflictsReplied? || e.SubmitReplied? || e.PollReplied? || e.CancelReplied?
    ensures Stored(w.store, Step(w, e), Saves(w, e))
  {
    hide FinishPrepare, FinishSubmit, FinishPoll, FinishCancel, Stored;
    NothingStored(w);
    match e {
      case ConflictsReplied(id, reply, saved) => PrepareStores(Taken(w, PrepareFor(id)), id, reply, saved);
      case SubmitReplied(id, reply, saved) => SubmitReplyStores(Taken(w, SubmitFor(id)), id, reply, saved);
      case PollReplied(id, reply, saved) => PollReplyStores(Taken(w, PollFor(id)), id, reply, saved);
      case CancelReplied(id, resume, reply, saved) =>
        CancelReplyStores(Taken(w, CancelFor(id, resume)), id, resume, reply, saved);
    }
  }

  // Exactly which events but a sheet call bring storage up to date; LedgerSheet.CallShows says what a
  // sheet call leaves there.
  lemma StoredExactly(w: World, e: Event)
    requires !e.WriteToSheet?
    ensures Stored(w.store, Step(w, e), Saves(w, e))
  {
    hide StartGenerate, FinishJob, StartCancel, PollJob, Stored;
    match e {
      case Generate(id, headersChosen, saved) => GenerateStores(w, id, headersChosen, saved);
      case Cancel(saved) => StartCancelStores(w, saved);
      case SetResult(rows, saved) => FinishStores(w, "", Job(Completed, rows), saved);
      case Restore =>
        NothingStored(w);
        ThenPolls(w.store, w, w.pane.jobId, false);
      case ConflictsReplied(_, _, _) =>
        hide Step, Saves;
        RepliesStore(w, e);
      case SubmitReplied(_, _, _) =>
        hide Step, Saves;
        RepliesStore(w, e);
      case PollReplied(_, _, _) =>
        hide Step, Saves;
        RepliesStore(w, e);
      case CancelReplied(_, _, _, _) =>
        hide Step, Saves;
        RepliesStore(w, e);
      case _ =>
        hide Step, Saves;
        QuietStores(w, e);
    }
  }

  // ---- what a preparation, an error or an unanswered request comes to

  // The reply is to a request in flight for the job the pane holds.
  predicate Current(w: World, e: Event) {
    match e
    case ConflictsReplied(id, _, _) => PrepareFor(id) in w.inFlight && w.pane.jobId == id
    case SubmitReplied(id, _, _) => SubmitFor(id) in w.inFlight && w.pane.jobId == w.pane.clientJobId == id
    case PollReplied(id, _, _) => PollFor(id) in w.inFlight && w.pane.jobId == id
    case CancelReplied(id, resume, _, _) => CancelFor(id, resume) in w.inFlight && w.pane.jobId == id
    case _ => false
  }

  // The pane is as it was, but for its poll flag.
  predicate OnlyFlag(p: Pane, p': Pane) {
    p' == p.(pollScheduled := p'.pollScheduled)
  }

  // The job is gone: nothing is known of it any more.
  function Lost(p: Pane): Pane {
    p.(jobId := "", pending := None, status := Interrupted, busy := false)
  }

  ghost predicate Shows(p: Pane, e: Event, w': World) {
    var p' := w'.pane;
    match e
    case ConflictsReplied(id, reply, _) =>
      if reply == Clear then
        && p'.jobId == p'.clientJobId == id && p'.pending == Some(id) && p'.status == Running && p'.busy
        && !p'.preparing && p'.submissionPending && p'.result.None? && SubmitFor(id) in w'.inFlight
      else p' == p.(preparing := false, jobId := "", status := Failed, busy := false)
    case SubmitReplied(_, SubmitError(true), _) =>
      p' == p.(submissionPending := false, pending := None, jobId := "", status := Failed, busy := false)
    case SubmitReplied(_, Submitted(id', _), _) =>
      id' == "" ==> OnlyFlag(p.(submissionPending := false, status := Running, busy := true), p')
    case SubmitReplied(_, SubmitError(false), _) =>
      OnlyFlag(p.(submissionPending := false, status := Running, busy := true), p')
    case PollReplied(id, PollError(gone), _) =>
      if p.paused then OnlyFlag(p, p')
      else if gone && !p.submissionPending then OnlyFlag(Lost(p), p')
      else OnlyFlag(p.(pollErrors := p.pollErrors + 1, paused := p.pollErrors >= 3 && id != ""), p')
    case CancelReplied(_, _, CancelGone, _) => OnlyFlag(Lost(p), p')
    case CancelReplied(_, _, CancelMissing, _) => OnlyFlag(if p.submissionPending then p else Lost(p), p')
    case CancelReplied(_, _, CancelError, _) => OnlyFlag(p, p')
    case _ => true
  }

  lemma FlagOnly(w: World, jobId: string)
    ensures OnlyFlag(w.pane, PollJob(w, jobId).pane)
  {
  }

  lemma FlagTwice(p: Pane, p': Pane, p'': Pane)
    requires OnlyFlag(p, p') && OnlyFlag(p', p'')
    ensures OnlyFlag(p, p'')
  {
  }

  lemma PersistShows(w: World, saved: bool)
    ensures Persist(w, saved).pane == w.pane
  {
  }

  lemma PrepareShows(w: World, id: string, reply: ConflictsReply, saved: bool)
    requires w.pane.jobId == id
    ensures Shows(w.pane, ConflictsReplied(id, reply, saved), FinishPrepare(w, id, reply, saved))
  {
    hide Save;
  }

  lemma SubmitErrorShows(w: World, id: string, reply: SubmitReply, saved: bool)
    requires w.pane.jobId == w.pane.clientJobId == id
    ensures Shows(w.pane, SubmitReplied(id, reply, saved), FinishSubmit(w, id, reply, saved))
  {
    hide FinishJob, CancelOrPoll, PollJob, Persist, OnlyFlag;
    var p := w.pane.(submissionPending := false, status := Running, busy := true);
    PersistShows(w.(pane := p), saved);
    FlagOnly(Persist(w.(pane := p), saved), p.jobId);
    if reply == SubmitError(true) {
      PersistShows(w.(pane := w.pane.(submissionPending := false, pending := None, jobId := "", status := Failed,
                                      busy := false),
                      history := w.history.(outcomes := w.history.outcomes + [w.pane.jobId])), saved);
    }
  }

  lemma FailShows(w: World, gone: bool, saved: bool)
    ensures var p, p' := w.pane, FailPoll(w, gone, saved).pane;
            if p.paused then OnlyFlag(p, p')
            else if gone && !p.submissionPending then OnlyFlag(Lost(p), p')
            else OnlyFlag(p.(pollErrors := p.pollErrors + 1, paused := p.pollErrors >= 3 && p.jobId != ""), p')
  {
    hide PollJob, Persist;
    var w' := w.(pane := w.pane.(pollErrors := w.pane.pollErrors + 1));
    PersistShows(LoseJob(w), saved);
    PersistShows(w'.(pane := w'.pane.(paused := true)), saved);
    FlagOnly(w', w.pane.jobId);
  }

  lemma PollErrorShows(w: World, id: string, gone: bool, saved: bool)
    requires w.pane.jobId == id
    ensures Shows(w.pane, PollReplied(id, PollError(gone), saved), FinishPoll(w, id, PollError(gone), saved))
  {
    hide FailPoll;
    FailShows(w.(pane := w.pane.(pollScheduled := false)), gone, saved);
  }

  lemma CancelErrorShows(w: World, id: string, resume: Resume, reply: CancelReply, saved: bool)
    requires w.pane.jobId == id && !reply.CancelAnswered?
    ensures Shows(w.pane, CancelReplied(id, resume, reply, saved), FinishCancel(w, id, resume, reply, saved))
  {
    hide PollJob, OnlyFlag;
    var w' := AnswerCancel(w, id, reply, saved);
    assert OnlyFlag(w'.pane, w'.pane) by { ItselfShows(w'.pane); }
    FlagOnly(w', w'.pane.jobId);
    if resume.ThenJob? {
      FlagOnly(w', resume.job);
    }
  }

  lemma ItselfShows(p: Pane)
    ensures OnlyFlag(p, p)
  {
  }

  // What the pane shows after a reply about its job that is no word of the server's on how the job
  // stands; LedgerJobs.AnswersShow is for those that are.
  lemma ErrorsShow(w: World, e: Event)
    requires Current(w, e)
    ensures Shows(w.pane, e, Step(w, e))
  {
    hide FinishPrepare, FinishSubmit, FinishPoll, FinishCancel, Shows;
    match e {
      case ConflictsReplied(id, reply, saved) => PrepareShows(Taken(w, PrepareFor(id)), id, reply, saved);
      case SubmitReplied(id, reply, saved) => SubmitErrorShows(Taken(w, SubmitFor(id)), id, reply, saved);
      case PollReplied(id, reply, saved) =>
        if reply.PollError? {
          PollErrorShows(Taken(w, PollFor(id)), id, reply.gone, saved);
        } else {
          AnsweredShows(w, e, Step(w, e));
        }
      case CancelReplied(id, resume, reply, saved) =>
        if !reply.CancelAnswered? {
          CancelErrorShows(Taken(w, CancelFor(id, resume)), id, resume, reply, saved);
        } else {
          AnsweredShows(w, e, Step(w, e));
        }
    }
  }

  lemma AnsweredShows(w: World, e: Event, w': World)
    requires (e.PollReplied? && e.pollReply.Polled?) || (e.CancelReplied? && e.cancelReply.CancelAnswered?)
    ensures Shows(w.pane, e, w')
  {
  }

  // Starting: a paused job is waited for again; a pane at rest submits once more what was left
  // unanswered, or prepares a new job if a column is chosen; otherwise nothing happens.
  lemma GenerateShows(w: World, id: string, headersChosen: bool, saved: bool)
    ensures var p, w' := w.pane, Step(w, Generate(id, headersChosen, saved)); var p' := w'.pane;
      if p.jobId != "" && p.paused then OnlyFlag(p.(paused := false, pollErrors := 0), p')
      else if p.busy then w' == w
      else if p.pending.Some? then
        && p'.jobId == p'.clientJobId == p.pending.value && p'.pending == p.pending && p'.status == Running && p'.busy
        && !p'.preparing && !p'.paused && !p'.cancelRequested && p'.submissionPending
        && w'.inFlight == w.inFlight + multiset{SubmitFor(p.pending.value)}
      else if headersChosen then
        && p'.jobId == p'.clientJobId == id && p'.status == Running && p'.busy && p'.preparing && !p'.paused
        && !p'.cancelRequested && p'.result == p.result && w'.inFlight == w.inFlight + multiset{PrepareFor(id)}
      else w' == w
  {
    hide PollJob, Save;
    FlagOnly(w.(pane := w.pane.(paused := false, pollErrors := 0)), w.pane.jobId);
  }

  // ---- what the pane's own handlers come to

  ghost predicate Handled(w: World, e: Event, w': World) {
    var p, p' := w.pane, w'.pane;
    match e
    case StopWaiting(_) => p' == p.(paused := p.paused || p.jobId != "")
    case Cancel(_) =>
      if p.jobId == "" then w' == w
      else if p.preparing then
        && p'.jobId == "" && p'.status == Cancelled && !p'.busy && !p'.preparing && p'.pending.None?
        && !p'.cancelRequested && p'.result == p.result && w'.inFlight == w.inFlight
      else
        && p' == p.(cancelRequested := true)
        && w'.inFlight == w.inFlight + multiset{CancelFor(p.jobId, Alone)}
    case TimerFired(id) =>
      if id !in w.timers then w' == w
      else if id == p.jobId && p.busy && !p.paused then p' == p && w'.inFlight == w.inFlight + multiset{PollFor(id)}
      else OnlyFlag(p, p') && w'.inFlight == w.inFlight
    case MaterialsStarted =>
      if p.busy then w' == w
      else p' == p.(busy := true) && w'.inFlight == w.inFlight + multiset{MaterialsChange}
    case MaterialsEnded(failed, _) =>
      if MaterialsChange !in w.inFlight then w' == w
      else
        && p' == p.(busy := false)
        && w'.inFlight == w.inFlight - multiset{MaterialsChange} + (if failed then multiset{} else multiset{MaterialsCheck})
    case MaterialsChecked(failed) =>
      if MaterialsCheck !in w.inFlight then w' == w
      else p' == p.(busy := p.busy && !failed) && w'.inFlight == w.inFlight - multiset{MaterialsCheck}
    case SetIncludeHeaders(shown, _) =>
      if Closed(p) then w' == w
      else p' == p.(includeHeaders := shown, write := WriteState(NotWritten, p.write.report, false, p.write.writing))
    case InspectTarget(_) =>
      if Closed(p) then w' == w
      else
        var found := Confirms(w, e);
        p' == p.(write := WriteState(if found then Ready else WriteFailed, p.write.report, found, p.write.writing))
    case Edit(_) => p' == p
    case Restore => OnlyFlag(p, p') && w'.inFlight == w.inFlight
    case _ => true
  }

  lemma CancelHandled(w: World, saved: bool)
    ensures Handled(w, Cancel(saved), StartCancel(w, Alone, saved))
  {
    hide Save;
  }

  lemma FireHandled(w: World, id: string)
    ensures Handled(w, TimerFired(id), Step(w, TimerFired(id)))
  {
  }

  lemma MaterialsHandled(w: World, e: Event)
    requires e.MaterialsStarted? || e.MaterialsEnded? || e.MaterialsChecked?
    ensures Handled(w, e, Step(w, e))
  {
    hide Save;
  }

  lemma SheetHandled(w: World, e: Event)
    requires e.SetIncludeHeaders? || e.InspectTarget?
    ensures Handled(w, e, Step(w, e))
  {
    hide Save;
  }

  // What stopping to wait, cancelling, a timer, a materials change, the header choice, an inspection and
  // a restore come to.
  lemma HandlersShow(w: World, e: Event)
    ensures Handled(w, e, Step(w, e))
  {
    hide StartCancel, Fire, PollJob, Handled;
    match e {
      case Cancel(saved) => CancelHandled(w, saved);
      case TimerFired(id) => FireHandled(w, id);
      case MaterialsStarted => MaterialsHandled(w, e);
      case MaterialsEnded(_, _) => MaterialsHandled(w, e);
      case MaterialsChecked(_) => MaterialsHandled(w, e);
      case SetIncludeHeaders(_, _) => SheetHandled(w, e);
      case InspectTarget(_) => SheetHandled(w, e);
      case Edit(_) => QuietHandled(w, e);
      case StopWaiting(_) => QuietHandled(w, e);
      case Restore => RestoreHandled(w);
      case _ =>
        hide Step;
        OthersHandled(w, e, Step(w, e));
    }
  }

  lemma QuietHandled(w: World, e: Event)
    requires e.Edit? || e.StopWaiting?
    ensures Handled(w, e, Step(w, e))
  {
    hide Save;
  }

  lemma RestoreHandled(w: World)
    ensures Handled(w, Restore, Step(w, Restore))
  {
  }

  lemma OthersHandled(w: World, e: Event, w': World)
    requires e.Generate? || e.ConflictsReplied? || e.SubmitReplied? || e.PollReplied? || e.CancelReplied?
             || e.SetResult? || e.WriteToSheet? || e.Reload?
    ensures Handled(w, e, w')
  {
  }
}
