/** That the ledger client asks after one job at a time: whatever is cancelled, replaced or resumed, it
    has at most one poll timer or poll outstanding, and exactly when its poll flag is set. */
module LedgerAsks {
  import opened Options
  import opened Ledger
  import opened LedgerSheet

  ghost predicate NoPolls(inFlight: multiset<Request>) {
    forall j :: PollFor(j) !in inFlight
  }

  // One timer or one poll, for that job, and nothing else.
  ghost predicate AsksFor(w: World, jobId: string) {
    || (w.timers == multiset{jobId} && NoPolls(w.inFlight))
    || (w.timers == multiset{} && w.inFlight[PollFor(jobId)] == 1 && forall j :: j != jobId ==> PollFor(j) !in w.inFlight)
  }

  ghost predicate OneAtATime(w: World) {
    if w.pane.pollScheduled then exists jobId :: AsksFor(w, jobId)
    else w.timers == multiset{} && NoPolls(w.inFlight)
  }

  // Nothing has been asked, answered or set.
  ghost predicate SameAsks(w: World, w': World) {
    && w'.pane.pollScheduled == w.pane.pollScheduled && w'.timers == w.timers
    && forall j :: w'.inFlight[PollFor(j)] == w.inFlight[PollFor(j)]
  }

  lemma SameKeeps(w: World, w': World)
    requires SameAsks(w, w') && OneAtATime(w)
    ensures OneAtATime(w')
  {
    assert forall j :: PollFor(j) in w'.inFlight <==> PollFor(j) in w.inFlight;
    if w.pane.pollScheduled {
      var jobId :| AsksFor(w, jobId);
      assert AsksFor(w', jobId);
    }
  }

  lemma SameTwice(w: World, w': World, w'': World)
    requires SameAsks(w, w') && SameAsks(w', w'')
    ensures SameAsks(w, w'')
  {
  }

  lemma SameIsSame(w: World)
    ensures SameAsks(w, w)
  {
  }

  lemma PollKeeps(w: World, jobId: string)
    requires OneAtATime(w)
    ensures OneAtATime(PollJob(w, jobId))
  {
    var w' := PollJob(w, jobId);
    if w' != w {
      assert AsksFor(w', jobId);
    }
  }

  lemma FinishSame(w: World, source: string, job: Job, saved: bool)
    ensures SameAsks(w, FinishJob(w, source, job, saved))
  {
  }

  lemma CancelSame(w: World, resume: Resume, saved: bool)
    ensures SameAsks(w, StartCancel(w, resume, saved))
  {
    hide FinishJob;
    var p := w.pane;
    FinishSame(w.(pane := p.(cancelRequested := true, preparing := false),
                  history := w.history.(dropped := w.history.dropped + {p.jobId})),
               p.jobId, Job(Cancelled, None), saved);
  }

  lemma GoOnKeeps(w: World, resume: Resume, saved: bool)
    requires OneAtATime(w)
    ensures OneAtATime(CancelOrPoll(w, resume, saved))
  {
    hide StartCancel, PollJob, OneAtATime, SameAsks;
    CancelSame(w, resume, saved);
    SameKeeps(w, StartCancel(w, resume, saved));
    PollKeeps(w, w.pane.jobId);
  }

  lemma AnswerKeeps(w: World, source: string, job: Job, resume: Resume, saved: bool)
    requires OneAtATime(w)
    ensures OneAtATime(CancelOrPoll(FinishJob(w, source, job, saved), resume, saved))
  {
    hide FinishJob, CancelOrPoll, OneAtATime, SameAsks;
    FinishSame(w, source, job, saved);
    SameKeeps(w, FinishJob(w, source, job, saved));
    GoOnKeeps(FinishJob(w, source, job, saved), resume, saved);
  }

  lemma BeginSame(w: World, jobId: string, saved: bool)
    ensures SameAsks(w, BeginSubmit(w, jobId, saved))
  {
  }

  lemma GenerateKeeps(w: World, id: string, headersChosen: bool, saved: bool)
    requires OneAtATime(w)
    ensures OneAtATime(StartGenerate(w, id, headersChosen, saved))
  {
    hide BeginSubmit, PollJob, OneAtATime;
    var p := w.pane;
    if p.jobId != "" && p.paused {
      var w0 := w.(pane := p.(paused := false, pollErrors := 0));
      SameKeeps(w, w0);
      PollKeeps(w0, p.jobId);
    } else {
      var jobId := if p.pending.None? then id else p.pending.value;
      var p' := p.(clientJobId := jobId, jobId := jobId, status := Running, preparing := p.pending.None?,
                   cancelRequested := false, paused := false, pollErrors := 0, busy := true);
      BeginSame(w.(pane := p', history := w.history.(names := w.history.names + {jobId})), jobId, saved);
      SameKeeps(w, StartGenerate(w, id, headersChosen, saved));
    }
  }

  lemma PrepareSame(w: World, jobId: string, reply: ConflictsReply, saved: bool)
    ensures SameAsks(w, FinishPrepare(w, jobId, reply, saved))
  {
    hide BeginSubmit;
    BeginSame(w, jobId, saved);
  }

  lemma PersistSame(w: World, saved: bool)
    ensures SameAsks(w, Persist(w, saved)) && Persist(w, saved).pane == w.pane
  {
  }

  lemma SubmitReplyKeeps(w: World, id: string, reply: SubmitReply, saved: bool)
    requires OneAtATime(w)
    ensures OneAtATime(FinishSubmit(w, id, reply, saved))
  {
    hide FinishJob, CancelOrPoll, PollJob, OneAtATime, Persist;
    var w1 := w.(pane := w.pane.(submissionPending := false, status := Running, busy := true));
    SameKeeps(w, w1);
    PersistSame(w1, saved);
    SameKeeps(w1, Persist(w1, saved));
    PollKeeps(Persist(w1, saved), w1.pane.jobId);
    match reply {
      case Submitted(id', job) =>
        var w2 := w.(pane := w.pane.(submissionPending := false, jobId := id', pending := None),
                     history := w.history.(names := w.history.names + {id'}));
        SameKeeps(w, w2);
        AnswerKeeps(w2, id', job, ThenCurrent, saved);
      case SubmitError(_) =>
        var w2 := w.(pane := w.pane.(submissionPending := false, pending := None, jobId := "", status := Failed,
                                     busy := false),
                     history := w.history.(outcomes := w.history.outcomes + [w.pane.jobId]));
        SameKeeps(w, w2);
        PersistSame(w2, saved);
        SameKeeps(w2, Persist(w2, saved));
    }
  }

  lemma FireKeeps(w: World, jobId: string)
    requires OneAtATime(w) && jobId in w.timers
    ensures OneAtATime(Fire(w, jobId))
  {
    var asked :| AsksFor(w, asked);
    assert jobId == asked && w.timers - multiset{jobId} == multiset{};
    if !(w.pane.jobId != jobId || !w.pane.busy || w.pane.paused) {
      assert AsksFor(Fire(w, jobId), jobId);
    }
  }

  // The poll answered was the one outstanding.
  lemma TakenPoll(w: World, jobId: string)
    requires OneAtATime(w) && PollFor(jobId) in w.inFlight
    ensures var w' := Taken(w, PollFor(jobId)); OneAtATime(w'.(pane := w'.pane.(pollScheduled := false)))
  {
    var asked :| AsksFor(w, asked);
    assert jobId == asked;
  }

  lemma FailKeeps(w: World, gone: bool, saved: bool)
    requires OneAtATime(w)
    ensures OneAtATime(FailPoll(w, gone, saved))
  {
    hide PollJob, OneAtATime, Persist;
    var lost, counted := LoseJob(w), w.(pane := w.pane.(pollErrors := w.pane.pollErrors + 1));
    SameKeeps(w, lost);
    PersistSame(lost, saved);
    SameKeeps(lost, Persist(lost, saved));
    SameKeeps(w, counted);
    PollKeeps(counted, w.pane.jobId);
    var paused := counted.(pane := counted.pane.(paused := true));
    SameKeeps(counted, paused);
    PersistSame(paused, saved);
    SameKeeps(paused, Persist(paused, saved));
  }

  lemma PollReplyKeeps(w: World, id: string, reply: PollReply, saved: bool)
    requires OneAtATime(w.(pane := w.pane.(pollScheduled := false)))
    ensures OneAtATime(FinishPoll(w, id, reply, saved))
  {
    hide FailPoll, FinishJob, CancelOrPoll, OneAtATime;
    var w' := w.(pane := w.pane.(pollScheduled := false));
    match reply {
      case Polled(job) =>
        var w'' := w'.(pane := w'.pane.(pending := None, submissionPending := false, pollErrors := 0));
        SameKeeps(w', w'');
        AnswerKeeps(w'', w.pane.jobId, job, ThenJob(w.pane.jobId), saved);
      case PollError(gone) => FailKeeps(w', gone, saved);
    }
  }

  lemma CancelReplyKeeps(w: World, id: string, resume: Resume, reply: CancelReply, saved: bool)
    requires OneAtATime(w)
    ensures OneAtATime(FinishCancel(w, id, resume, reply, saved))
  {
    hide AnswerCancel, PollJob, OneAtATime;
    var w' := AnswerCancel(w, id, reply, saved);
    AnswerCancelKeeps(w, id, reply, saved);
    PollKeeps(w', w'.pane.jobId);
    if resume.ThenJob? {
      PollKeeps(w', resume.job);
    }
  }

  lemma AnswerCancelKeeps(w: World, id: string, reply: CancelReply, saved: bool)
    requires OneAtATime(w)
    ensures OneAtATime(AnswerCancel(w, id, reply, saved))
  {
    hide FinishJob, PollJob, OneAtATime;
    SameKeeps(w, LoseJob(w));
    if reply.CancelAnswered? {
      var w' := FinishJob(w, id, reply.job, saved);
      FinishSame(w, id, reply.job, saved);
      SameKeeps(w, w');
      PollKeeps(w', w'.pane.jobId);
    }
  }

  lemma StartMaterialsSame(w: World)
    ensures SameAsks(w, StartMaterials(w))
  {
  }

  lemma EndMaterialsSame(w: World, failed: bool, saved: bool)
    ensures SameAsks(w, EndMaterials(w, failed, saved))
  {
    hide Persist;
    PersistSame(w.(pane := w.pane.(busy := false)), saved);
  }

  lemma EndCheckSame(w: World, failed: bool)
    ensures SameAsks(w, EndCheck(w, failed))
  {
  }

  lemma MaterialsSame(w: World, e: Event)
    requires e.MaterialsStarted? || e.MaterialsEnded? || e.MaterialsChecked?
    ensures SameAsks(w, Step(w, e))
  {
    hide StartMaterials, EndMaterials, EndCheck, SameAsks;
    SameIsSame(w);
    match e {
      case MaterialsStarted => StartMaterialsSame(w);
      case MaterialsEnded(failed, saved) =>
        var w' := Taken(w, MaterialsChange);
        TakenSame(w, MaterialsChange);
        EndMaterialsSame(w', failed, saved);
        SameTwice(w, w', EndMaterials(w', failed, saved));
      case MaterialsChecked(failed) =>
        var w' := Taken(w, MaterialsCheck);
        TakenSame(w, MaterialsCheck);
        EndCheckSame(w', failed);
        SameTwice(w, w', EndCheck(w', failed));
    }
  }

  lemma InspectSame(w: World, blank: bool)
    ensures SameAsks(w, Inspect(w, blank))
  {
    hide HasRows;
  }

  lemma PauseSame(w: World, saved: bool)
    ensures SameAsks(w, Pause(w, saved))
  {
  }

  lemma HeadersSame(w: World, shown: bool, saved: bool)
    ensures SameAsks(w, SetHeaders(w, shown, saved))
  {
    hide Save;
  }

  lemma QuietSame(w: World, e: Event)
    requires e.StopWaiting? || e.Edit? || e.MaterialsStarted? || e.MaterialsEnded? || e.MaterialsChecked?
             || e.SetIncludeHeaders? || e.InspectTarget?
    ensures SameAsks(w, Step(w, e))
  {
    hide Pause, SetHeaders, Inspect, Persist, SameAsks;
    match e {
      case StopWaiting(saved) => PauseSame(w, saved);
      case SetIncludeHeaders(shown, saved) => HeadersSame(w, shown, saved);
      case MaterialsStarted => MaterialsSame(w, e);
      case MaterialsEnded(_, _) => MaterialsSame(w, e);
      case MaterialsChecked(_) => MaterialsSame(w, e);
      case InspectTarget(blank) => InspectSame(w, blank);
      case Edit(saved) => PersistSame(w, saved);
    }
  }

  lemma CallKeeps(w: World, savedBefore: bool, sheet: SheetCall, savedAfter: bool, w': World)
    requires OneAtATime(w) && Called(w, savedBefore, sheet, savedAfter, w')
    requires MayCall(w.pane) && savedBefore && sheet.Died? ==> !w'.pane.pollScheduled
    ensures OneAtATime(w')
  {
    hide OneAtATime, Save;
    if MayCall(w.pane) && savedBefore && sheet.Died? {
      NothingAsked(w');
    } else {
      SameKeeps(w, w');
    }
  }

  lemma NothingAsked(w: World)
    requires !w.pane.pollScheduled && w.timers == multiset{} && w.inFlight == multiset{}
    ensures OneAtATime(w)
  {
  }

  lemma DeathResets(w: World, wrote: bool, savedAfter: bool)
    requires MayCall(w.pane)
    ensures !Step(w, WriteToSheet(true, Died(wrote), savedAfter)).pane.pollScheduled
  {
  }

  lemma WriteKeeps(w: World, savedBefore: bool, sheet: SheetCall, savedAfter: bool)
    requires OneAtATime(w)
    ensures OneAtATime(Step(w, WriteToSheet(savedBefore, sheet, savedAfter)))
  {
    CallShows(w, savedBefore, sheet, savedAfter);
    if MayCall(w.pane) && savedBefore && sheet.Died? {
      DeathResets(w, sheet.wrote, savedAfter);
    }
    hide Step, OneAtATime, Called, MayCall;
    CallKeeps(w, savedBefore, sheet, savedAfter, Step(w, WriteToSheet(savedBefore, sheet, savedAfter)));
  }

  lemma TakenSame(w: World, r: Request)
    requires !r.PollFor?
    ensures SameAsks(w, Taken(w, r))
  {
  }

  lemma RepliesKeep(w: World, e: Event)
    requires OneAtATime(w) && (e.ConflictsReplied? || e.SubmitReplied? || e.PollReplied? || e.CancelReplied?)
    ensures OneAtATime(Step(w, e))
  {
    hide FinishPrepare, FinishSubmit, FinishPoll, FinishCancel, OneAtATime, SameAsks;
    match e {
      case ConflictsReplied(id, reply, saved) =>
        var w' := Taken(w, PrepareFor(id));
        TakenSame(w, PrepareFor(id));
        SameKeeps(w, w');
        PrepareSame(w', id, reply, saved);
        SameKeeps(w', FinishPrepare(w', id, reply, saved));
      case SubmitReplied(id, reply, saved) =>
        TakenSame(w, SubmitFor(id));
        SameKeeps(w, Taken(w, SubmitFor(id)));
        SubmitReplyKeeps(Taken(w, SubmitFor(id)), id, reply, saved);
      case PollReplied(id, reply, saved) =>
        if PollFor(id) in w.inFlight {
          TakenPoll(w, id);
          PollReplyKeeps(Taken(w, PollFor(id)), id, reply, saved);
        }
      case CancelReplied(id, resume, reply, saved) =>
        TakenSame(w, CancelFor(id, resume));
        SameKeeps(w, Taken(w, CancelFor(id, resume)));
        CancelReplyKeeps(Taken(w, CancelFor(id, resume)), id, resume, reply, saved);
    }
  }

  lemma ReloadKeeps(w: World)
    ensures OneAtATime(Step(w, Reload))
  {
  }

  lemma OneAtATimeKept(w: World, e: Event)
    requires OneAtATime(w)
    ensures OneAtATime(Step(w, e))
  {
    hide StartGenerate, StartCancel, FinishJob, PollJob, Fire, OneAtATime, SameAsks;
    match e {
      case Generate(id, headersChosen, saved) => GenerateKeeps(w, id, headersChosen, saved);
      case TimerFired(id) => if id in w.timers { FireKeeps(w, id); }
      case Cancel(saved) =>
        CancelSame(w, Alone, saved);
        SameKeeps(w, StartCancel(w, Alone, saved));
      case SetResult(rows, saved) =>
        FinishSame(w, "", Job(Completed, rows), saved);
        SameKeeps(w, FinishJob(w, "", Job(Completed, rows), saved));
      case Restore => PollKeeps(w, w.pane.jobId);
      case WriteToSheet(savedBefore, sheet, savedAfter) =>
        hide Step;
        WriteKeeps(w, savedBefore, sheet, savedAfter);
      case Reload =>
        hide Step;
        ReloadKeeps(w);
      case ConflictsReplied(_, _, _) =>
        hide Step;
        RepliesKeep(w, e);
      case SubmitReplied(_, _, _) =>
        hide Step;
        RepliesKeep(w, e);
      case PollReplied(_, _, _) =>
        hide Step;
        RepliesKeep(w, e);
      case CancelReplied(_, _, _, _) =>
        hide Step;
        RepliesKeep(w, e);
      case _ =>
        hide Step;
        QuietSame(w, e);
        SameKeeps(w, Step(w, e));
    }
  }

  // Over every run, reloads, deaths and lost saves included.
  lemma {:induction false} OneAtATimeAlways(es: seq<Event>)
    ensures OneAtATime(Run(Fresh, es))
    decreases |es|
  {
    hide Step;
    if es == [] {
      NothingAsked(Fresh);
    } else {
      OneAtATimeAlways(es[..|es| - 1]);
      hide OneAtATime;
      OneAtATimeKept(Run(Fresh, es[..|es| - 1]), es[|es| - 1]);
    }
  }

  // ---- nothing is asked but for the job the pane holds

  // The request is one the pane has cause to make, of the job it holds as it stands.
  predicate IsDue(p: Pane, r: Request) {
    match r
    case PrepareFor(id) => id == p.jobId && p.preparing && p.busy
    case SubmitFor(id) => id == p.jobId && p.submissionPending && p.busy && p.pending == Some(id)
    case PollFor(id) => id == p.jobId && p.busy && !p.paused
    case CancelFor(id, _) => id == p.jobId && p.cancelRequested && !p.preparing
    case MaterialsChange => p.busy
    case MaterialsCheck => true
  }

  // Whatever is new among the requests and timers is due.
  ghost predicate OnlyDue(inFlight: multiset<Request>, timers: multiset<string>, w': World) {
    && (forall r :: w'.inFlight[r] > inFlight[r] ==> IsDue(w'.pane, r))
    && (forall j :: w'.timers[j] > timers[j] ==> IsDue(w'.pane, PollFor(j)))
  }

  ghost predicate NoneNew(inFlight: multiset<Request>, timers: multiset<string>, w: World) {
    w.inFlight <= inFlight && w.timers <= timers
  }

  lemma NothingNew(inFlight: multiset<Request>, timers: multiset<string>, w: World)
    requires NoneNew(inFlight, timers, w)
    ensures OnlyDue(inFlight, timers, w)
  {
    hide IsDue;
  }

  lemma PollDue(inFlight: multiset<Request>, timers: multiset<string>, w: World, jobId: string)
    requires OnlyDue(inFlight, timers, w)
    ensures OnlyDue(inFlight, timers, PollJob(w, jobId))
  {
  }

  lemma FinishLeaves(w: World, source: string, job: Job, saved: bool)
    ensures var w' := FinishJob(w, source, job, saved); w'.inFlight == w.inFlight && w'.timers == w.timers
  {
  }

  lemma CancelDue(inFlight: multiset<Request>, timers: multiset<string>, w: World, resume: Resume, saved: bool)
    requires NoneNew(inFlight, timers, w)
    ensures OnlyDue(inFlight, timers, StartCancel(w, resume, saved))
  {
    hide FinishJob;
    var p := w.pane;
    var w' := w.(pane := p.(cancelRequested := true, preparing := false),
                 history := w.history.(dropped := w.history.dropped + {p.jobId}));
    FinishLeaves(w', p.jobId, Job(Cancelled, None), saved);
    NothingNew(inFlight, timers, FinishJob(w', p.jobId, Job(Cancelled, None), saved));
  }

  lemma AnswerDue(inFlight: multiset<Request>, timers: multiset<string>, w: World, source: string, job: Job,
                  resume: Resume, saved: bool)
    requires NoneNew(inFlight, timers, w)
    ensures OnlyDue(inFlight, timers, CancelOrPoll(FinishJob(w, source, job, saved), resume, saved))
  {
    hide FinishJob, StartCancel, PollJob, OnlyDue;
    var w' := FinishJob(w, source, job, saved);
    FinishLeaves(w, source, job, saved);
    NothingNew(inFlight, timers, w');
    CancelDue(inFlight, timers, w', resume, saved);
    PollDue(inFlight, timers, w', w'.pane.jobId);
  }

  lemma BeginDue(inFlight: multiset<Request>, timers: multiset<string>, w: World, jobId: string, saved: bool)
    requires NoneNew(inFlight, timers, w)
    ensures OnlyDue(inFlight, timers, BeginSubmit(w, jobId, saved))
  {
  }

  lemma GenerateDue(w: World, id: string, headersChosen: bool, saved: bool)
    ensures OnlyDue(w.inFlight, w.timers, StartGenerate(w, id, headersChosen, saved))
  {
    hide BeginSubmit, PollJob;
    var p := w.pane;
    var w0 := w.(pane := p.(paused := false, pollErrors := 0));
    NothingNew(w.inFlight, w.timers, w0);
    PollDue(w.inFlight, w.timers, w0, p.jobId);
    var jobId := if p.pending.None? then id else p.pending.value;
    var p' := p.(clientJobId := jobId, jobId := jobId, status := Running, preparing := p.pending.None?,
                 cancelRequested := false, paused := false, pollErrors := 0, busy := true);
    BeginDue(w.inFlight, w.timers, w.(pane := p', history := w.history.(names := w.history.names + {jobId})), jobId, saved);
  }

  lemma PrepareDue(inFlight: multiset<Request>, timers: multiset<string>, w: World, jobId: string,
                   reply: ConflictsReply, saved: bool)
    requires NoneNew(inFlight, timers, w)
    ensures OnlyDue(inFlight, timers, FinishPrepare(w, jobId, reply, saved))
  {
    hide BeginSubmit;
    BeginDue(inFlight, timers, w, jobId, saved);
  }

  lemma PersistLeaves(w: World, saved: bool)
    ensures Persist(w, saved).inFlight == w.inFlight && Persist(w, saved).timers == w.timers
  {
  }

  lemma SubmitReplyDue(inFlight: multiset<Request>, timers: multiset<string>, w: World, id: string,
                       reply: SubmitReply, saved: bool)
    requires NoneNew(inFlight, timers, w)
    ensures OnlyDue(inFlight, timers, FinishSubmit(w, id, reply, saved))
  {
    hide FinishJob, CancelOrPoll, PollJob, OnlyDue, Persist;
    NothingNew(inFlight, timers, w);
    var w1 := w.(pane := w.pane.(submissionPending := false, status := Running, busy := true));
    PersistLeaves(w1, saved);
    NothingNew(inFlight, timers, Persist(w1, saved));
    PollDue(inFlight, timers, Persist(w1, saved), w1.pane.jobId);
    match reply {
      case Submitted(id', job) =>
        AnswerDue(inFlight, timers,
                  w.(pane := w.pane.(submissionPending := false, jobId := id', pending := None),
                     history := w.history.(names := w.history.names + {id'})), id', job, ThenCurrent, saved);
      case SubmitError(_) =>
        var w2 := w.(pane := w.pane.(submissionPending := false, pending := None, jobId := "", status := Failed,
                                     busy := false),
                     history := w.history.(outcomes := w.history.outcomes + [w.pane.jobId]));
        PersistLeaves(w2, saved);
        NothingNew(inFlight, timers, Persist(w2, saved));
    }
  }

  lemma FailDue(inFlight: multiset<Request>, timers: multiset<string>, w: World, gone: bool, saved: bool)
    requires NoneNew(inFlight, timers, w)
    ensures OnlyDue(inFlight, timers, FailPoll(w, gone, saved))
  {
    hide PollJob, OnlyDue, Persist;
    var counted := w.(pane := w.pane.(pollErrors := w.pane.pollErrors + 1));
    var paused := counted.(pane := counted.pane.(paused := true));
    NothingNew(inFlight, timers, w);
    PersistLeaves(LoseJob(w), saved);
    NothingNew(inFlight, timers, Persist(LoseJob(w), saved));
    NothingNew(inFlight, timers, counted);
    PollDue(inFlight, timers, counted, w.pane.jobId);
    PersistLeaves(paused, saved);
    NothingNew(inFlight, timers, Persist(paused, saved));
  }

  lemma PollReplyDue(inFlight: multiset<Request>, timers: multiset<string>, w: World, id: string, reply: PollReply,
                     saved: bool)
    requires NoneNew(inFlight, timers, w)
    ensures OnlyDue(inFlight, timers, FinishPoll(w, id, reply, saved))
  {
    hide FailPoll, FinishJob, CancelOrPoll, OnlyDue;
    var w' := w.(pane := w.pane.(pollScheduled := false));
    NothingNew(inFlight, timers, w');
    match reply {
      case Polled(job) =>
        var w'' := w'.(pane := w'.pane.(pending := None, submissionPending := false, pollErrors := 0));
        NothingNew(inFlight, timers, w'');
        AnswerDue(inFlight, timers, w'', w.pane.jobId, job, ThenJob(w.pane.jobId), saved);
      case PollError(gone) => FailDue(inFlight, timers, w', gone, saved);
    }
  }

  lemma CancelReplyDue(inFlight: multiset<Request>, timers: multiset<string>, w: World, id: string, resume: Resume,
                       reply: CancelReply, saved: bool)
    requires NoneNew(inFlight, timers, w)
    ensures OnlyDue(inFlight, timers, FinishCancel(w, id, resume, reply, saved))
  {
    hide AnswerCancel, PollJob, OnlyDue;
    var w' := AnswerCancel(w, id, reply, saved);
    AnswerCancelDue(inFlight, timers, w, id, reply, saved);
    PollDue(inFlight, timers, w', w'.pane.jobId);
    if resume.ThenJob? {
      PollDue(inFlight, timers, w', resume.job);
    }
  }

  lemma AnswerCancelDue(inFlight: multiset<Request>, timers: multiset<string>, w: World, id: string,
                        reply: CancelReply, saved: bool)
    requires NoneNew(inFlight, timers, w)
    ensures OnlyDue(inFlight, timers, AnswerCancel(w, id, reply, saved))
  {
    hide FinishJob, PollJob, OnlyDue;
    NothingNew(inFlight, timers, w);
    NothingNew(inFlight, timers, LoseJob(w));
    if reply.CancelAnswered? {
      var w' := FinishJob(w, id, reply.job, saved);
      FinishLeaves(w, id, reply.job, saved);
      NothingNew(inFlight, timers, w');
      PollDue(inFlight, timers, w', w'.pane.jobId);
    }
  }

  lemma FireDue(w: World, id: string)
    ensures OnlyDue(w.inFlight, w.timers, Fire(w, id))
  {
  }

  lemma StartMaterialsDue(w: World)
    ensures OnlyDue(w.inFlight, w.timers, StartMaterials(w))
  {
  }

  lemma EndMaterialsDue(inFlight: multiset<Request>, timers: multiset<string>, w: World, failed: bool, saved: bool)
    requires NoneNew(inFlight, timers, w)
    ensures OnlyDue(inFlight, timers, EndMaterials(w, failed, saved))
  {
    hide Persist;
    PersistLeaves(w.(pane := w.pane.(busy := false)), saved);
  }

  lemma EndCheckDue(inFlight: multiset<Request>, timers: multiset<string>, w: World, failed: bool)
    requires NoneNew(inFlight, timers, w)
    ensures OnlyDue(inFlight, timers, EndCheck(w, failed))
  {
  }

  lemma MaterialsDue(w: World, e: Event)
    requires e.MaterialsStarted? || e.MaterialsEnded? || e.MaterialsChecked?
    ensures OnlyDue(w.inFlight, w.timers, Step(w, e))
  {
    hide StartMaterials, EndMaterials, EndCheck, OnlyDue, NoneNew;
    assert NoneNew(w.inFlight, w.timers, w) by { ItselfLeaves(w); }
    NothingNew(w.inFlight, w.timers, w);
    match e {
      case MaterialsStarted => StartMaterialsDue(w);
      case MaterialsEnded(failed, saved) =>
        TakenLeaves(w, MaterialsChange);
        EndMaterialsDue(w.inFlight, w.timers, Taken(w, MaterialsChange), failed, saved);
      case MaterialsChecked(failed) =>
        TakenLeaves(w, MaterialsCheck);
        EndCheckDue(w.inFlight, w.timers, Taken(w, MaterialsCheck), failed);
    }
  }

  lemma TakenLeaves(w: World, r: Request)
    ensures NoneNew(w.inFlight, w.timers, Taken(w, r))
  {
  }

  lemma EditLeaves(w: World, e: Event)
    requires e.StopWaiting? || e.Edit? || e.SetIncludeHeaders? || e.InspectTarget? || e.Reload?
    ensures NoneNew(w.inFlight, w.timers, Step(w, e))
  {
    hide Save, HasRows, Load;
  }

  lemma CallLeaves(w: World, savedBefore: bool, sheet: SheetCall, savedAfter: bool, w': World)
    requires Called(w, savedBefore, sheet, savedAfter, w')
    ensures NoneNew(w.inFlight, w.timers, w')
  {
    hide Save, MayCall;
  }

  lemma RepliesDue(w: World, e: Event)
    requires e.ConflictsReplied? || e.SubmitReplied? || e.PollReplied? || e.CancelReplied?
    ensures OnlyDue(w.inFlight, w.timers, Step(w, e))
  {
    hide FinishPrepare, FinishSubmit, FinishPoll, FinishCancel, OnlyDue, NoneNew;
    assert NoneNew(w.inFlight, w.timers, w) by { ItselfLeaves(w); }
    NothingNew(w.inFlight, w.timers, w);
    match e {
      case ConflictsReplied(id, reply, saved) =>
        TakenLeaves(w, PrepareFor(id));
        PrepareDue(w.inFlight, w.timers, Taken(w, PrepareFor(id)), id, reply, saved);
      case SubmitReplied(id, reply, saved) =>
        TakenLeaves(w, SubmitFor(id));
        SubmitReplyDue(w.inFlight, w.timers, Taken(w, SubmitFor(id)), id, reply, saved);
      case PollReplied(id, reply, saved) =>
        TakenLeaves(w, PollFor(id));
        PollReplyDue(w.inFlight, w.timers, Taken(w, PollFor(id)), id, reply, saved);
      case CancelReplied(id, resume, reply, saved) =>
        TakenLeaves(w, CancelFor(id, resume));
        CancelReplyDue(w.inFlight, w.timers, Taken(w, CancelFor(id, resume)), id, resume, reply, saved);
    }
  }

  // Whatever happens, a request or timer the pane adds is due: it prepares, submits, polls and cancels
  // only the job it holds, and polls it only while it waits for it.
  lemma EventDue(w: World, e: Event)
    ensures OnlyDue(w.inFlight, w.timers, Step(w, e))
  {
    hide StartGenerate, StartCancel, FinishJob, PollJob, Fire, OnlyDue, NoneNew;
    assert NoneNew(w.inFlight, w.timers, w) by { ItselfLeaves(w); }
    NothingNew(w.inFlight, w.timers, w);
    match e {
      case Generate(id, headersChosen, saved) => GenerateDue(w, id, headersChosen, saved);
      case TimerFired(id) => FireDue(w, id);
      case Cancel(saved) => CancelDue(w.inFlight, w.timers, w, Alone, saved);
      case SetResult(rows, saved) => SetDue(w, rows, saved);
      case Restore => PollDue(w.inFlight, w.timers, w, w.pane.jobId);
      case WriteToSheet(savedBefore, sheet, savedAfter) =>
        CallShows(w, savedBefore, sheet, savedAfter);
        hide Step, Called;
        CallLeaves(w, savedBefore, sheet, savedAfter, Step(w, e));
        NothingNew(w.inFlight, w.timers, Step(w, e));
      case ConflictsReplied(_, _, _) =>
        hide Step;
        RepliesDue(w, e);
      case SubmitReplied(_, _, _) =>
        hide Step;
        RepliesDue(w, e);
      case PollReplied(_, _, _) =>
        hide Step;
        RepliesDue(w, e);
      case CancelReplied(_, _, _, _) =>
        hide Step;
        RepliesDue(w, e);
      case MaterialsStarted => MaterialsDue(w, e);
      case MaterialsEnded(_, _) => MaterialsDue(w, e);
      case MaterialsChecked(_) => MaterialsDue(w, e);
      case _ =>
        hide Step;
        EditLeaves(w, e);
        NothingNew(w.inFlight, w.timers, Step(w, e));
    }
  }

  lemma ItselfLeaves(w: World)
    ensures NoneNew(w.inFlight, w.timers, w)
  {
  }

  lemma SetDue(w: World, rows: Option<nat>, saved: bool)
    ensures OnlyDue(w.inFlight, w.timers, FinishJob(w, "", Job(Completed, rows), saved))
  {
    FinishLeaves(w, "", Job(Completed, rows), saved);
    hide FinishJob;
    NothingNew(w.inFlight, w.timers, FinishJob(w, "", Job(Completed, rows), saved));
  }
}
