/** What the ledger client keeps of each job, however replies, timers and reloads are ordered: a job's
    outcome is applied once, its result is written once, and a job cancelled while it was preparing
    is never submitted. */
module LedgerJobs {
  import opened Options
  import opened Ledger

  // Ids are not reused: the client draws a new one for each job, and the server answers a submit
  // under the client's id or under one nobody has used.
  predicate FreshIds(h: History, e: Event) {
    match e
    case Generate(id, _, _) => id != "" && id !in h.names
    case SubmitReplied(id, Submitted(id', _), _) => id' == "" || id' == id || id' !in h.names
    case _ => true
  }

  predicate FreshRun(w: World, es: seq<Event>)
    decreases |es|
  {
    es == [] || (FreshRun(w, es[..|es| - 1]) && FreshIds(Run(w, es[..|es| - 1]).history, es[|es| - 1]))
  }

  ghost predicate WrittenJob(writes: seq<Table>, job: string) {
    exists i :: 0 <= i < |writes| && writes[i].job == job
  }

  ghost predicate OncePerJob(writes: seq<Table>) {
    forall i, j :: 0 <= i < j < |writes| && writes[i].job == writes[j].job ==> writes[i].job == ""
  }

  ghost predicate Distinct(s: seq<string>) {
    forall i, j :: 0 <= i < j < |s| ==> s[i] != s[j]
  }

  // ---- the invariant, part by part

  // The run's own record is consistent.
  ghost predicate HistoryOk(h: History) {
    && "" !in h.names && h.submitted <= h.names && h.dropped <= h.names && h.dropped !! h.submitted
    && (forall j :: j in h.outcomes ==> j in h.names) && Distinct(h.outcomes)
    && (forall i :: 0 <= i < |h.writes| ==> h.writes[i].job == "" || h.writes[i].job in h.names)
    && OncePerJob(h.writes)
  }

  // A job id held in the pane or in storage: it is live, unwritten, and pending only as itself.
  ghost predicate HeldOk(h: History, jobId: string, status: Status, pending: Option<string>) {
    && (jobId != "" ==> IsLive(status) && jobId in h.names && !WrittenJob(h.writes, jobId))
    && (pending.Some? ==> pending.value == jobId && jobId in h.submitted)
  }

  ghost predicate ResultOk(h: History, result: Option<Table>, locked: bool) {
    result.Some? && result.value.job != "" ==>
      result.value.job in h.names && (WrittenJob(h.writes, result.value.job) ==> locked)
  }

  ghost predicate StoreOk(h: History, store: Option<Saved>) {
    store.Some? ==>
      && HeldOk(h, store.value.jobId, store.value.status, store.value.pending)
      && ResultOk(h, store.value.result, SavedLocked(store.value))
  }

  ghost predicate PaneOk(h: History, p: Pane) {
    && HeldOk(h, p.jobId, p.status, p.pending) && ResultOk(h, p.result, Locked(p))
    && p.jobId !in h.outcomes
    && (p.preparing ==> p.jobId !in h.submitted)
  }

  ghost predicate QueueOk(h: History, p: Pane, inFlight: multiset<Request>, timers: multiset<string>) {
    && "" !in timers
    && PrepareFor("") !in inFlight && SubmitFor("") !in inFlight && PollFor("") !in inFlight
    && (forall resume :: CancelFor("", resume) !in inFlight)
    && (PrepareFor(p.jobId) in inFlight ==> p.jobId !in h.dropped)
    && (forall j :: PrepareFor(j) in inFlight ==>
          inFlight[PrepareFor(j)] == 1 && j in h.names && j !in h.submitted)
    && (forall j :: SubmitFor(j) in inFlight ==> j in h.submitted)
  }

  ghost predicate JobInv(w: World) {
    && HistoryOk(w.history) && PaneOk(w.history, w.pane) && StoreOk(w.history, w.store)
    && QueueOk(w.history, w.pane, w.inFlight, w.timers)
  }

  // ---- pieces of the handlers

  lemma PersistKeeps(w: World, saved: bool)
    requires JobInv(w)
    ensures JobInv(Persist(w, saved))
  {
    hide HeldOk, HistoryOk, QueueOk;
  }

  lemma PollJobKeeps(w: World, jobId: string)
    requires JobInv(w)
    ensures JobInv(PollJob(w, jobId))
  {
    hide HeldOk, HistoryOk, StoreOk;
  }

  lemma SettledKeeps(w: World)
    requires JobInv(w) && "" !in w.history.outcomes
    ensures JobInv(w.(pane := Settled(w.pane)))
  {
    hide HistoryOk, StoreOk, WrittenJob;
  }

  lemma NoEmptyOutcome(h: History)
    requires HistoryOk(h)
    ensures "" !in h.outcomes
  {
  }

  lemma OutcomeKeeps(h: History, job: string)
    requires HistoryOk(h) && job in h.names && job !in h.outcomes
    ensures HistoryOk(h.(outcomes := h.outcomes + [job]))
  {
    hide OncePerJob;
    var h' := h.(outcomes := h.outcomes + [job]);
    assert forall j :: j in h'.outcomes <==> j in h.outcomes || j == job;
  }

  // The job's answer is noted: its id must be the one the pane holds, or none.
  ghost predicate IsSource(w: World, source: string) {
    source == "" || source == w.pane.jobId
  }

  lemma FinishLiveKeeps(w: World, source: string, job: Job, saved: bool)
    requires JobInv(w) && IsSource(w, source) && IsLive(job.status)
    ensures JobInv(FinishJob(w, source, job, saved))
  {
    hide HistoryOk;
    var h := w.history;
    assert h.(accepted := h.accepted, outcomes := h.outcomes) == h;
  }

  lemma FinishDoneKeeps(w: World, source: string, job: Job, saved: bool)
    requires JobInv(w) && IsSource(w, source) && !IsLive(job.status)
    ensures JobInv(FinishJob(w, source, job, saved))
  {
    NoEmptyOutcome(w.history);
    if source != "" {
      OutcomeKeeps(w.history, source);
    }
    hide OncePerJob, Distinct, WrittenJob;
  }

  lemma FinishJobKeeps(w: World, source: string, job: Job, saved: bool)
    requires JobInv(w) && IsSource(w, source)
    ensures JobInv(FinishJob(w, source, job, saved))
  {
    hide FinishJob, JobInv;
    if IsLive(job.status) {
      FinishLiveKeeps(w, source, job, saved);
    } else {
      FinishDoneKeeps(w, source, job, saved);
    }
  }

  function Dropped(w: World, job: string): World {
    w.(history := w.history.(dropped := w.history.dropped + {job}))
  }

  // Cancelling a job that is still preparing settles it and leaves it unsubmitted.
  lemma DropIsFinish(w: World, resume: Resume, saved: bool)
    requires w.pane.preparing && w.pane.jobId != ""
    ensures StartCancel(w, resume, saved) == Dropped(FinishJob(w, w.pane.jobId, Job(Cancelled, None), saved), w.pane.jobId)
  {
  }

  lemma DropKeeps(w: World, job: string)
    requires JobInv(w) && w.pane.jobId == "" && job in w.history.names && job !in w.history.submitted
    ensures JobInv(Dropped(w, job))
  {
    hide OncePerJob, Distinct, WrittenJob;
  }

  lemma StartCancelKeeps(w: World, resume: Resume, saved: bool)
    requires JobInv(w)
    ensures JobInv(StartCancel(w, resume, saved))
  {
    if w.pane.jobId != "" && w.pane.preparing {
      DropIsFinish(w, resume, saved);
      FinishJobKeeps(w, w.pane.jobId, Job(Cancelled, None), saved);
      DropKeeps(FinishJob(w, w.pane.jobId, Job(Cancelled, None), saved), w.pane.jobId);
    } else {
      hide HistoryOk, HeldOk, StoreOk;
    }
  }

  lemma CancelOrPollKeeps(w: World, resume: Resume, saved: bool)
    requires JobInv(w)
    ensures JobInv(CancelOrPoll(w, resume, saved))
  {
    hide StartCancel, PollJob, JobInv;
    StartCancelKeeps(w, resume, saved);
    PollJobKeeps(w, w.pane.jobId);
  }

  lemma AnswerKeeps(w: World, source: string, job: Job, resume: Resume, saved: bool)
    requires JobInv(w) && IsSource(w, source)
    ensures JobInv(CancelOrPoll(FinishJob(w, source, job, saved), resume, saved))
  {
    hide FinishJob, CancelOrPoll, JobInv;
    FinishJobKeeps(w, source, job, saved);
    CancelOrPollKeeps(FinishJob(w, source, job, saved), resume, saved);
  }

  // ---- the handlers

  lemma BeginSubmitKeeps(w: World, jobId: string, saved: bool)
    requires JobInv(w) && jobId == w.pane.jobId && jobId != "" && jobId !in w.history.dropped
    requires PrepareFor(jobId) !in w.inFlight
    ensures JobInv(BeginSubmit(w, jobId, saved))
  {
    hide OncePerJob, Distinct, WrittenJob;
  }

  lemma NewJobKeeps(w: World, id: string)
    requires JobInv(w) && id != "" && id !in w.history.names && w.pane.pending.None?
    ensures var p := w.pane.(clientJobId := id, jobId := id, status := Running, preparing := true,
                             cancelRequested := false, paused := false, pollErrors := 0, busy := true);
            JobInv(World(p, w.store, w.inFlight + multiset{PrepareFor(id)}, w.timers,
                         w.history.(names := w.history.names + {id})))
  {
    hide OncePerJob, Distinct;
  }

  lemma ResubmitKeeps(w: World, saved: bool)
    requires JobInv(w) && w.pane.pending.Some?
    ensures var id := w.pane.pending.value;
            var p := w.pane.(clientJobId := id, jobId := id, status := Running, preparing := false,
                             cancelRequested := false, paused := false, pollErrors := 0, busy := true);
            JobInv(BeginSubmit(w.(pane := p, history := w.history.(names := w.history.names + {id})), id, saved))
  {
    var id := w.pane.pending.value;
    var p := w.pane.(clientJobId := id, jobId := id, status := Running, preparing := false,
                     cancelRequested := false, paused := false, pollErrors := 0, busy := true);
    assert w.history.names + {id} == w.history.names;
    assert w.history.(names := w.history.names + {id}) == w.history;
    BeginSubmitKeeps(w.(pane := p), id, saved);
  }

  lemma GenerateKeeps(w: World, id: string, headersChosen: bool, saved: bool)
    requires JobInv(w) && id != "" && id !in w.history.names
    ensures JobInv(StartGenerate(w, id, headersChosen, saved))
  {
    hide PollJob, BeginSubmit, JobInv;
    var p := w.pane;
    if p.jobId != "" && p.paused {
      assert JobInv(w.(pane := p.(paused := false, pollErrors := 0))) by {
        UnpausedKeeps(w);
      }
      PollJobKeeps(w.(pane := p.(paused := false, pollErrors := 0)), p.jobId);
    } else if p.pending.None? {
      NewJobKeeps(w, id);
    } else {
      ResubmitKeeps(w, saved);
    }
  }

  lemma UnpausedKeeps(w: World)
    requires JobInv(w)
    ensures JobInv(w.(pane := w.pane.(paused := false, pollErrors := 0)))
  {
  }

  // The reply taken from the queue, for a job the pane holds, is about a real job.
  lemma TakenKeeps(w: World, r: Request)
    requires JobInv(w)
    ensures JobInv(Taken(w, r))
  {
    hide HistoryOk, PaneOk, StoreOk;
  }

  lemma PrepareKeeps(w: World, jobId: string, reply: ConflictsReply, saved: bool)
    requires JobInv(w) && jobId != "" && (w.pane.jobId == jobId ==> jobId !in w.history.dropped)
    requires jobId !in w.history.submitted && PrepareFor(jobId) !in w.inFlight
    ensures JobInv(FinishPrepare(w, jobId, reply, saved))
  {
    if w.pane.jobId == jobId && reply.Clear? {
      BeginSubmitKeeps(w, jobId, saved);
    } else {
      NoEmptyOutcome(w.history);
      hide BeginSubmit, OncePerJob, Distinct, WrittenJob;
    }
  }

  lemma RenamedKeeps(w: World, id: string)
    requires JobInv(w) && id != "" && (id == w.pane.jobId || id !in w.history.names) && w.pane.jobId != ""
    ensures JobInv(w.(pane := w.pane.(submissionPending := false, jobId := id, pending := None),
                      history := w.history.(names := w.history.names + {id})))
  {
    hide OncePerJob, Distinct;
  }

  lemma UnconfirmedKeeps(w: World, saved: bool)
    requires JobInv(w)
    ensures JobInv(UnconfirmedSubmit(w, saved))
  {
    var p := w.pane.(submissionPending := false, status := Running, busy := true);
    assert JobInv(w.(pane := p)) by {
      hide OncePerJob, Distinct, WrittenJob;
    }
    hide JobInv, PollJob, Ledger.Persist;
    PersistKeeps(w.(pane := p), saved);
    PollJobKeeps(Persist(w.(pane := p), saved), p.jobId);
  }

  // The pane gives its job up: the outcome is noted and the id is let go.
  lemma LetGoKeeps(w: World, status: Status)
    requires JobInv(w) && w.pane.jobId != ""
    ensures JobInv(w.(pane := w.pane.(jobId := "", pending := None, status := status, busy := false),
                      history := w.history.(outcomes := w.history.outcomes + [w.pane.jobId])))
    ensures JobInv(w.(pane := w.pane.(submissionPending := false, jobId := "", pending := None, status := status,
                                      busy := false),
                      history := w.history.(outcomes := w.history.outcomes + [w.pane.jobId])))
  {
    NoEmptyOutcome(w.history);
    OutcomeKeeps(w.history, w.pane.jobId);
    hide OncePerJob, Distinct, WrittenJob, HistoryOk;
  }

  lemma SubmitReplyKeeps(w: World, id: string, reply: SubmitReply, saved: bool)
    requires JobInv(w) && id != ""
    requires reply.Submitted? ==> reply.jobId == "" || reply.jobId == id || reply.jobId !in w.history.names
    ensures JobInv(FinishSubmit(w, id, reply, saved))
  {
    hide JobInv, UnconfirmedSubmit, CancelOrPoll, FinishJob, Ledger.Persist;
    if w.pane.clientJobId == id && w.pane.jobId == id {
      UnconfirmedKeeps(w, saved);
      LetGoKeeps(w, Failed);
      PersistKeeps(w.(pane := w.pane.(submissionPending := false, jobId := "", pending := None, status := Failed,
                                      busy := false),
                      history := w.history.(outcomes := w.history.outcomes + [w.pane.jobId])), saved);
      if reply.Submitted? && reply.jobId != "" {
        RenamedKeeps(w, reply.jobId);
        AnswerKeeps(w.(pane := w.pane.(submissionPending := false, jobId := reply.jobId, pending := None),
                       history := w.history.(names := w.history.names + {reply.jobId})),
                    reply.jobId, reply.job, ThenCurrent, saved);
      }
    }
  }

  // Fields that no part of the invariant reads.
  lemma BookkeepingKeeps(w: World, pollScheduled: bool, pollErrors: nat)
    requires JobInv(w)
    ensures JobInv(w.(pane := w.pane.(pollScheduled := pollScheduled, pollErrors := pollErrors)))
  {
  }

  lemma FireKeeps(w: World, id: string)
    requires JobInv(w) && id in w.timers
    ensures JobInv(Fire(w, id))
  {
    hide HistoryOk, StoreOk, HeldOk, ResultOk;
  }

  lemma PauseKeeps(w: World, saved: bool)
    requires JobInv(w)
    ensures JobInv(Pause(w, saved))
  {
    assert JobInv(w.(pane := w.pane.(paused := true))) by {
      hide HistoryOk, StoreOk, HeldOk, ResultOk;
    }
    PersistKeeps(w.(pane := w.pane.(paused := true)), saved);
  }

  lemma ApplyPollKeeps(w: World, job: Job, saved: bool)
    requires JobInv(w)
    ensures JobInv(ApplyPoll(w, job, saved))
  {
    var w' := w.(pane := w.pane.(pending := None, submissionPending := false, pollErrors := 0));
    assert JobInv(w') by {
      hide HistoryOk, StoreOk, ResultOk;
    }
    hide JobInv, CancelOrPoll, FinishJob;
    AnswerKeeps(w', w.pane.jobId, job, ThenJob(w.pane.jobId), saved);
  }

  lemma FailPollKeeps(w: World, gone: bool, saved: bool)
    requires JobInv(w) && w.pane.jobId != ""
    ensures JobInv(FailPoll(w, gone, saved))
  {
    hide JobInv, Ledger.Persist, PollJob, Pause;
    LetGoKeeps(w, Interrupted);
    PersistKeeps(LoseJob(w), saved);
    BookkeepingKeeps(w, w.pane.pollScheduled, w.pane.pollErrors + 1);
    var w' := w.(pane := w.pane.(pollErrors := w.pane.pollErrors + 1));
    PauseKeeps(w', saved);
    PollJobKeeps(w', w.pane.jobId);
  }

  lemma PollReplyKeeps(w: World, id: string, reply: PollReply, saved: bool)
    requires JobInv(w) && id != ""
    ensures JobInv(FinishPoll(w, id, reply, saved))
  {
    hide JobInv, ApplyPoll, FailPoll;
    BookkeepingKeeps(w, false, w.pane.pollErrors);
    var w' := w.(pane := w.pane.(pollScheduled := false));
    match reply {
      case Polled(job) => ApplyPollKeeps(w', job, saved);
      case PollError(gone) => if w.pane.jobId == id { FailPollKeeps(w', gone, saved); }
    }
  }

  lemma CancelReplyKeeps(w: World, id: string, resume: Resume, reply: CancelReply, saved: bool)
    requires JobInv(w) && id != ""
    ensures JobInv(FinishCancel(w, id, resume, reply, saved))
  {
    hide JobInv, PollJob, FinishJob;
    assert JobInv(AnswerCancel(w, id, reply, saved)) by {
      if w.pane.jobId == id {
        LetGoKeeps(w, Interrupted);
        if reply.CancelAnswered? {
          FinishJobKeeps(w, id, reply.job, saved);
          PollJobKeeps(FinishJob(w, id, reply.job, saved), FinishJob(w, id, reply.job, saved).pane.jobId);
        }
      }
    }
    var w' := AnswerCancel(w, id, reply, saved);
    if !resume.Alone? {
      PollJobKeeps(w', if resume.ThenCurrent? then w'.pane.jobId else resume.job);
    }
  }

  lemma WritingKeeps(w: World, write: WriteState, includeHeaders: bool)
    requires JobInv(w) && (Locked(w.pane) ==> Locked(w.pane.(write := write)))
    ensures JobInv(w.(pane := w.pane.(write := write, includeHeaders := includeHeaders)))
  {
    hide HistoryOk, StoreOk, HeldOk;
  }

  lemma LogKeeps(h: History, t: Table)
    requires HistoryOk(h) && (t.job == "" || (t.job in h.names && !WrittenJob(h.writes, t.job)))
    ensures HistoryOk(h.(writes := h.writes + [t]))
    ensures forall j :: WrittenJob(h.writes + [t], j) <==> WrittenJob(h.writes, j) || j == t.job
  {
    hide Distinct;
    var writes := h.writes + [t];
    assert writes[|h.writes|] == t;
    forall j | WrittenJob(h.writes, j)
      ensures WrittenJob(writes, j)
    {
      var i :| 0 <= i < |h.writes| && h.writes[i].job == j;
      assert writes[i].job == j;
    }
  }

  // A write is noted once the copies of its result, in the pane and in storage, are locked.
  lemma LoggedKeeps(w: World)
    requires JobInv(w) && w.pane.result.Some? && w.store.Some?
    requires w.pane.result.value.job == "" || !WrittenJob(w.history.writes, w.pane.result.value.job)
    requires w.pane.jobId == "" && w.pane.pending.None? && Locked(w.pane)
    requires w.store.value.jobId == "" && w.store.value.pending.None? && SavedLocked(w.store.value)
    ensures JobInv(Logged(w))
  {
    LogKeeps(w.history, w.pane.result.value);
    hide OncePerJob, Distinct, WrittenJob, HistoryOk;
  }

  lemma CallingKeeps(w: World)
    requires JobInv(w) && !Locked(w.pane)
    ensures JobInv(Calling(w))
  {
    hide JobInv;
    WritingKeeps(w, w.pane.write.(writing := true, status := Writing), w.pane.includeHeaders);
    PersistKeeps(Noted(w, w.pane.write.(writing := true, status := Writing)), true);
  }

  lemma SheetKeeps(w: World, savedBefore: bool, sheet: SheetCall, savedAfter: bool)
    requires JobInv(w) && MayWrite(w.pane)
    ensures JobInv(Write(w, savedBefore, sheet, savedAfter))
  {
    var failed := w.pane.write.(writing := false, status := WriteFailed);
    CallingKeeps(w);
    WritingKeeps(w, failed, w.pane.includeHeaders);
    PersistKeeps(Noted(w, failed), savedAfter);
    CompletedIsIdle(w);
    ResultUnwritten(w);
    WriteIs(w, savedBefore, sheet, savedAfter);
    hide JobInv, WrittenJob, EndCall, Ledger.Persist, Write, Calling;
    if savedBefore && !sheet.Unavailable? {
      CallEndKeeps(w, sheet, savedAfter);
    }
  }

  lemma ResultUnwritten(w: World)
    requires JobInv(w) && w.pane.result.Some? && !Locked(w.pane)
    ensures w.pane.result.value.job == "" || !WrittenJob(w.history.writes, w.pane.result.value.job)
  {
    hide HistoryOk, StoreOk, QueueOk, HeldOk, WrittenJob;
  }

  lemma CallEndKeeps(w: World, sheet: SheetCall, savedAfter: bool)
    requires JobInv(Calling(w)) && MayWrite(w.pane) && !sheet.Unavailable?
    requires w.pane.result.value.job == "" || !WrittenJob(w.history.writes, w.pane.result.value.job)
    requires w.pane.jobId == "" && w.pane.pending.None?
    ensures JobInv(EndCall(Calling(w), sheet, savedAfter))
  {
    hide JobInv, WrittenJob;
    var c := Calling(w);
    if sheet.Threw? {
      var failed := c.pane.write.(writing := false, status := WriteFailed);
      WritingKeeps(c, failed, c.pane.includeHeaders);
      PersistKeeps(Noted(c, failed), savedAfter);
    } else if sheet.Reported? {
      var ended := c.pane.write.(writing := false, status := Written, report := Some(sheet.success));
      WritingKeeps(c, ended, c.pane.includeHeaders);
      var r := Noted(c, ended);
      if sheet.success {
        LoggedKeeps(r);
        PersistKeeps(Logged(r), savedAfter);
      } else {
        PersistKeeps(r, savedAfter);
      }
    } else {
      ReloadKeeps(c);
      if sheet.wrote {
        LoggedKeeps(Reopened(c));
        assert Reopened(Logged(c)) == Logged(Reopened(c));
      }
    }
  }

  lemma CompletedIsIdle(w: World)
    requires JobInv(w) && w.pane.status == Completed
    ensures w.pane.jobId == "" && w.pane.pending.None?
  {
    hide WrittenJob;
  }

  lemma ReloadKeeps(w: World)
    requires JobInv(w)
    ensures JobInv(Reopened(w))
  {
    hide OncePerJob, WrittenJob;
  }

  lemma BusyKeeps(w: World, busy: bool)
    requires JobInv(w)
    ensures JobInv(w.(pane := w.pane.(busy := busy)))
  {
  }

  lemma MaterialsKeep(w: World, inFlight: multiset<Request>)
    requires JobInv(w) && (forall r :: r != MaterialsChange && r != MaterialsCheck ==> inFlight[r] == w.inFlight[r])
    ensures JobInv(w.(inFlight := inFlight))
  {
    hide HistoryOk, PaneOk, StoreOk;
  }

  lemma ChangeKeeps(w: World, failed: bool, saved: bool)
    requires JobInv(w)
    ensures JobInv(EndMaterials(w, failed, saved))
  {
    BusyKeeps(w, false);
    MaterialsKeep(w.(pane := w.pane.(busy := false)), w.inFlight + multiset{MaterialsCheck});
    hide JobInv;
    var inFlight := w.inFlight + multiset{MaterialsCheck};
    PersistKeeps(World(w.pane.(busy := false), w.store, inFlight, w.timers, w.history), saved);
  }

  lemma OtherKeeps(w: World, e: Event)
    requires JobInv(w) && (e.MaterialsStarted? || e.MaterialsEnded? || e.MaterialsChecked? || e.Edit?)
    ensures JobInv(Step(w, e))
  {
    hide JobInv, Ledger.Persist, EndMaterials;
    match e {
      case Edit(saved) => PersistKeeps(w, saved);
      case MaterialsStarted =>
        BusyKeeps(w, true);
        MaterialsKeep(w.(pane := w.pane.(busy := true)), w.inFlight + multiset{MaterialsChange});
      case MaterialsEnded(failed, saved) =>
        MaterialsKeep(w, w.inFlight - multiset{MaterialsChange});
        ChangeKeeps(Taken(w, MaterialsChange), failed, saved);
      case MaterialsChecked(failed) =>
        MaterialsKeep(w, w.inFlight - multiset{MaterialsCheck});
        BusyKeeps(Taken(w, MaterialsCheck), false);
    }
  }

  lemma SheetEventKeeps(w: World, e: Event)
    requires JobInv(w) && (e.SetIncludeHeaders? || e.InspectTarget? || e.WriteToSheet?)
    ensures JobInv(Step(w, e))
  {
    hide JobInv, Ledger.Persist, Write;
    match e {
      case SetIncludeHeaders(shown, saved) =>
        var write := w.pane.write.(target := false, status := NotWritten);
        if !Locked(w.pane) {
          WritingKeeps(w, write, shown);
          PersistKeeps(w.(pane := w.pane.(includeHeaders := shown, write := write)), saved);
        }
      case InspectTarget(blank) =>
        if !Locked(w.pane) {
          WritingKeeps(w, w.pane.write.(target := true, status := Ready), w.pane.includeHeaders);
          WritingKeeps(w, w.pane.write.(target := false, status := WriteFailed), w.pane.includeHeaders);
        }
      case WriteToSheet(savedBefore, sheet, savedAfter) =>
        if MayWrite(w.pane) {
          SheetKeeps(w, savedBefore, sheet, savedAfter);
        } else {
          assert Write(w, savedBefore, sheet, savedAfter) == w by {
            NoWriteNoChange(w, savedBefore, sheet, savedAfter);
          }
        }
    }
  }

  lemma NoWriteNoChange(w: World, savedBefore: bool, sheet: SheetCall, savedAfter: bool)
    requires !MayWrite(w.pane)
    ensures Write(w, savedBefore, sheet, savedAfter) == w
  {
  }

  lemma QueuedFacts(w: World)
    requires JobInv(w)
    ensures "" !in w.timers && PrepareFor("") !in w.inFlight && SubmitFor("") !in w.inFlight && PollFor("") !in w.inFlight
    ensures forall resume :: CancelFor("", resume) !in w.inFlight
    ensures forall j :: PrepareFor(j) in w.inFlight ==> w.inFlight[PrepareFor(j)] == 1 && j !in w.history.submitted
    ensures PrepareFor(w.pane.jobId) in w.inFlight ==> w.pane.jobId !in w.history.dropped
  {
    hide HistoryOk, PaneOk, StoreOk;
  }

  lemma ReplyKeeps(w: World, e: Event)
    requires JobInv(w) && FreshIds(w.history, e)
    requires e.ConflictsReplied? || e.SubmitReplied? || e.PollReplied? || e.CancelReplied? || e.TimerFired?
    ensures JobInv(Step(w, e))
  {
    QueuedFacts(w);
    hide JobInv, FinishPrepare, FinishSubmit, FinishPoll, FinishCancel, Fire;
    match e {
      case ConflictsReplied(id, reply, saved) =>
        if PrepareFor(id) in w.inFlight {
          TakenKeeps(w, PrepareFor(id));
          PrepareKeeps(Taken(w, PrepareFor(id)), id, reply, saved);
        }
      case SubmitReplied(id, reply, saved) =>
        if SubmitFor(id) in w.inFlight {
          TakenKeeps(w, SubmitFor(id));
          SubmitReplyKeeps(Taken(w, SubmitFor(id)), id, reply, saved);
        }
      case PollReplied(id, reply, saved) =>
        if PollFor(id) in w.inFlight {
          TakenKeeps(w, PollFor(id));
          PollReplyKeeps(Taken(w, PollFor(id)), id, reply, saved);
        }
      case CancelReplied(id, resume, reply, saved) =>
        if CancelFor(id, resume) in w.inFlight {
          TakenKeeps(w, CancelFor(id, resume));
          CancelReplyKeeps(Taken(w, CancelFor(id, resume)), id, resume, reply, saved);
        }
      case TimerFired(id) => if id in w.timers { FireKeeps(w, id); }
    }
  }

  lemma JobInvKept(w: World, e: Event)
    requires JobInv(w) && FreshIds(w.history, e)
    ensures JobInv(Step(w, e))
  {
    hide JobInv, StartGenerate, StartCancel, Pause, FinishJob, PollJob, Reopened;
    match e {
      case Generate(id, headersChosen, saved) => GenerateKeeps(w, id, headersChosen, saved);
      case StopWaiting(saved) => PauseKeeps(w, saved);
      case Cancel(saved) => StartCancelKeeps(w, Alone, saved);
      case SetResult(rows, saved) => FinishJobKeeps(w, "", Job(Completed, rows), saved);
      case Restore => PollJobKeeps(w, w.pane.jobId);
      case Reload => ReloadKeeps(w);
      case SetIncludeHeaders(_, _) => SheetEventKeeps(w, e);
      case InspectTarget(_) => SheetEventKeeps(w, e);
      case WriteToSheet(_, _, _) => SheetEventKeeps(w, e);
      case MaterialsStarted => OtherKeeps(w, e);
      case MaterialsEnded(_, _) => OtherKeeps(w, e);
      case MaterialsChecked(_) => OtherKeeps(w, e);
      case Edit(_) => OtherKeeps(w, e);
      case _ => ReplyKeeps(w, e);
    }
  }

  lemma {:induction false} JobInvAlways(es: seq<Event>)
    requires FreshRun(Fresh, es)
    ensures JobInv(Run(Fresh, es))
    decreases |es|
  {
    if es != [] {
      JobInvAlways(es[..|es| - 1]);
      hide Step, JobInv;
      JobInvKept(Run(Fresh, es[..|es| - 1]), es[|es| - 1]);
    }
  }

  // Over every run with fresh ids: no job's result is written to the sheet twice, no job's outcome is
  // applied twice between two reloads, and no job cancelled while it was preparing is ever submitted.
  lemma OncePerJobAlways(es: seq<Event>)
    requires FreshRun(Fresh, es)
    ensures var h := Run(Fresh, es).history;
            OncePerJob(h.writes) && Distinct(h.outcomes) && h.dropped !! h.submitted
  {
    JobInvAlways(es);
    hide Run, FreshRun, OncePerJob, Distinct;
  }

  // ---- what the record means

  // The pane lets its job go exactly when one outcome, that job's, is noted.
  ghost predicate SettledAs(w: World, w': World, job: string) {
    if w.pane.jobId != "" && w'.pane.jobId == "" then
      w'.history.outcomes == w.history.outcomes + [job] && !w'.pane.busy && !IsLive(w'.pane.status)
    else w'.history.outcomes == w.history.outcomes
  }

  lemma PollJobFrame(w: World, jobId: string)
    ensures var w' := PollJob(w, jobId);
            w'.history == w.history && w'.pane == w.pane.(pollScheduled := w'.pane.pollScheduled)
  {
  }

  // Nothing has changed but the poll flag, the requests and the timers.
  ghost predicate OnlyPolling(w: World, w': World) {
    && w'.pane == w.pane.(pollScheduled := w'.pane.pollScheduled)
    && w'.store == w.store && w'.history == w.history
  }

  lemma StrayCancel(w: World, id: string, resume: Resume, reply: CancelReply, saved: bool)
    requires w.pane.jobId != id
    ensures OnlyPolling(w, FinishCancel(Taken(w, CancelFor(id, resume)), id, resume, reply, saved))
  {
  }

  lemma StrayPoll(w: World, id: string, reply: PollReply, saved: bool)
    requires w.pane.jobId != id
    ensures OnlyPolling(w, FinishPoll(Taken(w, PollFor(id)), id, reply, saved))
  {
    hide ApplyPoll, FailPoll;
  }

  lemma StrayOther(w: World, id: string, conflicts: ConflictsReply, reply: SubmitReply, saved: bool)
    requires w.pane.jobId != id
    ensures OnlyPolling(w, w)
    ensures OnlyPolling(w, FinishPrepare(Taken(w, PrepareFor(id)), id, conflicts, saved))
    ensures OnlyPolling(w, FinishSubmit(Taken(w, SubmitFor(id)), id, reply, saved))
  {
    hide BeginSubmit, AcceptedSubmit, UnconfirmedSubmit, RefusedSubmit;
  }

  // A preparation, submit, poll or cancel answer about a job that is not the current one leaves
  // status, result, busy and everything else of the pane's alone.
  lemma StrayReplyIgnored(w: World, e: Event)
    requires match e {
               case ConflictsReplied(id, _, _) => w.pane.jobId != id
               case SubmitReplied(id, _, _) => w.pane.jobId != id
               case PollReplied(id, _, _) => w.pane.jobId != id
               case CancelReplied(id, _, _, _) => w.pane.jobId != id
               case _ => false
             }
    ensures OnlyPolling(w, Step(w, e))
  {
    hide OnlyPolling, FinishCancel, FinishPoll, FinishPrepare, FinishSubmit;
    StrayOther(w, e.jobId, Clear, SubmitError(true), true);
    match e {
      case ConflictsReplied(id, reply, saved) => StrayOther(w, id, reply, SubmitError(true), saved);
      case SubmitReplied(id, reply, saved) => StrayOther(w, id, Clear, reply, saved);
      case PollReplied(id, reply, saved) => StrayPoll(w, id, reply, saved);
      case CancelReplied(id, resume, reply, saved) => StrayCancel(w, id, resume, reply, saved);
    }
  }

  lemma FinishSettles(w: World, source: string, job: Job, saved: bool)
    requires source == w.pane.jobId && source != ""
    ensures SettledAs(w, FinishJob(w, source, job, saved), source)
    ensures IsLive(job.status) ==> FinishJob(w, source, job, saved).pane.jobId == source
    ensures !IsLive(job.status) ==>
              !FinishJob(w, source, job, saved).pane.busy && FinishJob(w, source, job, saved).pane.jobId == ""
  {
  }

  lemma CancelSettles(w: World, resume: Resume, saved: bool)
    ensures SettledAs(w, StartCancel(w, resume, saved), w.pane.jobId)
  {
  }

  lemma AnswerSettles(w: World, source: string, job: Job, resume: Resume, saved: bool)
    requires source == w.pane.jobId && source != ""
    ensures SettledAs(w, CancelOrPoll(FinishJob(w, source, job, saved), resume, saved), source)
  {
    hide StartCancel, PollJob, FinishJob;
    var w' := FinishJob(w, source, job, saved);
    FinishSettles(w, source, job, saved);
    CancelSettles(w', resume, saved);
    PollJobFrame(w', w'.pane.jobId);
  }

  lemma SubmitSettles(w: World, id: string, reply: SubmitReply, saved: bool)
    requires id != ""
    ensures SettledAs(w, FinishSubmit(w, id, reply, saved),
                      if reply.Submitted? && reply.jobId != "" then reply.jobId else w.pane.jobId)
  {
    hide PollJob, CancelOrPoll, FinishJob;
    var p := w.pane.(submissionPending := false, status := Running, busy := true);
    PollJobFrame(Persist(w.(pane := p), saved), p.jobId);
    if reply.Submitted? && reply.jobId != "" {
      AnswerSettles(w.(pane := w.pane.(submissionPending := false, jobId := reply.jobId, pending := None),
                       history := w.history.(names := w.history.names + {reply.jobId})),
                    reply.jobId, reply.job, ThenCurrent, saved);
    }
  }

  lemma FailPollSettles(w: World, gone: bool, saved: bool)
    requires w.pane.jobId != ""
    ensures SettledAs(w, FailPoll(w, gone, saved), w.pane.jobId)
  {
    hide PollJob;
    PollJobFrame(w.(pane := w.pane.(pollErrors := w.pane.pollErrors + 1)), w.pane.jobId);
  }

  lemma PollSettles(w: World, id: string, reply: PollReply, saved: bool)
    requires id != ""
    ensures SettledAs(w, FinishPoll(w, id, reply, saved), w.pane.jobId)
  {
    hide FailPoll, CancelOrPoll, FinishJob;
    var w' := w.(pane := w.pane.(pollScheduled := false));
    if w.pane.jobId == id {
      match reply {
        case Polled(job) =>
          AnswerSettles(w'.(pane := w'.pane.(pending := None, submissionPending := false, pollErrors := 0)),
                        id, job, ThenJob(id), saved);
        case PollError(gone) => FailPollSettles(w', gone, saved);
      }
    }
  }

  lemma CancelReplySettles(w: World, id: string, resume: Resume, reply: CancelReply, saved: bool)
    requires id != ""
    ensures SettledAs(w, FinishCancel(w, id, resume, reply, saved), w.pane.jobId)
  {
    hide PollJob, FinishJob;
    var w1 := FinishJob(w, id, if reply.CancelAnswered? then reply.job else Job(Idle, None), saved);
    PollJobFrame(w1, w1.pane.jobId);
    if w.pane.jobId == id && reply.CancelAnswered? {
      FinishSettles(w, id, reply.job, saved);
    }
    var w' := AnswerCancel(w, id, reply, saved);
    PollJobFrame(w', w'.pane.jobId);
    if resume.ThenJob? {
      PollJobFrame(w', resume.job);
    }
  }

  // The id under which an event's outcome, if it has one, is noted.
  function OutcomeName(w: World, e: Event): string {
    match e
    case SubmitReplied(_, Submitted(id, _), _) => if id != "" then id else w.pane.jobId
    case _ => w.pane.jobId
  }

  lemma NothingSettles(w: World, job: string)
    ensures SettledAs(w, w, job)
  {
  }

  lemma SettlesTaken(w: World, w': World, job: string)
    ensures forall r :: SettledAs(Taken(w, r), w', job) ==> SettledAs(w, w', job)
  {
  }

  // A job of the pane's ends on a submit, poll or cancel answer, or on a cancel while it is still
  // preparing, exactly when that event notes one outcome, of that job.
  lemma EndsWithOneOutcome(w: World, e: Event)
    requires JobInv(w) && (e.SubmitReplied? || e.PollReplied? || e.CancelReplied? || e.Cancel?)
    ensures SettledAs(w, Step(w, e), OutcomeName(w, e))
  {
    QueuedFacts(w);
    NothingSettles(w, OutcomeName(w, e));
    hide JobInv, FinishSubmit, FinishPoll, FinishCancel, StartCancel, SettledAs;
    SettlesTaken(w, Step(w, e), OutcomeName(w, e));
    match e {
      case SubmitReplied(id, reply, saved) =>
        if SubmitFor(id) in w.inFlight { SubmitSettles(Taken(w, SubmitFor(id)), id, reply, saved); }
      case PollReplied(id, reply, saved) =>
        if PollFor(id) in w.inFlight { PollSettles(Taken(w, PollFor(id)), id, reply, saved); }
      case CancelReplied(id, resume, reply, saved) =>
        if CancelFor(id, resume) in w.inFlight {
          CancelReplySettles(Taken(w, CancelFor(id, resume)), id, resume, reply, saved);
        }
      case Cancel(saved) => CancelSettles(w, Alone, saved);
    }
  }

  // The pane shows an answer: a job that is over is let go with everything pending, and its result, if
  // it has one, stands unwritten; a live one is waited for.
  ghost predicate Shows(p: Pane, job: Job) {
    && p.status == job.status && p.busy == IsLive(job.status)
    && (IsLive(job.status) ==> p.jobId != "")
    && (!IsLive(job.status) ==>
          && p.jobId == "" && p.pending.None? && !p.paused && !p.preparing && !p.submissionPending && !p.cancelRequested)
    && (job.status == Completed ==>
          && p.write == NoWrite
          && (if job.rows.None? then p.result.None? else p.result.Some? && p.result.value.rows == job.rows.value))
  }

  lemma FinishShows(w: World, source: string, job: Job, saved: bool)
    requires IsLive(job.status) ==> w.pane.jobId != ""
    ensures var w' := FinishJob(w, source, job, saved);
            Shows(w'.pane, job) && (saved ==> w'.store == Some(Save(w'.pane))) && (w'.pane.preparing ==> w.pane.preparing)
    ensures job.status != Completed ==> FinishJob(w, source, job, saved).pane.result == w.pane.result
  {
  }

  lemma GoOnShows(w: World, resume: Resume, saved: bool, job: Job)
    requires Shows(w.pane, job) && !w.pane.preparing
    ensures Shows(CancelOrPoll(w, resume, saved).pane, job)
  {
    hide FinishJob;
  }

  // An answer to a submit, poll or cancel of the current job is what the pane then shows, but for a
  // live one to a poll, which a paused pane leaves alone.
  lemma AnswersShow(w: World, e: Event, job: Job)
    requires w.pane.jobId != "" && !w.pane.preparing && !(w.pane.paused && e.PollReplied? && IsLive(job.status))
    requires match e
             case SubmitReplied(id, Submitted(id', j), _) =>
               SubmitFor(id) in w.inFlight && id == w.pane.jobId == w.pane.clientJobId && id' != "" && j == job
             case PollReplied(id, Polled(j), _) => PollFor(id) in w.inFlight && id == w.pane.jobId && j == job
             case CancelReplied(id, resume, CancelAnswered(j), _) =>
               CancelFor(id, resume) in w.inFlight && id == w.pane.jobId && j == job
             case _ => false
    ensures Shows(Step(w, e).pane, job)
  {
    hide FinishJob, CancelOrPoll, PollJob, Shows;
    match e {
      case SubmitReplied(id, Submitted(id', _), saved) =>
        var w' := Taken(w, SubmitFor(id)).(pane := w.pane.(submissionPending := false, jobId := id', pending := None),
                                           history := w.history.(names := w.history.names + {id'}));
        FinishShows(w', id', job, saved);
        GoOnShows(FinishJob(w', id', job, saved), ThenCurrent, saved, job);
      case PollReplied(id, Polled(_), saved) =>
        var w' := Taken(w, PollFor(id)).(pane := w.pane.(pollScheduled := false, pending := None,
                                                         submissionPending := false, pollErrors := 0));
        FinishShows(w', id, job, saved);
        GoOnShows(FinishJob(w', id, job, saved), ThenJob(id), saved, job);
      case CancelReplied(id, resume, CancelAnswered(_), saved) =>
        var w' := FinishJob(Taken(w, CancelFor(id, resume)), id, job, saved);
        FinishShows(Taken(w, CancelFor(id, resume)), id, job, saved);
        PollingShows(w', w'.pane.jobId, job);
        var w'' := AnswerCancel(Taken(w, CancelFor(id, resume)), id, CancelAnswered(job), saved);
        PollingShows(w'', w''.pane.jobId, job);
        if resume.ThenJob? {
          PollingShows(w'', resume.job, job);
        }
    }
  }

  lemma PollingShows(w: World, jobId: string, job: Job)
    ensures Shows(w.pane, job) ==> Shows(PollJob(w, jobId).pane, job)
  {
  }

  // The sheet has one more write exactly when a permitted call got past storing "writing" and
  // reported success, or took the pane down with the write done.
  lemma WritesAreSheetCalls(w: World, e: Event)
    ensures Step(w, e).history.writes ==
            if e.WriteToSheet? && MayWrite(w.pane) && e.savedBefore
               && (e.sheet == Reported(true) || e.sheet == Died(true))
            then w.history.writes + [w.pane.result.value] else w.history.writes
  {
    hide Write, WriteMove;
    if e.WriteToSheet? {
      assert Step(w, e) == Write(w, e.savedBefore, e.sheet, e.savedAfter);
      CallWrites(w, e.savedBefore, e.sheet, e.savedAfter);
    } else if !e.Reload? {
      hide Step;
      EventMoves(w, e);
      assert Step(w, e).history.writes == w.history.writes by { MovedWrites(w, Step(w, e)); }
    }
  }

  lemma MovedWrites(w: World, w': World)
    requires WriteMove(w, w')
    ensures w'.history.writes == w.history.writes
  {
  }

  lemma CallWrites(w: World, savedBefore: bool, sheet: SheetCall, savedAfter: bool)
    ensures Write(w, savedBefore, sheet, savedAfter).history.writes ==
            if MayWrite(w.pane) && savedBefore && (sheet == Reported(true) || sheet == Died(true))
            then w.history.writes + [w.pane.result.value] else w.history.writes
  {
  }

  // ---- a job cancelled while preparing

  ghost predicate Grows(w: World, w': World) {
    w.history.dropped <= w'.history.dropped
  }

  lemma CancelGrows(w: World, resume: Resume, saved: bool)
    ensures Grows(w, StartCancel(w, resume, saved))
  {
  }

  lemma FinishGrows(w: World, source: string, job: Job, saved: bool)
    ensures Grows(w, FinishJob(w, source, job, saved))
  {
  }

  lemma AnswerGrows(w: World, source: string, job: Job, resume: Resume, saved: bool)
    ensures Grows(w, CancelOrPoll(FinishJob(w, source, job, saved), resume, saved))
  {
    hide StartCancel, PollJob, FinishJob;
    var w' := FinishJob(w, source, job, saved);
    FinishGrows(w, source, job, saved);
    CancelGrows(w', resume, saved);
    PollJobFrame(w', w'.pane.jobId);
  }

  lemma SubmitReplyGrows(w: World, id: string, reply: SubmitReply, saved: bool)
    ensures Grows(w, FinishSubmit(w, id, reply, saved))
  {
    hide CancelOrPoll, FinishJob;
    if reply.Submitted? {
      AnswerGrows(w.(pane := w.pane.(submissionPending := false, jobId := reply.jobId, pending := None),
                     history := w.history.(names := w.history.names + {reply.jobId})),
                  reply.jobId, reply.job, ThenCurrent, saved);
    }
  }

  lemma PollReplyGrows(w: World, id: string, reply: PollReply, saved: bool)
    ensures Grows(w, FinishPoll(w, id, reply, saved))
  {
    hide CancelOrPoll, FinishJob;
    if reply.Polled? {
      AnswerGrows(w.(pane := w.pane.(pollScheduled := false, pending := None, submissionPending := false,
                                     pollErrors := 0)), w.pane.jobId, reply.job, ThenJob(w.pane.jobId), saved);
    }
  }

  lemma CancelReplyGrows(w: World, id: string, resume: Resume, reply: CancelReply, saved: bool)
    ensures Grows(w, FinishCancel(w, id, resume, reply, saved))
  {
    hide FinishJob;
    FinishGrows(w, id, if reply.CancelAnswered? then reply.job else Job(Idle, None), saved);
  }

  lemma DroppedGrows(w: World, e: Event)
    ensures Grows(w, Step(w, e))
  {
    hide StartCancel, FinishSubmit, FinishPoll, FinishCancel, BeginSubmit;
    match e {
      case Generate(_, _, _) => StartGrows(w, e);
      case ConflictsReplied(_, _, _) => StartGrows(w, e);
      case SubmitReplied(id, reply, saved) => SubmitReplyGrows(Taken(w, SubmitFor(id)), id, reply, saved);
      case PollReplied(id, reply, saved) => PollReplyGrows(Taken(w, PollFor(id)), id, reply, saved);
      case CancelReplied(id, resume, reply, saved) =>
        CancelReplyGrows(Taken(w, CancelFor(id, resume)), id, resume, reply, saved);
      case Cancel(saved) => CancelGrows(w, Alone, saved);
      case _ =>
    }
  }

  lemma StartGrows(w: World, e: Event)
    requires e.Generate? || e.ConflictsReplied?
    ensures Grows(w, Step(w, e))
  {
  }

  lemma {:induction false} StaysDropped(es: seq<Event>, k: nat, job: string)
    requires k <= |es| && job in Run(Fresh, es[..k]).history.dropped
    ensures job in Run(Fresh, es).history.dropped
    decreases |es|
  {
    if k == |es| {
      assert es[..k] == es;
    } else {
      assert es[..|es| - 1][..k] == es[..k];
      StaysDropped(es[..|es| - 1], k, job);
      hide Step;
      DroppedGrows(Run(Fresh, es[..|es| - 1]), es[|es| - 1]);
    }
  }

  lemma CancelDrops(w: World, saved: bool)
    requires w.pane.preparing && w.pane.jobId != ""
    ensures w.pane.jobId in Step(w, Cancel(saved)).history.dropped
  {
  }

  lemma DroppedHasNoSubmit(w: World, job: string)
    requires JobInv(w) && job in w.history.dropped
    ensures SubmitFor(job) !in w.inFlight
  {
    hide PaneOk, StoreOk;
  }

  lemma RunOneMore(es: seq<Event>, k: nat)
    requires k < |es|
    ensures Run(Fresh, es[..k + 1]) == Step(Run(Fresh, es[..k]), es[k])
  {
    assert es[..k + 1][..k] == es[..k];
    hide Step;
  }

  // A job cancelled while it was still preparing has no submit in flight at any later moment.
  lemma CancelledIsNeverSubmitted(es: seq<Event>, k: nat)
    requires FreshRun(Fresh, es) && k < |es| && es[k].Cancel?
    requires var p := Run(Fresh, es[..k]).pane; p.preparing && p.jobId != ""
    ensures SubmitFor(Run(Fresh, es[..k]).pane.jobId) !in Run(Fresh, es).inFlight
  {
    hide Run, Step, FreshRun, JobInv;
    var w, job := Run(Fresh, es[..k]), Run(Fresh, es[..k]).pane.jobId;
    CancelDrops(w, es[k].saved);
    RunOneMore(es, k);
    StaysDropped(es, k + 1, job);
    JobInvAlways(es);
    DroppedHasNoSubmit(Run(Fresh, es), job);
  }
}
