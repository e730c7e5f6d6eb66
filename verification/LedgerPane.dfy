/** The handlers of the task-ledger client in the form the client has them: a session's entry in the
    table of states, updated in place.  A handler that waits for a reply is two methods, one on each
    side of the wait.  Every method is proved to be the step Ledger gives for its event, and to keep
    the invariants proved of the machine. */
module LedgerPane {
  import opened Options
  import opened Ledger
  import opened LedgerJobs

  // What a pane that kept its invariants left in storage, and the record of its run.
  ghost predicate LeftByPane(stored: Option<Saved>, record: History) {
    exists w: World :: WriteInv(w) && JobInv(w) && w.store == stored && w.history == record
  }

  lemma LoadedIsValid(stored: Option<Saved>, record: History)
    ensures var w := World(Load(stored), stored, multiset{}, multiset{}, record.(outcomes := []));
            LeftByPane(stored, record) ==> WriteInv(w) && LockInv(w) && JobInv(w)
  {
    hide WriteInv, LockInv, JobInv, Load;
    if LeftByPane(stored, record) {
      var w: World :| WriteInv(w) && JobInv(w) && w.store == stored && w.history == record;
      Ledger.ReloadKeeps(w);
      LedgerJobs.ReloadKeeps(w);
      ReloadKeepsLock(w);
    }
  }

  lemma FreshEventKept(w: World, e: Event)
    requires WriteInv(w) && LockInv(w) && JobInv(w)
    ensures WriteInv(Step(w, e)) && LockInv(Step(w, e))
    ensures FreshIds(w.history, e) ==> JobInv(Step(w, e))
  {
    hide WriteInv, LockInv, JobInv, Step, FreshIds;
    WriteInvKept(w, e);
    LockKept(w, e);
    if FreshIds(w.history, e) {
      JobInvKept(w, e);
    }
  }

  lemma EventKept(w: World, e: Event)
    requires WriteInv(w) && LockInv(w) && JobInv(w) && !e.Generate? && !e.SubmitReplied?
    ensures WriteInv(Step(w, e)) && LockInv(Step(w, e)) && JobInv(Step(w, e))
  {
    hide WriteInv, LockInv, JobInv, Step;
    FreshEventKept(w, e);
  }

  lemma ReopenedIsValid(w: World)
    ensures WriteInv(w) && JobInv(w) ==> WriteInv(Reopened(w)) && LockInv(Reopened(w)) && JobInv(Reopened(w))
  {
    hide WriteInv, LockInv, JobInv, Load, Reopened;
    if WriteInv(w) && JobInv(w) {
      Ledger.ReloadKeeps(w);
      LedgerJobs.ReloadKeeps(w);
      ReloadKeepsLock(w);
    }
  }

  // The target is confirmed exactly when it was blank, for a result with rows; a pane whose write is done
  // or in doubt keeps what it had.
  lemma InspectConfirms(w: World, blank: bool)
    ensures Inspect(w, blank).pane.write.target <==>
            if Locked(w.pane) then w.pane.write.target else blank && HasRows(w.pane)
  {
  }

  class Session {
    var s: Pane
    var store: Option<Saved>
    var inFlight: multiset<Request>
    var timers: multiset<string>
    var history: History

    function View(): World
      reads this
    {
      World(s, store, inFlight, timers, history)
    }

    // No result is written to the sheet twice, in this pane's life or a later one.
    ghost predicate SheetSafe()
      reads this
    {
      WriteInv(View()) && LockInv(View())
    }

    ghost predicate Valid()
      reads this
    {
      SheetSafe() && JobInv(View())
    }

    // A pane loads what storage holds for its session; a run's record goes on, but for the outcomes,
    // which are the pane's.
    constructor (stored: Option<Saved>, record: History)
      ensures View() == World(Load(stored), stored, multiset{}, multiset{}, record.(outcomes := []))
      ensures LeftByPane(stored, record) ==> Valid()
    {
      s := Load(stored);
      store, inFlight, timers := stored, multiset{}, multiset{};
      history := record.(outcomes := []);
      new;
      LoadedIsValid(stored, record);
    }

    // `saved` is whether storage takes the write; the callers that ask whether it did look at it.
    method Persist(saved: bool)
      modifies this`store
      ensures View() == Ledger.Persist(old(View()), saved)
    {
      if saved {
        store := Some(Save(s));
      }
    }

    // ---- jobs

    method ResetLedgerWriteState()
      modifies this`s
      ensures s == old(s).(write := NoWrite)
    {
      s := s.(write := s.write.(target := false, writing := false, status := NotWritten, report := None));
    }

    method AcceptResult(source: string, rows: Option<nat>)
      modifies this`s, this`history
      ensures s == old(s).(write := NoWrite,
                           result := if rows.None? then None else Some(Table(old(history.accepted), source, rows.value)))
      ensures history == old(history).(accepted := old(history.accepted) + 1)
    {
      ResetLedgerWriteState();
      s := s.(result := if rows.None? then None else Some(Table(history.accepted, source, rows.value)));
      history := history.(accepted := history.accepted + 1);
    }

    method SettleJob(source: string)
      modifies this`s, this`history
      ensures s == Settled(old(s))
      ensures history == if source == "" then old(history)
                         else old(history).(outcomes := old(history.outcomes) + [source])
    {
      s := s.(jobId := "", pending := None, paused := false);
      s := s.(cancelRequested := false, submissionPending := false, preparing := false);
      if source != "" {
        history := history.(outcomes := history.outcomes + [source]);
      }
    }

    method FinishJob(source: string, job: Job, saved: bool)
      modifies this
      ensures View() == Ledger.FinishJob(old(View()), source, job, saved)
    {
      hide Settled, Ledger.Persist;
      s := s.(status := job.status, busy := job.status == Running || job.status == Queued);
      if job.status == Completed {
        AcceptResult(source, job.rows);
      }
      if !s.busy {
        SettleJob(source);
      }
      Persist(saved);
    }

    method PollJob(jobId: string)
      modifies this`s, this`timers
      ensures View() == Ledger.PollJob(old(View()), jobId)
    {
      if jobId == "" || s.jobId != jobId || s.pollScheduled || !s.busy || s.paused {
        return;
      }
      s := s.(pollScheduled := true);
      timers := timers + multiset{jobId};
    }

    method BeginSubmit(jobId: string, saved: bool)
      modifies this
      ensures View() == Ledger.BeginSubmit(old(View()), jobId, saved)
    {
      s := s.(pending := Some(jobId), preparing := false, submissionPending := true);
      s := s.(clientJobId := jobId, jobId := jobId, status := Running, result := None);
      ResetLedgerWriteState();
      s := s.(busy := true);
      history := history.(submitted := history.submitted + {jobId});
      Persist(saved);
      inFlight := inFlight + multiset{SubmitFor(jobId)};
    }

    // `headersChosen` is whether a column is selected.
    method Generate(id: string, headersChosen: bool, saved: bool)
      requires Valid()
      modifies this
      ensures View() == StartGenerate(old(View()), id, headersChosen, saved)
      ensures SheetSafe() && (FreshIds(old(history), Event.Generate(id, headersChosen, saved)) ==> Valid())
    {
      hide WriteInv, LockInv, JobInv;
      FreshEventKept(View(), Event.Generate(id, headersChosen, saved));
      hide Ledger.PollJob, Ledger.BeginSubmit;
      if s.jobId != "" && s.paused {
        s := s.(paused := false, pollErrors := 0);
        PollJob(s.jobId);
        return;
      }
      if s.busy || (s.pending.None? && !headersChosen) {
        return;
      }
      var preparingJobId := if s.pending.Some? then s.pending.value else id;
      s := s.(clientJobId := preparingJobId, jobId := preparingJobId, status := Running,
              preparing := s.pending.None?, cancelRequested := false, paused := false, pollErrors := 0, busy := true);
      history := history.(names := history.names + {preparingJobId});
      if s.pending.None? {
        inFlight := inFlight + multiset{PrepareFor(preparingJobId)};
      } else {
        BeginSubmit(preparingJobId, saved);
      }
    }

    method ConflictsReplied(jobId: string, reply: ConflictsReply, saved: bool)
      requires PrepareFor(jobId) in inFlight
      requires Valid()
      modifies this
      ensures View() == FinishPrepare(Taken(old(View()), PrepareFor(jobId)), jobId, reply, saved)
      ensures Valid()
    {
      hide WriteInv, LockInv, JobInv;
      EventKept(View(), Event.ConflictsReplied(jobId, reply, saved));
      hide Ledger.BeginSubmit;
      inFlight := inFlight - multiset{PrepareFor(jobId)};
      if s.jobId != jobId {
        return;
      }
      if !reply.Clear? {
        s := s.(busy := false, preparing := false);
        s := s.(jobId := "", status := Failed);
        return;
      }
      BeginSubmit(jobId, saved);
    }

    method Cancel(resume: Resume, saved: bool)
      modifies this
      ensures View() == StartCancel(old(View()), resume, saved)
      ensures resume == Alone && old(Valid()) ==> Valid()
    {
      hide WriteInv, LockInv, JobInv;
      if resume == Alone && Valid() {
        EventKept(View(), Event.Cancel(saved));
      }
      hide Ledger.FinishJob;
      if s.jobId == "" {
        return;
      }
      var jobId := s.jobId;
      s := s.(cancelRequested := true);
      if s.preparing {
        s := s.(preparing := false);
        history := history.(dropped := history.dropped + {jobId});
        FinishJob(jobId, Job(Cancelled, None), saved);
        return;
      }
      inFlight := inFlight + multiset{CancelFor(jobId, resume)};
    }

    // The tail of the submit and poll handlers.
    method AfterAnswer(resume: Resume, saved: bool)
      modifies this
      ensures View() == CancelOrPoll(old(View()), resume, saved)
    {
      hide Ledger.PollJob, StartCancel;
      if s.busy && s.cancelRequested {
        Cancel(resume, saved);
        return;
      }
      if s.busy {
        PollJob(s.jobId);
      }
    }

    method SubmitAnswered(id: string, job: Job, saved: bool)
      modifies this
      ensures View() == AcceptedSubmit(old(View()), id, job, saved)
    {
      hide Ledger.FinishJob, CancelOrPoll;
      s := s.(submissionPending := false, jobId := id, pending := None);
      history := history.(names := history.names + {id});
      FinishJob(id, job, saved);
      AfterAnswer(ThenCurrent, saved);
    }

    method SubmitFailed(refused: bool, saved: bool)
      modifies this
      ensures View() == if refused then RefusedSubmit(old(View()), saved) else UnconfirmedSubmit(old(View()), saved)
    {
      hide Ledger.PollJob;
      s := s.(submissionPending := false, status := Running, busy := true);
      if refused {
        history := history.(outcomes := history.outcomes + [s.jobId]);
        s := s.(pending := None, jobId := "", status := Failed, busy := false);
      }
      Persist(saved);
      if s.busy {
        PollJob(s.jobId);
      }
    }

    method SubmitReplied(clientJobId: string, reply: SubmitReply, saved: bool)
      requires SubmitFor(clientJobId) in inFlight
      requires Valid()
      modifies this
      ensures View() == FinishSubmit(Taken(old(View()), SubmitFor(clientJobId)), clientJobId, reply, saved)
      ensures SheetSafe() && (FreshIds(old(history), Event.SubmitReplied(clientJobId, reply, saved)) ==> Valid())
    {
      hide WriteInv, LockInv, JobInv;
      FreshEventKept(View(), Event.SubmitReplied(clientJobId, reply, saved));
      hide AcceptedSubmit, RefusedSubmit, UnconfirmedSubmit;
      inFlight := inFlight - multiset{SubmitFor(clientJobId)};
      if s.clientJobId != clientJobId || s.jobId != clientJobId {
        return;
      }
      match reply {
        case Submitted(id, job) =>
          if id == "" {
            SubmitFailed(false, saved);
          } else {
            SubmitAnswered(id, job, saved);
          }
        case SubmitError(refused) =>
          SubmitFailed(refused, saved);
      }
    }

    method TimerFired(jobId: string)
      requires jobId in timers
      requires Valid()
      modifies this
      ensures View() == Fire(old(View()), jobId)
      ensures Valid()
    {
      hide WriteInv, LockInv, JobInv;
      EventKept(View(), Event.TimerFired(jobId));
      timers := timers - multiset{jobId};
      if s.jobId != jobId || !s.busy || s.paused {
        s := s.(pollScheduled := false);
        return;
      }
      inFlight := inFlight + multiset{PollFor(jobId)};
    }

    method StopWaiting(saved: bool)
      modifies this
      ensures View() == Pause(old(View()), saved)
      ensures old(Valid()) ==> Valid()
    {
      hide WriteInv, LockInv, JobInv;
      if Valid() {
        EventKept(View(), Event.StopWaiting(saved));
      }
      if s.jobId == "" {
        return;
      }
      s := s.(paused := true);
      Persist(saved);
    }

    method PollAnswered(job: Job, saved: bool)
      modifies this
      ensures View() == ApplyPoll(old(View()), job, saved)
    {
      hide Ledger.FinishJob, CancelOrPoll;
      var jobId := s.jobId;
      s := s.(pending := None, submissionPending := false, pollErrors := 0);
      if s.paused && (job.status == Queued || job.status == Running) {
        return;
      }
      FinishJob(jobId, job, saved);
      AfterAnswer(ThenJob(jobId), saved);
    }

    method PollFailed(gone: bool, saved: bool)
      modifies this
      ensures View() == FailPoll(old(View()), gone, saved)
    {
      hide Ledger.PollJob, Pause;
      if s.paused {
        return;
      }
      if gone && !s.submissionPending {
        history := history.(outcomes := history.outcomes + [s.jobId]);
        s := s.(jobId := "", status := Interrupted, busy := false, pending := None);
        Persist(saved);
      } else {
        s := s.(pollErrors := s.pollErrors + 1);
        if s.pollErrors > MAX_POLL_ERRORS {
          StopWaiting(saved);
          return;
        }
        PollJob(s.jobId);
      }
    }

    method PollReplied(jobId: string, reply: PollReply, saved: bool)
      requires PollFor(jobId) in inFlight
      requires Valid()
      modifies this
      ensures View() == FinishPoll(Taken(old(View()), PollFor(jobId)), jobId, reply, saved)
      ensures Valid()
    {
      hide WriteInv, LockInv, JobInv;
      EventKept(View(), Event.PollReplied(jobId, reply, saved));
      hide ApplyPoll, FailPoll;
      inFlight := inFlight - multiset{PollFor(jobId)};
      s := s.(pollScheduled := false);
      if s.jobId != jobId {
        return;
      }
      match reply {
        case Polled(job) => PollAnswered(job, saved);
        case PollError(gone) => PollFailed(gone, saved);
      }
    }

    method Lose()
      modifies this
      ensures View() == LoseJob(old(View()))
    {
      history := history.(outcomes := history.outcomes + [s.jobId]);
      s := s.(jobId := "", pending := None, status := Interrupted, busy := false);
    }

    method CancelAnswer(jobId: string, reply: CancelReply, saved: bool)
      modifies this
      ensures View() == AnswerCancel(old(View()), jobId, reply, saved)
    {
      hide Ledger.FinishJob, Ledger.PollJob, LoseJob;
      if s.jobId != jobId {
        return;
      }
      match reply {
        case CancelAnswered(job) =>
          FinishJob(jobId, job, saved);
          if s.busy {
            PollJob(s.jobId);
          }
        case CancelMissing =>
          if s.submissionPending {
            return;
          }
          Lose();
        case CancelGone => Lose();
        case CancelError =>
      }
    }

    // A handler that waited for the cancel goes on where it left off.
    method CancelReplied(jobId: string, resume: Resume, reply: CancelReply, saved: bool)
      requires CancelFor(jobId, resume) in inFlight
      requires Valid()
      modifies this
      ensures View() == FinishCancel(Taken(old(View()), CancelFor(jobId, resume)), jobId, resume, reply, saved)
      ensures Valid()
    {
      hide WriteInv, LockInv, JobInv;
      EventKept(View(), Event.CancelReplied(jobId, resume, reply, saved));
      hide AnswerCancel;
      inFlight := inFlight - multiset{CancelFor(jobId, resume)};
      CancelAnswer(jobId, reply, saved);
      if resume.Alone? {
        return;
      }
      if s.busy {
        PollJob(if resume.ThenCurrent? then s.jobId else resume.job);
      }
    }

    method SetResult(rows: Option<nat>, saved: bool)
      requires Valid()
      modifies this
      ensures View() == Step(old(View()), Event.SetResult(rows, saved))
      ensures Valid()
    {
      hide WriteInv, LockInv, JobInv;
      EventKept(View(), Event.SetResult(rows, saved));
      hide Ledger.FinishJob;
      FinishJob("", Job(Completed, rows), saved);
    }

    method Restore()
      requires Valid()
      modifies this
      ensures View() == Step(old(View()), Event.Restore)
      ensures Valid()
    {
      hide WriteInv, LockInv, JobInv;
      EventKept(View(), Event.Restore);
      if s.jobId != "" && s.busy {
        PollJob(s.jobId);
      }
    }

    // ---- materials: an import, an update or a deletion

    method ChangeMaterials()
      requires Valid()
      modifies this
      ensures View() == StartMaterials(old(View()))
      ensures Valid()
    {
      hide WriteInv, LockInv, JobInv;
      EventKept(View(), MaterialsStarted);
      if s.busy {
        return;
      }
      s := s.(busy := true);
      inFlight := inFlight + multiset{MaterialsChange};
    }

    method MaterialsChanged(failed: bool, saved: bool)
      requires MaterialsChange in inFlight
      requires Valid()
      modifies this
      ensures View() == EndMaterials(Taken(old(View()), MaterialsChange), failed, saved)
      ensures Valid()
    {
      hide WriteInv, LockInv, JobInv, Ledger.Persist;
      EventKept(View(), MaterialsEnded(failed, saved));
      inFlight := inFlight - multiset{MaterialsChange};
      s := s.(busy := false);
      if !failed {
        Persist(saved);
        inFlight := inFlight + multiset{MaterialsCheck};
      }
    }

    method MaterialsChecked(failed: bool)
      requires MaterialsCheck in inFlight
      requires Valid()
      modifies this
      ensures View() == EndCheck(Taken(old(View()), MaterialsCheck), failed)
      ensures Valid()
    {
      hide WriteInv, LockInv, JobInv;
      EventKept(View(), Event.MaterialsChecked(failed));
      inFlight := inFlight - multiset{MaterialsCheck};
      if failed {
        s := s.(busy := false);
      }
    }

    // ---- the sheet

    method SetIncludeHeaders(shown: bool, saved: bool)
      requires Valid()
      modifies this
      ensures View() == SetHeaders(old(View()), shown, saved)
      ensures Valid()
    {
      hide WriteInv, LockInv, JobInv;
      EventKept(View(), Event.SetIncludeHeaders(shown, saved));
      if s.write.report == Some(true) || s.write.status == WriteInterrupted {
        return;
      }
      s := s.(includeHeaders := shown, write := s.write.(target := false, status := NotWritten));
      Persist(saved);
    }

    // `blank` is whether the target range resolves and is empty.
    method InspectTargetRange(blank: bool)
      requires Valid()
      modifies this`s
      ensures View() == Inspect(old(View()), blank)
      ensures s.write.target <==> if Locked(old(s)) then old(s).write.target else blank && HasRows(old(s))
      ensures Valid()
    {
      hide WriteInv, LockInv, JobInv;
      EventKept(View(), InspectTarget(blank));
      InspectConfirms(View(), blank);
      hide Locked, HasRows;
      if s.write.status == WriteInterrupted {
        return;
      }
      if s.write.report == Some(true) {
        return;
      }
      if s.result.None? || s.result.value.rows == 0 {
        s := s.(write := s.write.(target := false, status := WriteFailed));
        return;
      }
      if blank {
        s := s.(write := s.write.(target := true, status := Ready));
      } else {
        s := s.(write := s.write.(target := false, status := WriteFailed));
      }
    }

    method FailSheet(savedAfter: bool)
      modifies this
      ensures View() == FailWrite(old(View()), savedAfter)
    {
      s := s.(write := s.write.(writing := false, status := WriteFailed));
      Persist(savedAfter);
    }

    // The whole call is one step of the client: nothing else runs while the sheet is written.  A pane
    // that dies in it leaves only what storage had, so the fields are those the next pane loads.
    method WriteToSheet(savedBefore: bool, sheet: SheetCall, savedAfter: bool)
      requires Valid()
      modifies this
      ensures View() == Write(old(View()), savedBefore, sheet, savedAfter)
      ensures Valid()
    {
      hide WriteInv, LockInv, JobInv;
      EventKept(View(), Event.WriteToSheet(savedBefore, sheet, savedAfter));
      hide EndCall, FailWrite;
      if s.status != Completed || s.result.None? || s.result.value.rows == 0 {
        return;
      }
      if s.write.report == Some(true) || s.write.status == WriteInterrupted || s.write.writing || !s.write.target {
        return;
      }
      s := s.(write := s.write.(writing := true, status := Writing));
      if sheet.Unavailable? {
        FailSheet(savedAfter);
        return;
      }
      Persist(savedBefore);
      if !savedBefore {
        FailSheet(savedAfter);
        return;
      }
      CallSheet(sheet, savedAfter);
    }

    method CallSheet(sheet: SheetCall, savedAfter: bool)
      requires s.result.Some? && !sheet.Unavailable?
      modifies this
      ensures View() == EndCall(old(View()), sheet, savedAfter)
    {
      hide Load, FailWrite, Reopened, Ledger.Persist;
      match sheet {
        case Threw => FailSheet(savedAfter);
        case Reported(success) =>
          if success {
            history := history.(writes := history.writes + [s.result.value]);
          }
          s := s.(write := s.write.(writing := false, status := Written, report := Some(success)));
          Persist(savedAfter);
        case Died(wrote) =>
          if wrote {
            history := history.(writes := history.writes + [s.result.value]);
          }
          Reload();
      }
    }

    method Reload()
      modifies this
      ensures View() == Reopened(old(View()))
      ensures old(Valid()) ==> Valid()
    {
      hide WriteInv, LockInv, JobInv, Load;
      ReopenedIsValid(View());
      s := Load(store);
      inFlight, timers := multiset{}, multiset{};
      history := history.(outcomes := []);
    }
  }
}
