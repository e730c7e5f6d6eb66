/** That a job id in the ledger pane means a busy pane: what keeps it, and exactly which events put an
    end to it. */
module LedgerBusy {
  import opened Options
  import opened Ledger
  import opened LedgerJobs

  ghost predicate HeldMeansBusy(p: Pane) {
    p.jobId != "" ==> p.busy
  }

  // A materials change under way has the pane to itself.
  ghost predicate BusyInv(w: World) {
    && HeldMeansBusy(w.pane)
    && (MaterialsChange in w.inFlight ==>
          w.pane.busy && w.pane.jobId == "" && w.inFlight[MaterialsChange] == 1)
  }

  ghost predicate SameMaterials(w: World, w': World) {
    w'.inFlight[MaterialsChange] == w.inFlight[MaterialsChange]
  }

  ghost predicate Untouched(w: World, w': World) {
    SameMaterials(w, w') && w'.pane.jobId == w.pane.jobId && w'.pane.busy == w.pane.busy
  }

  lemma FinishBusy(w: World, source: string, job: Job, saved: bool)
    ensures HeldMeansBusy(FinishJob(w, source, job, saved).pane) && SameMaterials(w, FinishJob(w, source, job, saved))
  {
  }

  lemma CancelBusy(w: World, resume: Resume, saved: bool)
    requires HeldMeansBusy(w.pane)
    ensures var w' := StartCancel(w, resume, saved);
            HeldMeansBusy(w'.pane) && SameMaterials(w, w') && (w.pane.jobId == "" ==> w' == w)
  {
  }

  lemma PollJobBusy(w: World, jobId: string)
    ensures Untouched(w, PollJob(w, jobId))
  {
  }

  lemma AnswerBusy(w: World, source: string, job: Job, resume: Resume, saved: bool)
    ensures var w' := CancelOrPoll(FinishJob(w, source, job, saved), resume, saved);
            HeldMeansBusy(w'.pane) && SameMaterials(w, w')
  {
    hide StartCancel, PollJob, FinishJob;
    var w' := FinishJob(w, source, job, saved);
    FinishBusy(w, source, job, saved);
    CancelBusy(w', resume, saved);
    PollJobBusy(w', w'.pane.jobId);
  }

  // An answer about the pane's own job leaves it busy if it keeps the job.
  lemma OwnReplyBusy(w: World, e: Event)
    requires HeldMeansBusy(w.pane)
    requires match e {
               case ConflictsReplied(id, _, _) => w.pane.jobId == id != ""
               case SubmitReplied(id, _, _) => w.pane.jobId == id != ""
               case PollReplied(id, _, _) => w.pane.jobId == id != ""
               case CancelReplied(id, _, _, _) => w.pane.jobId == id != ""
               case _ => false
             }
    ensures HeldMeansBusy(Step(w, e).pane) && SameMaterials(w, Step(w, e))
  {
    hide FinishPrepare, FinishSubmit, FinishPoll, FinishCancel;
    match e {
      case ConflictsReplied(_, reply, saved) => PrepareBusy(Taken(w, PrepareFor(e.jobId)), reply, saved);
      case SubmitReplied(_, reply, saved) => SubmitBusy(Taken(w, SubmitFor(e.jobId)), reply, saved);
      case PollReplied(_, reply, saved) => PollBusy(Taken(w, PollFor(e.jobId)), reply, saved);
      case CancelReplied(_, resume, reply, saved) =>
        CancelReplyBusy(Taken(w, CancelFor(e.jobId, resume)), resume, reply, saved);
    }
  }

  lemma PrepareBusy(w: World, reply: ConflictsReply, saved: bool)
    ensures var w' := FinishPrepare(w, w.pane.jobId, reply, saved); HeldMeansBusy(w'.pane) && SameMaterials(w, w')
  {
  }

  lemma SubmitBusy(w: World, reply: SubmitReply, saved: bool)
    requires HeldMeansBusy(w.pane)
    ensures var w' := FinishSubmit(w, w.pane.jobId, reply, saved); HeldMeansBusy(w'.pane) && SameMaterials(w, w')
  {
    hide CancelOrPoll, FinishJob, PollJob;
    var p := w.pane.(submissionPending := false, status := Running, busy := true);
    PollJobBusy(Persist(w.(pane := p), saved), p.jobId);
    if reply.Submitted? {
      AnswerBusy(w.(pane := w.pane.(submissionPending := false, jobId := reply.jobId, pending := None),
                    history := w.history.(names := w.history.names + {reply.jobId})),
                 reply.jobId, reply.job, ThenCurrent, saved);
    }
  }

  lemma PollBusy(w: World, reply: PollReply, saved: bool)
    requires HeldMeansBusy(w.pane)
    ensures var w' := FinishPoll(w, w.pane.jobId, reply, saved); HeldMeansBusy(w'.pane) && SameMaterials(w, w')
  {
    hide CancelOrPoll, FinishJob, PollJob;
    if reply.Polled? {
      AnswerBusy(w.(pane := w.pane.(pollScheduled := false, pending := None, submissionPending := false,
                                    pollErrors := 0)), w.pane.jobId, reply.job, ThenJob(w.pane.jobId), saved);
    } else {
      PollJobBusy(w.(pane := w.pane.(pollScheduled := false, pollErrors := w.pane.pollErrors + 1)), w.pane.jobId);
    }
  }

  lemma CancelReplyBusy(w: World, resume: Resume, reply: CancelReply, saved: bool)
    requires HeldMeansBusy(w.pane)
    ensures var w' := FinishCancel(w, w.pane.jobId, resume, reply, saved);
            HeldMeansBusy(w'.pane) && SameMaterials(w, w')
  {
    hide FinishJob, PollJob;
    var w1 := FinishJob(w, w.pane.jobId, if reply.CancelAnswered? then reply.job else Job(Idle, None), saved);
    FinishBusy(w, w.pane.jobId, if reply.CancelAnswered? then reply.job else Job(Idle, None), saved);
    PollJobBusy(w1, w1.pane.jobId);
    var w' := AnswerCancel(w, w.pane.jobId, reply, saved);
    PollJobBusy(w', w'.pane.jobId);
    if resume.ThenJob? {
      PollJobBusy(w', resume.job);
    }
  }

  lemma ReplyBusy(w: World, e: Event)
    requires JobInv(w) && BusyInv(w)
    requires e.ConflictsReplied? || e.SubmitReplied? || e.PollReplied? || e.CancelReplied?
    ensures BusyInv(Step(w, e))
  {
    QueuedFacts(w);
    if w.pane.jobId != e.jobId {
      StrayReplyIgnored(w, e);
      StrayQueue(w, e);
    } else if e.jobId != "" {
      OwnReplyBusy(w, e);
    } else {
      assert Step(w, e) == w;
    }
    hide JobInv, Step;
  }

  lemma StrayQueue(w: World, e: Event)
    requires (e.ConflictsReplied? || e.SubmitReplied? || e.PollReplied? || e.CancelReplied?) && w.pane.jobId != e.jobId
    ensures SameMaterials(w, Step(w, e))
  {
    hide BeginSubmit, FinishJob, CancelOrPoll, PollJob;
    if e.CancelReplied? {
      var w' := Taken(w, CancelFor(e.jobId, e.resume));
      PollJobBusy(w', w'.pane.jobId);
      if e.resume.ThenJob? {
        PollJobBusy(w', e.resume.job);
      }
    }
  }

  lemma ReloadBusy(w: World)
    requires JobInv(w)
    ensures BusyInv(Reopened(w))
  {
    hide HistoryOk, PaneOk, QueueOk, WrittenJob;
  }

  lemma CallFrame(w: World, sheet: SheetCall, savedAfter: bool)
    requires w.pane.result.Some? && !sheet.Unavailable?
    ensures var w' := EndCall(w, sheet, savedAfter);
            if sheet.Died? then w'.pane == Reopened(w).pane && w'.inFlight == multiset{} else Untouched(w, w')
  {
    hide Load;
  }

  lemma SheetFrame(w: World, savedBefore: bool, sheet: SheetCall, savedAfter: bool)
    ensures var w' := Write(w, savedBefore, sheet, savedAfter);
            if MayWrite(w.pane) && savedBefore && sheet.Died?
            then w'.pane == Reopened(Calling(w)).pane && w'.inFlight == multiset{}
            else Untouched(w, w')
  {
    hide Load, EndCall;
    if MayWrite(w.pane) && !sheet.Unavailable? {
      CallFrame(Calling(w), sheet, savedAfter);
    }
  }

  lemma WriteBusy(w: World, e: Event)
    requires JobInv(w) && BusyInv(w) && e.WriteToSheet?
    ensures BusyInv(Step(w, e))
  {
    hide JobInv, Calling, Write;
    SheetFrame(w, e.savedBefore, e.sheet, e.savedAfter);
    if MayWrite(w.pane) && e.savedBefore && e.sheet.Died? {
      CallingKeeps(w);
      ReloadBusy(Calling(w));
    }
  }

  lemma GenerateBusy(w: World, e: Event)
    requires BusyInv(w) && e.Generate?
    ensures BusyInv(Step(w, e))
  {
    hide PollJob;
    PollJobBusy(w.(pane := w.pane.(paused := false, pollErrors := 0)), w.pane.jobId);
  }

  lemma MaterialsBusy(w: World, e: Event)
    requires BusyInv(w) && (e.MaterialsStarted? || e.MaterialsEnded?)
    ensures BusyInv(Step(w, e))
  {
  }

  lemma CheckBusy(w: World, e: Event)
    requires BusyInv(w) && e.MaterialsChecked?
    ensures BusyInv(Step(w, e)) <==> !Disturbs(w, e)
  {
  }

  lemma PaneKeepsBusy(w: World, e: Event)
    requires e.Edit? || e.SetIncludeHeaders? || e.InspectTarget?
    ensures Untouched(w, Step(w, e))
  {
  }

  lemma WaitingBusy(w: World, e: Event)
    requires e.TimerFired? || e.StopWaiting? || e.Restore?
    ensures Untouched(w, Step(w, e))
  {
    hide PollJob, Fire, Pause;
    match e {
      case TimerFired(id) => assert Untouched(w, Fire(w, id)) by { FireBusy(w, id); }
      case StopWaiting(saved) => assert Untouched(w, Pause(w, saved)) by { PauseBusy(w, saved); }
      case Restore => PollJobBusy(w, w.pane.jobId);
    }
  }

  lemma FireBusy(w: World, id: string)
    ensures Untouched(w, Fire(w, id))
  {
  }

  lemma PauseBusy(w: World, saved: bool)
    ensures Untouched(w, Pause(w, saved))
  {
  }

  lemma OtherBusy(w: World, e: Event)
    requires BusyInv(w)
    requires !e.SetResult? && !e.Generate? && !e.WriteToSheet? && !e.Reload? && !e.MaterialsChecked?
    requires !e.ConflictsReplied? && !e.SubmitReplied? && !e.PollReplied? && !e.CancelReplied?
    ensures BusyInv(Step(w, e))
  {
    if e.Cancel? {
      hide StartCancel;
      CancelBusy(w, Alone, e.saved);
    } else if e.MaterialsStarted? || e.MaterialsEnded? {
      MaterialsBusy(w, e);
    } else if e.TimerFired? || e.StopWaiting? || e.Restore? {
      hide Step;
      WaitingBusy(w, e);
    } else {
      hide Step;
      PaneKeepsBusy(w, e);
    }
  }

  // The two events that clear `busy` under somebody else: a result set while materials are changing,
  // and the failure of the check after an earlier change while a job is held or materials change.
  predicate Disturbs(w: World, e: Event) {
    || (e.SetResult? && MaterialsChange in w.inFlight)
    || (e.MaterialsChecked? && e.failed && MaterialsCheck in w.inFlight
        && (w.pane.jobId != "" || MaterialsChange in w.inFlight))
  }

  // With materials changes having the pane to themselves: every other event, and no such one, keeps
  // that and a held job busy.
  lemma BusyInvKeptExactly(w: World, e: Event)
    requires JobInv(w) && BusyInv(w)
    ensures BusyInv(Step(w, e)) <==> !Disturbs(w, e)
  {
    hide JobInv;
    match e {
      case SetResult(_, _) =>
      case MaterialsChecked(_) => CheckBusy(w, e);
      case Generate(_, _, _) => GenerateBusy(w, e);
      case WriteToSheet(_, _, _) => WriteBusy(w, e);
      case Reload => ReloadBusy(w);
      case ConflictsReplied(_, _, _) => ReplyBusy(w, e);
      case SubmitReplied(_, _, _) => ReplyBusy(w, e);
      case PollReplied(_, _, _) => ReplyBusy(w, e);
      case CancelReplied(_, _, _, _) => ReplyBusy(w, e);
      case _ => OtherBusy(w, e);
    }
    hide Step, BusyInv;
  }

  predicate Undisturbed(w: World, es: seq<Event>)
    decreases |es|
  {
    es == [] ||
    (Undisturbed(w, es[..|es| - 1]) && !Disturbs(Run(w, es[..|es| - 1]), es[|es| - 1]))
  }

  lemma {:induction false} HeldIsBusyFrom(w: World, es: seq<Event>)
    requires JobInv(w) && BusyInv(w) && FreshRun(w, es) && Undisturbed(w, es)
    ensures JobInv(Run(w, es)) && BusyInv(Run(w, es))
    decreases |es|
  {
    if es != [] {
      HeldIsBusyFrom(w, es[..|es| - 1]);
      hide Step, JobInv, BusyInv;
      BusyInvKeptExactly(Run(w, es[..|es| - 1]), es[|es| - 1]);
      JobInvKept(Run(w, es[..|es| - 1]), es[|es| - 1]);
    }
  }

  // In every run without the two events a job id means a busy pane.
  lemma HeldIsBusy(es: seq<Event>)
    requires FreshRun(Fresh, es) && Undisturbed(Fresh, es)
    ensures HeldMeansBusy(Run(Fresh, es).pane)
  {
    HeldIsBusyFrom(Fresh, es);
    hide Run, FreshRun, Undisturbed, JobInv;
  }

  // ---- each of the two events does put an end to it

  // Without any further such event, the run may go on to a job id in a pane that is not busy.
  ghost predicate Exposed(w: World) {
    exists es :: Exposes(w, es)
  }

  ghost predicate Exposes(w: World, es: seq<Event>) {
    FreshRun(w, es) && Undisturbed(w, es) && !HeldMeansBusy(Run(w, es).pane)
  }

  lemma {:induction false} LongName(names: set<string>) returns (n: nat)
    ensures forall name :: name in names ==> |name| < n
    decreases |names|
  {
    if names == {} {
      n := 0;
    } else {
      var name :| name in names;
      var m := LongName(names - {name});
      n := if m > |name| then m else |name| + 1;
      assert names == (names - {name}) + {name};
    }
  }

  lemma NewName(names: set<string>) returns (id: string)
    ensures id != "" && id !in names
  {
    var n := LongName(names);
    id := seq(n + 1, _ => 'a');
  }

  lemma IdleHasNoPending(w: World)
    requires JobInv(w) && w.pane.jobId == ""
    ensures w.pane.pending.None?
  {
    hide StoreOk, QueueOk, ResultOk, WrittenJob;
  }

  // A job started while materials change loses `busy` when the change ends.
  lemma StartThenEnd(w: World, id: string)
    requires !w.pane.busy && w.pane.jobId == "" && w.pane.pending.None? && MaterialsChange in w.inFlight && id != ""
    ensures var w' := Step(w, Generate(id, true, true));
            && !Disturbs(w, Generate(id, true, true)) && !Disturbs(w', MaterialsEnded(true, true))
            && !HeldMeansBusy(Step(w', MaterialsEnded(true, true)).pane)
  {
  }

  lemma GoesOn(w: World, es: seq<Event>, e: Event)
    requires FreshRun(w, es) && Undisturbed(w, es)
    requires FreshIds(Run(w, es).history, e) && !Disturbs(Run(w, es), e)
    ensures FreshRun(w, es + [e]) && Undisturbed(w, es + [e]) && Run(w, es + [e]) == Step(Run(w, es), e)
  {
    hide Step, Disturbs, FreshIds;
    assert (es + [e])[..|es|] == es;
  }

  lemma StandsStill(w: World)
    ensures FreshRun(w, []) && Undisturbed(w, []) && Run(w, []) == w
  {
  }

  lemma DisturbanceExposes(w: World, e: Event)
    requires JobInv(w) && BusyInv(w) && FreshIds(w.history, e) && Disturbs(w, e)
    ensures Exposed(Step(w, e))
  {
    hide JobInv, BusyInv, Step, Disturbs, Run, FreshRun, Undisturbed, HeldMeansBusy;
    var w' := Step(w, e);
    JobInvKept(w, e);
    Disturbed(w, e);
    StandsStill(w');
    if !HeldMeansBusy(w'.pane) {
      assert Exposes(w', []);
    } else {
      IdleHasNoPending(w');
      var id := NewName(w'.history.names);
      StartThenEnd(w', id);
      GoesOn(w', [], Generate(id, true, true));
      GoesOn(w', [] + [Generate(id, true, true)], MaterialsEnded(true, true));
      assert Exposes(w', [] + [Generate(id, true, true)] + [MaterialsEnded(true, true)]);
    }
  }

  lemma Disturbed(w: World, e: Event)
    requires BusyInv(w) && Disturbs(w, e)
    ensures var w' := Step(w, e);
            !HeldMeansBusy(w'.pane) || (!w'.pane.busy && w'.pane.jobId == "" && MaterialsChange in w'.inFlight)
  {
  }

  // Of all events it is exactly the two that expose a pane to holding a job without being busy: at
  // once, or as soon as a job is started and the change it overlaps ends.
  lemma BusyLostExactly(w: World, e: Event)
    requires JobInv(w) && BusyInv(w) && FreshIds(w.history, e)
    ensures Exposed(Step(w, e)) <==> Disturbs(w, e)
  {
    if Disturbs(w, e) {
      DisturbanceExposes(w, e);
    } else {
      BusyInvKeptExactly(w, e);
      JobInvKept(w, e);
      hide Step, JobInv, Disturbs, Run, FreshRun, Undisturbed;
      forall es | FreshRun(Step(w, e), es) && Undisturbed(Step(w, e), es)
        ensures HeldMeansBusy(Run(Step(w, e), es).pane)
      {
        HeldIsBusyFrom(Step(w, e), es);
      }
    }
  }

  // Materials are changed, a job is started while the check after the change is out, the check fails.
  const BUSY_LOST: seq<Event> :=
    [MaterialsStarted, MaterialsEnded(false, true), Generate("a", true, true), MaterialsChecked(true)]

  lemma Changed(w: World)
    requires !w.pane.busy && w.pane.jobId == "" && w.pane.pending.None?
    requires w.inFlight == multiset{} && w.history.names == {}
    ensures var w' := Step(Step(w, MaterialsStarted), MaterialsEnded(false, true));
            && !w'.pane.busy && w'.pane.jobId == "" && w'.pane.pending.None? && w'.inFlight == multiset{MaterialsCheck}
            && w'.history.names == {}
  {
  }

  lemma Overlapped(w: World)
    requires !w.pane.busy && w.pane.jobId == "" && w.pane.pending.None? && w.inFlight == multiset{MaterialsCheck}
    ensures !HeldMeansBusy(Step(Step(w, Generate("a", true, true)), MaterialsChecked(true)).pane)
  {
  }

  lemma HeldNotBusy()
    ensures FreshRun(Fresh, BUSY_LOST) && !HeldMeansBusy(Run(Fresh, BUSY_LOST).pane)
  {
    var w := Opened();
    hide Run, FreshRun, Step, HeldMeansBusy;
    RunThen([], BUSY_LOST[0]);
    RunThen([] + [BUSY_LOST[0]], BUSY_LOST[1]);
    Changed(w);
    RunThen([] + [BUSY_LOST[0]] + [BUSY_LOST[1]], BUSY_LOST[2]);
    RunThen([] + [BUSY_LOST[0]] + [BUSY_LOST[1]] + [BUSY_LOST[2]], BUSY_LOST[3]);
    Overlapped(Run(Fresh, [] + [BUSY_LOST[0]] + [BUSY_LOST[1]]));
    assert [] + [BUSY_LOST[0]] + [BUSY_LOST[1]] + [BUSY_LOST[2]] + [BUSY_LOST[3]] == BUSY_LOST;
  }

  lemma RunThen(es: seq<Event>, e: Event)
    requires FreshRun(Fresh, es) && FreshIds(Run(Fresh, es).history, e)
    ensures FreshRun(Fresh, es + [e]) && Run(Fresh, es + [e]) == Step(Run(Fresh, es), e)
  {
    assert (es + [e])[..|es|] == es;
    hide Step;
  }

  lemma Opened() returns (w: World)
    ensures FreshRun(Fresh, []) && Run(Fresh, []) == w == Fresh
    ensures w.pane.jobId == "" && !w.pane.busy && w.pane.pending.None? && !w.pane.pollScheduled
    ensures w.inFlight == multiset{} && w.timers == multiset{} && w.history.names == {}
  {
    w := Fresh;
  }
}
