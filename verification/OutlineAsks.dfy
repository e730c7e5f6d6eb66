/** That the outline client sets no second poll timer for a job, so long as ids are not reused. */
module OutlineAsks {
  import opened Options
  import opened Outline
  import opened OutlineGate

  // The id an event brings up: the one the client makes for a submit, or the one the server gives.
  function Named(e: Event): set<string> {
    match e
    case Submit(suffix, _) => {"job_outline_" + suffix}
    case SubmitReplied(_, Submitted(id, _), _) => {id}
    case _ => {}
  }

  function Names(es: seq<Event>): set<string>
    decreases |es|
  {
    if es == [] then {} else Names(es[..|es| - 1]) + Named(es[|es| - 1])
  }

  predicate FreshNow(names: set<string>, e: Event) {
    match e
    case Submit(suffix, _) => "job_outline_" + suffix !in names
    case SubmitReplied(id, Submitted(id', _), _) => id' == "" || id' == id || id' !in names
    case _ => true
  }

  // Ids are not reused: each is new, but that the server may keep the client's.
  predicate FreshJobs(es: seq<Event>)
    decreases |es|
  {
    es == [] || (FreshJobs(es[..|es| - 1]) && FreshNow(Names(es[..|es| - 1]), es[|es| - 1]))
  }

  // No job has two timers, and the timer of the current job is the one noted.
  ghost predicate OneTimer(w: World) {
    && (forall j :: w.timers[j] <= 1)
    && (w.pane.jobId in w.timers ==> w.pane.pollScheduled == Some(w.pane.jobId))
  }

  // Every id about is one that was brought up, and a busy pane has one.
  ghost predicate Known(names: set<string>, w: World) {
    && (w.pane.jobId != "" ==> w.pane.jobId in names) && (w.pane.busy ==> w.pane.jobId != "")
    && (w.store.Some? && w.store.value.jobId != "" ==> w.store.value.jobId in names)
    && (forall j :: j in w.timers ==> j in names) && "" !in w.timers
  }

  ghost predicate AsksInv(names: set<string>, w: World) {
    OneTimer(w) && Known(names, w)
  }

  // The pane has the same job and timers, or none any more, and may have been saved.
  ghost predicate Calm(w: World, w': World) {
    && (w'.pane.jobId == w.pane.jobId || w'.pane.jobId == "") && (w'.pane.busy ==> w.pane.busy && w'.pane.jobId != "")
    && w'.timers == w.timers && w'.pane.pollScheduled == w.pane.pollScheduled
    && (w'.store == w.store || (w'.store.Some? && w'.store.value.jobId == w'.pane.jobId))
  }

  lemma CalmKeeps(names: set<string>, w: World, w': World)
    requires AsksInv(names, w) && Calm(w, w')
    ensures AsksInv(names, w')
  {
  }

  lemma MoreNames(names: set<string>, more: set<string>, w: World)
    requires AsksInv(names, w)
    ensures AsksInv(names + more, w)
  {
  }

  lemma ScheduleKeeps(names: set<string>, w: World, jobId: string)
    requires AsksInv(names, w)
    ensures AsksInv(names, SchedulePoll(w, jobId))
  {
  }

  lemma StartsCalm(w: World, expected: string)
    requires w.pane.busy ==> w.pane.jobId != ""
    ensures Calm(w, StartPoll(w, expected)) && Calm(w, StartCancel(w))
  {
  }

  lemma PersistCalm(w: World, p: Pane, saved: bool)
    requires p.jobId == w.pane.jobId || p.jobId == ""
    requires (p.busy ==> w.pane.busy && p.jobId != "") && p.pollScheduled == w.pane.pollScheduled
    ensures Calm(w, Persist(w.(pane := p), saved))
  {
  }

  // The job takes an id that has no timer.
  lemma RenamedKeeps(names: set<string>, w: World, p: Pane, saved: bool)
    requires AsksInv(names, w) && p.jobId != "" && p.pollScheduled == w.pane.pollScheduled
    requires p.jobId !in names
    ensures AsksInv(names + {p.jobId}, Persist(w.(pane := p), saved))
  {
  }

  lemma SubmitKeeps(names: set<string>, w: World, suffix: string, saved: bool)
    requires AsksInv(names, w) && "job_outline_" + suffix !in names
    ensures AsksInv(names + {"job_outline_" + suffix}, StartSubmit(w, suffix, saved))
  {
    hide Persist, StartPoll, AsksInv;
    var p, jobId := w.pane, "job_outline_" + suffix;
    if p.busy && p.pollPaused {
      var w' := w.(pane := p.(pollPaused := false, pollErrors := 0));
      BusyHasJob(names, w);
      CalmKeeps(names, w, w');
      StartsCalm(w', p.jobId);
      CalmKeeps(names, w', StartPoll(w', p.jobId));
      MoreNames(names, {jobId}, StartPoll(w', p.jobId));
    } else if p.busy {
      MoreNames(names, {jobId}, w);
    } else {
      var p' := p.(pollPaused := false, pollErrors := 0, cancelRequested := false, result := None,
                   gate := ClearedGate(p), busy := true, status := Running, jobId := jobId);
      RenamedKeeps(names, w, p', saved);
      OnlyRequests(names + {jobId}, Persist(w.(pane := p'), saved), StartSubmit(w, suffix, saved));
    }
  }

  lemma BusyHasJob(names: set<string>, w: World)
    requires AsksInv(names, w)
    ensures w.pane.busy ==> w.pane.jobId != ""
  {
  }

  lemma OnlyRequests(names: set<string>, w: World, w': World)
    requires AsksInv(names, w) && w'.pane == w.pane && w'.store == w.store && w'.timers == w.timers
    ensures AsksInv(names, w')
  {
  }

  lemma SubmitReplyKeeps(names: set<string>, w: World, id: string, reply: SubmitReply, saved: bool)
    requires AsksInv(names, w)
    requires reply.Submitted? ==> reply.jobId == "" || reply.jobId == id || reply.jobId !in names
    ensures AsksInv(names + (if reply.Submitted? then {reply.jobId} else {}), FinishSubmit(w, id, reply, saved))
  {
    hide Persist, SchedulePoll, StartCancel, AsksInv;
    var p, more := w.pane, if reply.Submitted? then {reply.jobId} else {};
    MoreNames(names, more, w);
    BusyHasJob(names, w);
    if p.jobId == id && p.busy {
      match reply {
        case Submitted(id', status) =>
          var jobId := if id' == "" then id else id';
          var p' := p.(jobId := jobId, status := if status.None? then Running else status.value);
          var w' := Persist(w.(pane := p'), saved);
          if jobId == id {
            PersistCalm(w, p', saved);
            CalmKeeps(names + more, w, w');
          } else {
            RenamedKeeps(names, w, p', saved);
          }
          BusyHasJob(names + more, w');
          StartsCalm(w', "");
          CalmKeeps(names + more, w', StartCancel(w'));
          ScheduleKeeps(names + more, w', jobId);
        case SubmitError(true) =>
          PersistCalm(w, p, saved);
          assert w.(pane := p) == w;
          CalmKeeps(names + more, w, Persist(w, saved));
          ScheduleKeeps(names + more, Persist(w, saved), id);
        case SubmitError(false) =>
          var p' := p.(busy := false, status := Failed);
          PersistCalm(w, p', saved);
          CalmKeeps(names + more, w, Persist(w.(pane := p'), saved));
      }
    }
  }

  lemma JobKeeps(names: set<string>, w: World, job: Job, saved: bool)
    requires AsksInv(names, w) && w.pane.busy
    ensures AsksInv(names, ApplyJob(w, job, saved))
  {
    hide Persist, SchedulePoll, StartCancel, AsksInv;
    BusyHasJob(names, w);
    var p := w.pane;
    var p' := p.(pollErrors := 0, status := if job.status.None? then p.status else job.status.value);
    if job.status == Some(Completed) {
      var done := p'.(busy := false, result := job.result, gate := ClearedGate(p));
      PersistCalm(w, done, saved);
      CalmKeeps(names, w, Persist(w.(pane := done), saved));
    } else if job.status == Some(Failed) || job.status == Some(Cancelled) {
      PersistCalm(w, p'.(busy := false), saved);
      CalmKeeps(names, w, Persist(w.(pane := p'.(busy := false)), saved));
    } else if p.cancelRequested {
      var w' := w.(pane := p');
      CalmKeeps(names, w, w');
      StartsCalm(w', "");
      CalmKeeps(names, w', StartCancel(w'));
    } else {
      var w' := Persist(w.(pane := p'), saved);
      PersistCalm(w, p', saved);
      CalmKeeps(names, w, w');
      ScheduleKeeps(names, w', p.jobId);
    }
  }

  lemma PollReplyKeeps(names: set<string>, w: World, id: string, reply: PollReply, saved: bool)
    requires AsksInv(names, w)
    ensures AsksInv(names, FinishPoll(w, id, reply, saved))
  {
    hide Persist, SchedulePoll, ApplyJob, AsksInv;
    BusyHasJob(names, w);
    var p := w.pane;
    if p.jobId == id && p.busy {
      match reply {
        case Polled(job) => JobKeeps(names, w, job, saved);
        case PollError(true) =>
          var p' := p.(busy := false, jobId := "", status := Interrupted);
          PersistCalm(w, p', saved);
          CalmKeeps(names, w, Persist(w.(pane := p'), saved));
        case PollError(false) =>
          var errors := p.pollErrors + 1;
          var p' := p.(pollErrors := errors, pollPaused := p.pollPaused || errors >= MAX_POLL_ERRORS);
          PersistCalm(w, p', saved);
          CalmKeeps(names, w, Persist(w.(pane := p'), saved));
          ScheduleKeeps(names, Persist(w.(pane := p'), saved), id);
      }
    }
  }

  lemma CancelReplyKeeps(names: set<string>, w: World, id: string, reply: CancelReply, saved: bool)
    requires AsksInv(names, w)
    ensures AsksInv(names, FinishCancel(w, id, reply, saved))
  {
    hide Persist, SchedulePoll, AsksInv;
    BusyHasJob(names, w);
    var p := w.pane;
    var cancelled, paused := p.(busy := false, status := Cancelled), p.(pollPaused := true);
    PersistCalm(w, cancelled, saved);
    CalmKeeps(names, w, Persist(w.(pane := cancelled), saved));
    PersistCalm(w, paused, saved);
    CalmKeeps(names, w, Persist(w.(pane := paused), saved));
    ScheduleKeeps(names, Persist(w.(pane := paused), saved), id);
  }

  // A timer that fires was the only one of its job.
  lemma FireKeeps(names: set<string>, w: World, id: string)
    requires AsksInv(names, w) && id in w.timers
    ensures AsksInv(names, Fire(w, id))
  {
    hide StartPoll;
    var p := w.pane;
    var p' := if p.pollScheduled == Some(id) then p.(pollScheduled := None) else p;
    var w' := w.(pane := p', timers := w.timers - multiset{id});
    assert AsksInv(names, w');
    StartsCalm(w', id);
    CalmKeeps(names, w', StartPoll(w', id));
  }

  lemma EditCalm(w: World, e: Event)
    requires IsEdit(e) && (w.pane.busy ==> w.pane.jobId != "")
    ensures Calm(w, Step(w, e))
  {
    EditKeepsJobs(w, e);
    StoreExactly(w, e);
    hide Step, Saves;
  }

  lemma ReloadKeeps(names: set<string>, w: World)
    requires AsksInv(names, w)
    ensures AsksInv(names, Step(w, Reload))
  {
  }

  lemma TakenKeeps(names: set<string>, w: World, r: Request)
    requires AsksInv(names, w)
    ensures AsksInv(names, Taken(w, r))
  {
  }

  lemma AsksKept(names: set<string>, w: World, e: Event)
    requires AsksInv(names, w) && FreshNow(names, e)
    ensures AsksInv(names + Named(e), Step(w, e))
  {
    hide FinishSubmit, FinishPoll, FinishCancel, Fire, StartSubmit, StartPoll, StartCancel, AsksInv, Calm;
    BusyHasJob(names, w);
    MoreNames(names, Named(e), w);
    assert names + {} == names;
    match e {
      case Submit(suffix, saved) => SubmitKeeps(names, w, suffix, saved);
      case SubmitReplied(id, reply, saved) =>
        TakenKeeps(names, w, SubmitFor(id));
        SubmitReplyKeeps(names, Taken(w, SubmitFor(id)), id, reply, saved);
      case PollReplied(id, reply, saved) =>
        TakenKeeps(names, w, PollFor(id));
        PollReplyKeeps(names, Taken(w, PollFor(id)), id, reply, saved);
      case CancelReplied(id, reply, saved) =>
        TakenKeeps(names, w, CancelFor(id));
        CancelReplyKeeps(names, Taken(w, CancelFor(id)), id, reply, saved);
      case Poll =>
        StartsCalm(w, "");
        CalmKeeps(names, w, StartPoll(w, ""));
      case Cancel =>
        StartsCalm(w, "");
        CalmKeeps(names, w, StartCancel(w));
      case TimerFired(id) => if id in w.timers { FireKeeps(names, w, id); }
      case Reload =>
        hide Step;
        ReloadKeeps(names, w);
      case _ =>
        hide Step;
        EditCalm(w, e);
        CalmKeeps(names, w, Step(w, e));
    }
  }

  // Over every run in which ids are not reused, reloads and lost saves included, no job has two timers.
  lemma {:induction false} OneTimerAlways(es: seq<Event>)
    requires FreshJobs(es)
    ensures AsksInv(Names(es), Run(Fresh, es))
    decreases |es|
  {
    hide Step, FreshNow, Named;
    if es == [] {
      NothingAsked();
    } else {
      OneTimerAlways(es[..|es| - 1]);
      hide AsksInv;
      AsksKept(Names(es[..|es| - 1]), Run(Fresh, es[..|es| - 1]), es[|es| - 1]);
    }
  }

  lemma NothingAsked()
    ensures AsksInv({}, Run(Fresh, []))
  {
  }

  // ---- nothing is asked but for a job waited for

  // The request is one the pane has cause to make: a submit of the job it has just begun, a poll of the
  // job it waits for, a cancel of the job it was asked to stop.
  predicate IsDue(p: Pane, r: Request) {
    p.busy && r.jobId == p.jobId &&
    match r
    case SubmitFor(_) => p.result.None? && p.status == Running
    case PollFor(_) => !p.pollPaused
    case CancelFor(_) => p.cancelRequested
  }

  // Whatever is new among the requests and timers is due.
  ghost predicate OnlyDue(inFlight: multiset<Request>, timers: multiset<string>, w': World) {
    && (forall r :: w'.inFlight[r] > inFlight[r] ==> IsDue(w'.pane, r))
    && (forall j :: w'.timers[j] > timers[j] ==> IsDue(w'.pane, PollFor(j)))
  }

  lemma NothingNew(inFlight: multiset<Request>, timers: multiset<string>, w: World)
    requires w.inFlight <= inFlight && w.timers <= timers
    ensures OnlyDue(inFlight, timers, w)
  {
    hide IsDue;
  }

  lemma ScheduleDue(inFlight: multiset<Request>, timers: multiset<string>, w: World, jobId: string)
    requires w.inFlight <= inFlight && w.timers <= timers
    ensures OnlyDue(inFlight, timers, SchedulePoll(w, jobId))
  {
  }

  lemma StartDue(inFlight: multiset<Request>, timers: multiset<string>, w: World, expected: string)
    requires w.inFlight <= inFlight && w.timers <= timers
    ensures OnlyDue(inFlight, timers, StartPoll(w, expected)) && OnlyDue(inFlight, timers, StartCancel(w))
  {
  }

  lemma PersistLeaves(w: World, saved: bool)
    ensures Persist(w, saved).inFlight == w.inFlight && Persist(w, saved).timers == w.timers
  {
  }

  lemma SubmitDue(w: World, suffix: string, saved: bool)
    ensures OnlyDue(w.inFlight, w.timers, StartSubmit(w, suffix, saved))
  {
    hide StartPoll;
    var p := w.pane;
    StartDue(w.inFlight, w.timers, w.(pane := p.(pollPaused := false, pollErrors := 0)), p.jobId);
  }

  lemma SubmitReplyDue(inFlight: multiset<Request>, timers: multiset<string>, w: World, id: string, reply: SubmitReply,
                       saved: bool)
    requires w.inFlight <= inFlight && w.timers <= timers
    ensures OnlyDue(inFlight, timers, FinishSubmit(w, id, reply, saved))
  {
    hide Persist, SchedulePoll, StartCancel, OnlyDue;
    var p := w.pane;
    NothingNew(inFlight, timers, w);
    match reply {
      case Submitted(id', status) =>
        var jobId := if id' == "" then id else id';
        var w' := w.(pane := p.(jobId := jobId, status := if status.None? then Running else status.value));
        PersistLeaves(w', saved);
        ScheduleDue(inFlight, timers, Persist(w', saved), jobId);
        StartDue(inFlight, timers, Persist(w', saved), "");
      case SubmitError(_) =>
        PersistLeaves(w, saved);
        ScheduleDue(inFlight, timers, Persist(w, saved), id);
        var w' := w.(pane := p.(busy := false, status := Failed));
        PersistLeaves(w', saved);
        NothingNew(inFlight, timers, Persist(w', saved));
    }
  }

  lemma JobDue(inFlight: multiset<Request>, timers: multiset<string>, w: World, job: Job, saved: bool)
    requires w.inFlight <= inFlight && w.timers <= timers
    ensures OnlyDue(inFlight, timers, ApplyJob(w, job, saved))
  {
    hide Persist, SchedulePoll, StartCancel, OnlyDue;
    var p := w.pane;
    var p' := p.(pollErrors := 0, status := if job.status.None? then p.status else job.status.value);
    var w', failed := w.(pane := p'), w.(pane := p'.(busy := false));
    var done := w.(pane := p'.(busy := false, result := job.result, gate := ClearedGate(p)));
    PersistLeaves(done, saved);
    NothingNew(inFlight, timers, Persist(done, saved));
    PersistLeaves(failed, saved);
    NothingNew(inFlight, timers, Persist(failed, saved));
    PersistLeaves(w', saved);
    StartDue(inFlight, timers, w', "");
    ScheduleDue(inFlight, timers, Persist(w', saved), p.jobId);
  }

  lemma PollReplyDue(inFlight: multiset<Request>, timers: multiset<string>, w: World, id: string, reply: PollReply,
                     saved: bool)
    requires w.inFlight <= inFlight && w.timers <= timers
    ensures OnlyDue(inFlight, timers, FinishPoll(w, id, reply, saved))
  {
    hide Persist, SchedulePoll, ApplyJob, OnlyDue;
    var p := w.pane;
    NothingNew(inFlight, timers, w);
    match reply {
      case Polled(job) => JobDue(inFlight, timers, w, job, saved);
      case PollError(_) =>
        var errors := p.pollErrors + 1;
        var w' := w.(pane := p.(pollErrors := errors, pollPaused := p.pollPaused || errors >= MAX_POLL_ERRORS));
        PersistLeaves(w', saved);
        ScheduleDue(inFlight, timers, Persist(w', saved), id);
        var gone := w.(pane := p.(busy := false, jobId := "", status := Interrupted));
        PersistLeaves(gone, saved);
        NothingNew(inFlight, timers, Persist(gone, saved));
    }
  }

  lemma CancelReplyDue(inFlight: multiset<Request>, timers: multiset<string>, w: World, id: string, reply: CancelReply,
                       saved: bool)
    requires w.inFlight <= inFlight && w.timers <= timers
    ensures OnlyDue(inFlight, timers, FinishCancel(w, id, reply, saved))
  {
    hide Persist, SchedulePoll, OnlyDue;
    var cancelled, paused := w.(pane := w.pane.(busy := false, status := Cancelled)), w.(pane := w.pane.(pollPaused := true));
    NothingNew(inFlight, timers, w);
    PersistLeaves(cancelled, saved);
    NothingNew(inFlight, timers, Persist(cancelled, saved));
    PersistLeaves(paused, saved);
    ScheduleDue(inFlight, timers, Persist(paused, saved), id);
  }

  lemma FireDue(w: World, id: string)
    ensures OnlyDue(w.inFlight, w.timers, Fire(w, id))
  {
    hide StartPoll;
    var p := w.pane;
    var p' := if p.pollScheduled == Some(id) then p.(pollScheduled := None) else p;
    StartDue(w.inFlight, w.timers, w.(pane := p', timers := w.timers - multiset{id}), id);
  }

  lemma ReloadDue(w: World)
    ensures OnlyDue(w.inFlight, w.timers, Step(w, Reload))
  {
    NothingNew(w.inFlight, w.timers, Step(w, Reload));
  }

  // Whatever happens, a request or timer the pane adds is due: it never asks after a job it does not
  // wait for, nor while it is paused.
  lemma EventDue(w: World, e: Event)
    ensures OnlyDue(w.inFlight, w.timers, Step(w, e))
  {
    hide FinishSubmit, FinishPoll, FinishCancel, Fire, StartSubmit, StartPoll, StartCancel, OnlyDue;
    NothingNew(w.inFlight, w.timers, w);
    match e {
      case Submit(suffix, saved) => SubmitDue(w, suffix, saved);
      case SubmitReplied(id, reply, saved) =>
        SubmitReplyDue(w.inFlight, w.timers, Taken(w, SubmitFor(id)), id, reply, saved);
      case PollReplied(id, reply, saved) =>
        PollReplyDue(w.inFlight, w.timers, Taken(w, PollFor(id)), id, reply, saved);
      case CancelReplied(id, reply, saved) =>
        CancelReplyDue(w.inFlight, w.timers, Taken(w, CancelFor(id)), id, reply, saved);
      case TimerFired(id) => FireDue(w, id);
      case Poll => StartDue(w.inFlight, w.timers, w, "");
      case Cancel => StartDue(w.inFlight, w.timers, w, "");
      case Reload =>
        hide Step;
        ReloadDue(w);
      case _ =>
        hide Step;
        EditKeepsJobs(w, e);
        NothingNew(w.inFlight, w.timers, Step(w, e));
    }
  }
}
