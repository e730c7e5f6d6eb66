/** What each reply and each edit comes to in the outline pane, and exactly which replies end a job. */
module OutlineAnswers {
  import opened Options
  import opened Outline
  import opened OutlineGate

  // ---- replies

  function Replied(e: Event): Option<Request> {
    match e
    case SubmitReplied(id, _, _) => Some(SubmitFor(id))
    case PollReplied(id, _, _) => Some(PollFor(id))
    case CancelReplied(id, _, _) => Some(CancelFor(id))
    case _ => None
  }

  // The reply is to a request in flight for the job the pane is busy with.
  predicate Current(w: World, e: Event) {
    Replied(e).Some? && Replied(e).value in w.inFlight && Replied(e).value.jobId == w.pane.jobId && w.pane.busy
  }

  // The pane waits for its job: by its timer, or, if it was asked to stop it, by a cancel in flight.
  predicate Waiting(w: World, w': World) {
    var p := w'.pane;
    && p.busy
    && (w.pane.cancelRequested && p.jobId != "" ==> w'.inFlight[CancelFor(p.jobId)] > 0)
    && (!w.pane.cancelRequested && !p.pollPaused ==> p.pollScheduled == Some(p.jobId))
  }

  ghost predicate Shows(w: World, e: Event, w': World) {
    var p, p' := w.pane, w'.pane;
    match e
    case SubmitReplied(id, Submitted(id', status), _) =>
      && p'.jobId == (if id' == "" then id else id') && p'.status == (if status.None? then Running else status.value)
      && p'.result == p.result && Waiting(w, w')
    case SubmitReplied(id, SubmitError(true), _) =>
      && p' == p.(pollScheduled := p'.pollScheduled) && (!p.pollPaused ==> p'.pollScheduled == Some(id))
    case SubmitReplied(_, SubmitError(false), _) => p' == p.(busy := false, status := Failed)
    case PollReplied(_, Polled(job), _) =>
      && p'.jobId == p.jobId && p'.status == (if job.status.None? then p.status else job.status.value)
      && p'.pollErrors == 0 && p'.result == (if job.status == Some(Completed) then job.result else p.result)
      && (if IsOver(job) then !p'.busy else Waiting(w, w'))
      && (job.status == Some(Completed) ==>
            p'.gate.confirmation == Unconfirmed && p'.gate.confirmed.None? && !p'.gate.basisWarning)
    case PollReplied(_, PollError(true), _) => p' == p.(busy := false, jobId := "", status := Interrupted)
    case PollReplied(id, PollError(false), _) =>
      && p' == p.(pollErrors := p.pollErrors + 1, pollPaused := p.pollPaused || p.pollErrors >= 2,
                  pollScheduled := p'.pollScheduled)
      && (!p'.pollPaused ==> p'.pollScheduled == Some(id))
    case CancelReplied(_, CancelConfirmed, _) => p' == p.(busy := false, status := Cancelled)
    case CancelReplied(_, CancelUnconfirmed, _) => p' == p.(pollPaused := true)
    case _ => true
  }

  lemma Schedules(w: World, jobId: string)
    requires w.pane.busy && w.pane.jobId == jobId
    ensures var p := SchedulePoll(w, jobId).pane;
            p == w.pane.(pollScheduled := p.pollScheduled) && (!p.pollPaused ==> p.pollScheduled == Some(jobId))
  {
  }

  lemma Cancels(w: World)
    requires w.pane.busy && w.pane.cancelRequested
    ensures StartCancel(w).pane == w.pane
    ensures w.pane.jobId != "" ==> StartCancel(w).inFlight[CancelFor(w.pane.jobId)] > 0
  {
  }

  lemma PersistKeeps(w: World, saved: bool)
    ensures Persist(w, saved).pane == w.pane
  {
  }

  lemma SubmitShows(w: World, id: string, reply: SubmitReply, saved: bool)
    requires w.pane.jobId == id && w.pane.busy
    ensures Shows(w, SubmitReplied(id, reply, saved), FinishSubmit(w, id, reply, saved))
    ensures var p, p' := w.pane, FinishSubmit(w, id, reply, saved).pane;
            p'.draft == p.draft && p'.gate == p.gate && p'.result == p.result
  {
    hide Persist, SchedulePoll, StartCancel;
    var p := w.pane;
    match reply {
      case Submitted(id', status) =>
        var jobId := if id' == "" then id else id';
        var p' := p.(jobId := jobId, status := if status.None? then Running else status.value);
        PersistKeeps(w.(pane := p'), saved);
        if p.cancelRequested {
          Cancels(Persist(w.(pane := p'), saved));
        } else {
          Schedules(Persist(w.(pane := p'), saved), jobId);
        }
      case SubmitError(true) =>
        PersistKeeps(w, saved);
        Schedules(Persist(w, saved), id);
      case SubmitError(false) => PersistKeeps(w.(pane := p.(busy := false, status := Failed)), saved);
    }
  }

  lemma JobShows(w: World, job: Job, saved: bool)
    requires w.pane.busy
    ensures Shows(w, PollReplied(w.pane.jobId, Polled(job), saved), ApplyJob(w, job, saved))
    ensures var p, p' := w.pane, ApplyJob(w, job, saved).pane;
            p'.draft == p.draft && (job.status != Some(Completed) ==> p'.gate == p.gate && p'.result == p.result)
  {
    hide Persist, SchedulePoll, StartCancel;
    var p := w.pane;
    var p' := p.(pollErrors := 0, status := if job.status.None? then p.status else job.status.value);
    PersistKeeps(w.(pane := p'), saved);
    PersistKeeps(w.(pane := p'.(busy := false, result := job.result, gate := ClearedGate(p))), saved);
    PersistKeeps(w.(pane := p'.(busy := false)), saved);
    if !IsOver(job) {
      if p.cancelRequested {
        Cancels(w.(pane := p'));
      } else {
        Schedules(Persist(w.(pane := p'), saved), p.jobId);
      }
    }
  }

  lemma PollShows(w: World, id: string, reply: PollReply, saved: bool)
    requires w.pane.jobId == id && w.pane.busy
    ensures Shows(w, PollReplied(id, reply, saved), FinishPoll(w, id, reply, saved))
    ensures var p, p' := w.pane, FinishPoll(w, id, reply, saved).pane;
            p'.draft == p.draft && (reply.PollError? || reply.job.status != Some(Completed) ==> p'.gate == p.gate && p'.result == p.result)
  {
    hide Persist, SchedulePoll, ApplyJob;
    var p := w.pane;
    match reply {
      case Polled(job) => JobShows(w, job, saved);
      case PollError(true) => PersistKeeps(w.(pane := p.(busy := false, jobId := "", status := Interrupted)), saved);
      case PollError(false) =>
        var errors := p.pollErrors + 1;
        var p' := p.(pollErrors := errors, pollPaused := p.pollPaused || errors >= MAX_POLL_ERRORS);
        PersistKeeps(w.(pane := p'), saved);
        Schedules(Persist(w.(pane := p'), saved), id);
    }
  }

  lemma CancelShows(w: World, id: string, reply: CancelReply, saved: bool)
    requires w.pane.jobId == id && w.pane.busy
    ensures Shows(w, CancelReplied(id, reply, saved), FinishCancel(w, id, reply, saved))
    ensures var p, p' := w.pane, FinishCancel(w, id, reply, saved).pane;
            p'.draft == p.draft && p'.gate == p.gate && p'.result == p.result
  {
    hide Save;
  }

  lemma ShowsTaken(w: World, r: Request, e: Event, w': World)
    ensures Shows(Taken(w, r), e, w') <==> Shows(w, e, w')
  {
  }

  // A reply for the job the pane is busy with is what the pane then shows, and nothing else changes.
  lemma RepliesShow(w: World, e: Event)
    requires Current(w, e)
    ensures Shows(w, e, Step(w, e)) && Step(w, e).pane.draft == w.pane.draft
    ensures !Closes(w, e) ==> Step(w, e).pane.gate == w.pane.gate && Step(w, e).pane.result == w.pane.result
  {
    ShowsTaken(w, Replied(e).value, e, Step(w, e));
    hide Shows, FinishSubmit, FinishPoll, FinishCancel;
    match e {
      case SubmitReplied(id, reply, saved) => SubmitShows(Taken(w, SubmitFor(id)), id, reply, saved);
      case PollReplied(id, reply, saved) => PollShows(Taken(w, PollFor(id)), id, reply, saved);
      case CancelReplied(id, reply, saved) => CancelShows(Taken(w, CancelFor(id)), id, reply, saved);
    }
  }

  // ---- which events end a job

  // The job is over: a poll says so or that it is gone, its submit is refused, or its cancel confirmed.
  predicate Ends(w: World, e: Event) {
    Current(w, e) &&
    match e
    case SubmitReplied(_, reply, _) => reply == SubmitError(false)
    case PollReplied(_, Polled(job), _) => IsOver(job)
    case PollReplied(_, PollError(gone), _) => gone
    case CancelReplied(_, reply, _) => reply == CancelConfirmed
    case _ => false
  }

  lemma PollsStayBusy(w: World)
    ensures StartPoll(w, w.pane.jobId).pane == w.pane && StartPoll(w, "").pane == w.pane
    ensures StartCancel(w).pane.busy == w.pane.busy
  {
  }

  lemma FireStaysBusy(w: World, id: string)
    ensures Fire(w, id).pane.busy == w.pane.busy
  {
  }

  lemma SubmitStaysBusy(w: World, suffix: string, saved: bool)
    requires w.pane.busy
    ensures StartSubmit(w, suffix, saved).pane.busy
  {
    hide StartPoll;
    var p := w.pane.(pollPaused := false, pollErrors := 0);
    PollsStayBusy(w.(pane := p));
  }

  lemma StrayReply(w: World, e: Event)
    requires Replied(e).Some? && !Current(w, e) && w.pane.busy
    ensures Step(w, e).pane == w.pane && Step(w, e).store == w.store && Step(w, e).timers == w.timers
  {
  }

  // Within a pane's life a busy pane lets go of its job on exactly those replies; every other event,
  // a stray reply included, leaves it busy.
  lemma EndsExactly(w: World, e: Event)
    requires w.pane.busy && !e.Reload?
    ensures !Step(w, e).pane.busy <==> Ends(w, e)
  {
    hide FinishSubmit, FinishPoll, FinishCancel, StartSubmit, StartPoll, StartCancel, Fire, Shows;
    PollsStayBusy(w);
    if Replied(e).Some? {
      if Current(w, e) {
        RepliesShow(w, e);
        hide Step;
        EndsShown(w, e, Step(w, e));
      } else {
        StrayReply(w, e);
        hide Step;
      }
    } else {
      match e {
        case Submit(suffix, saved) => SubmitStaysBusy(w, suffix, saved);
        case TimerFired(id) => FireStaysBusy(w, id);
        case Poll =>
        case Cancel =>
        case _ =>
          hide Step;
          EditKeepsJobs(w, e);
      }
    }
  }

  lemma EndsShown(w: World, e: Event, w': World)
    requires Current(w, e) && Shows(w, e, w')
    ensures !w'.pane.busy <==> Ends(w, e)
  {
  }

  // ---- edits

  // The choices for the other conflicts, in the order they were made.
  function Elsewhere(rs: seq<Resolution>, conflictId: string): seq<Resolution> {
    if rs == [] then []
    else
      var before, last := Elsewhere(rs[..|rs| - 1], conflictId), rs[|rs| - 1];
      if last.conflictId == conflictId then before else before + [last]
  }

  lemma {:induction false} WithoutAppend(rs: seq<Resolution>, r: Resolution, conflictId: string)
    ensures WithoutConflict(rs + [r], conflictId) ==
            WithoutConflict(rs, conflictId) + (if r.conflictId == conflictId then [] else [r])
  {
    if rs == [] {
      assert WithoutConflict([r][1..], conflictId) == [];
    } else {
      WithoutAppend(rs[1..], r, conflictId);
      assert (rs + [r])[1..] == rs[1..] + [r];
    }
  }

  lemma {:induction false} WithoutIsElsewhere(rs: seq<Resolution>, conflictId: string)
    ensures WithoutConflict(rs, conflictId) == Elsewhere(rs, conflictId)
    decreases |rs|
  {
    if rs != [] {
      WithoutIsElsewhere(rs[..|rs| - 1], conflictId);
      WithoutAppend(rs[..|rs| - 1], rs[|rs| - 1], conflictId);
      assert rs == rs[..|rs| - 1] + [rs[|rs| - 1]];
    }
  }

  // The first slide of that page is changed, and no other.
  ghost predicate FirstChanged(slides: seq<Slide>, pageIndex: int, slides': seq<Slide>, edit: Slide -> Slide) {
    exists i :: 0 <= i < |slides| && ChangedAt(slides, pageIndex, slides', edit, i)
  }

  ghost predicate ChangedAt(slides: seq<Slide>, pageIndex: int, slides': seq<Slide>, edit: Slide -> Slide, i: nat)
    requires i < |slides|
  {
    && slides[i].pageIndex == pageIndex && (forall j :: 0 <= j < i ==> slides[j].pageIndex != pageIndex)
    && |slides'| == |slides| && slides'[i] == edit(slides[i])
    && forall j :: 0 <= j < |slides| && j != i ==> slides'[j] == slides[j]
  }

  lemma {:induction false} SlideIsFirst(slides: seq<Slide>, pageIndex: int)
    ensures forall j :: 0 <= j < SlideAt(slides, pageIndex) ==> slides[j].pageIndex != pageIndex
  {
    if slides != [] && slides[0].pageIndex != pageIndex {
      SlideIsFirst(slides[1..], pageIndex);
      assert forall j :: 1 <= j < |slides| ==> slides[1..][j - 1] == slides[j];
    }
  }

  ghost predicate Edited(p: Pane, e: Event, p': Pane) {
    match e
    case SetAudience(text, _) =>
      p' == p.(draft := p.draft.(audience := if text == "" then DEFAULT_AUDIENCE else text), gate := p'.gate)
    case SetSlideCount(count, _) =>
      p' == p.(draft := p.draft.(slideCount := if count.Some? && 3 <= count.value <= 30 then count.value else 8),
               gate := p'.gate)
    case SetInstruction(text, _) => p' == p.(draft := p.draft.(instruction := text), gate := p'.gate)
    case SetUserFacts(text, _) => p' == p.(draft := p.draft.(userFacts := text), gate := p'.gate)
    case SetResolution(r, _) =>
      p' == p.(draft := p.draft.(resolutions := Elsewhere(p.draft.resolutions, r.conflictId) + [r]), gate := p'.gate)
    case CatalogRefreshed(documents, _) =>
      p' == p.(gate := p'.gate) && (p'.gate.basisWarning <==> OutOfDate(p, documents))
    case UpdateTitle(page, title, _) => PageEdited(p, page, p', (s: Slide) => s.(title := title))
    case UpdateKeyPoints(page, points, _) => PageEdited(p, page, p', (s: Slide) => s.(keyPoints := points))
    case ClearResult(_) =>
      p' == p.(result := None, status := Idle, gate := p'.gate) && p'.gate.confirmed.None?
    case _ => true
  }

  ghost predicate PageEdited(p: Pane, page: int, p': Pane, edit: Slide -> Slide) {
    if HasPage(p, page) then
      && p'.result.Some? && p'.result.value.basis == p.result.value.basis
      && FirstChanged(p.result.value.slides, page, p'.result.value.slides, edit)
      && p' == p.(result := p'.result, gate := p'.gate)
    else p' == p
  }

  lemma PageShows(w: World, page: int, edit: Slide -> Slide, saved: bool)
    ensures PageEdited(w.pane, page, EditSlide(w, page, edit, saved).pane, edit)
  {
    hide Save, SlideAt;
    if w.pane.result.Some? {
      var slides := w.pane.result.value.slides;
      PageFound(slides, page);
      SlideIsFirst(slides, page);
      var i := SlideAt(slides, page);
      if i < |slides| {
        assert ChangedAt(slides, page, slides[i := edit(slides[i])], edit, i);
      }
    }
  }

  lemma RefreshShows(w: World, documents: seq<Material>, saved: bool)
    ensures Edited(w.pane, CatalogRefreshed(documents, saved), RefreshCatalog(w, documents, saved).pane)
  {
    hide Save, UpdatedAt, InCatalog;
    if w.pane.result.Some? {
      OutOfDateExactly(w.pane, documents);
    }
  }

  // What each edit comes to: the field it is for, as given, and nothing else but the gate.
  lemma EditsShow(w: World, e: Event)
    requires IsEdit(e)
    ensures Edited(w.pane, e, Step(w, e).pane)
  {
    match e {
      case CatalogRefreshed(documents, saved) =>
        hide RefreshCatalog, Edited;
        RefreshShows(w, documents, saved);
      case UpdateTitle(page, title, saved) =>
        hide EditSlide, PageEdited;
        PageShows(w, page, (s: Slide) => s.(title := title), saved);
      case UpdateKeyPoints(page, points, saved) =>
        hide EditSlide, PageEdited;
        PageShows(w, page, (s: Slide) => s.(keyPoints := points), saved);
      case SetResolution(r, _) =>
        hide Save, WithoutConflict;
        WithoutIsElsewhere(w.pane.draft.resolutions, r.conflictId);
      case _ => hide Save;
    }
  }

  // A pane that is not busy starts a job of its own: what was shown is dropped, and the job submitted.
  lemma SubmitShowsNothing(w: World, suffix: string, saved: bool)
    requires !w.pane.busy
    ensures var w' := Step(w, Submit(suffix, saved));
      && w'.pane.busy && w'.pane.status == Running && w'.pane.jobId == "job_outline_" + suffix
      && w'.pane.result.None? && w'.pane.gate.confirmation == Unconfirmed && w'.pane.gate.confirmed.None?
      && !w'.pane.gate.basisWarning && !w'.pane.cancelRequested && !w'.pane.pollPaused
      && w'.pane.draft == w.pane.draft && w'.timers == w.timers
      && w'.inFlight == w.inFlight + multiset{SubmitFor(w'.pane.jobId)}
  {
  }
}
