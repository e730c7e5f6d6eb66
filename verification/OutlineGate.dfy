/** The confirmation gate over whole runs: exactly when it is open, through every reload and lost save. */
module OutlineGate {
  import opened Options
  import opened Outline

  predicate IsOpen(gate: Gate) {
    gate.confirmation == Confirmed && gate.confirmed.Some?
  }

  predicate HasSlides(p: Pane) {
    p.result.Some? && p.result.value.slides != []
  }

  predicate HasPage(p: Pane, pageIndex: int) {
    p.result.Some? && exists i :: 0 <= i < |p.result.value.slides| && p.result.value.slides[i].pageIndex == pageIndex
  }

  // The catalog's last entry of that id is the document itself.
  predicate InCatalog(documents: seq<Material>, document: Material) {
    exists k :: 0 <= k < |documents| && documents[k] == document && NoLater(documents, k, document.materialId)
  }

  predicate NoLater(documents: seq<Material>, k: nat, materialId: string) {
    forall l :: k < l < |documents| ==> documents[l].materialId != materialId
  }

  predicate OutOfDate(p: Pane, documents: seq<Material>) {
    p.result.Some? &&
    exists i :: 0 <= i < |p.result.value.basis| && !InCatalog(documents, p.result.value.basis[i])
  }

  predicate Opens(w: World, e: Event) {
    e.Confirm? && HasSlides(w.pane)
  }

  // An answer to a poll of the job the pane is busy with.
  predicate Answers(w: World, id: string) {
    PollFor(id) in w.inFlight && w.pane.jobId == id && w.pane.busy
  }

  predicate IsOver(job: Job) {
    job.status == Some(Completed) || job.status == Some(Failed) || job.status == Some(Cancelled)
  }

  // What makes a confirmation void: another value for the draft, a choice in a conflict, an edited
  // page, a basis out of date, a new job or its deck, and clearing.
  predicate Closes(w: World, e: Event) {
    var draft := w.pane.draft;
    match e
    case SetAudience(text, _) => draft.audience != (if text == "" then DEFAULT_AUDIENCE else text)
    case SetSlideCount(count, _) =>
      draft.slideCount != (if count.Some? && 3 <= count.value <= 30 then count.value else 8)
    case SetInstruction(text, _) => draft.instruction != text
    case SetUserFacts(text, _) => draft.userFacts != text
    case SetResolution(_, _) => true
    case CatalogRefreshed(documents, _) => OutOfDate(w.pane, documents)
    case Submit(_, _) => !w.pane.busy
    case PollReplied(id, Polled(job), _) => Answers(w, id) && job.status == Some(Completed)
    case UpdateTitle(page, _, _) => HasPage(w.pane, page)
    case UpdateKeyPoints(page, _, _) => HasPage(w.pane, page)
    case ClearResult(_) => true
    case _ => false
  }

  // The events after which storage has the pane, if the write succeeds.
  predicate Saves(w: World, e: Event) {
    match e
    case SetAudience(_, saved) => saved && Closes(w, e)
    case SetSlideCount(_, saved) => saved && Closes(w, e)
    case SetInstruction(_, saved) => saved && Closes(w, e)
    case SetUserFacts(_, saved) => saved && Closes(w, e)
    case SetResolution(_, saved) => saved
    case CatalogRefreshed(_, saved) => saved
    case Submit(_, saved) => saved && !w.pane.busy
    case SubmitReplied(id, _, saved) => saved && SubmitFor(id) in w.inFlight && w.pane.jobId == id && w.pane.busy
    case PollReplied(id, Polled(job), saved) =>
      saved && Answers(w, id) && (IsOver(job) || !w.pane.cancelRequested)
    case PollReplied(id, PollError(_), saved) => saved && Answers(w, id)
    case CancelReplied(id, _, saved) => saved && CancelFor(id) in w.inFlight && w.pane.jobId == id
    case Confirm(saved) => saved && HasSlides(w.pane)
    case UpdateTitle(page, _, saved) => saved && HasPage(w.pane, page)
    case UpdateKeyPoints(page, _, saved) => saved && HasPage(w.pane, page)
    case ClearResult(saved) => saved
    case _ => false
  }

  // ---- the catalog and the pages

  lemma {:induction false} InCatalogExactly(documents: seq<Material>, document: Material)
    ensures UpdatedAt(documents, document.materialId) == Some(document.updatedAt) <==> InCatalog(documents, document)
  {
    if documents != [] {
      var before, last := documents[..|documents| - 1], |documents| - 1;
      InCatalogExactly(before, document);
      if documents[last].materialId == document.materialId {
        if documents[last] == document {
          assert NoLater(documents, last, document.materialId);
        }
      } else {
        forall k | 0 <= k < |before|
          ensures NoLater(before, k, document.materialId) <==> NoLater(documents, k, document.materialId)
        {
          assert forall l :: k < l < |before| ==> before[l] == documents[l];
        }
      }
    }
  }

  lemma OutOfDateExactly(p: Pane, documents: seq<Material>)
    requires p.result.Some?
    ensures BasisChanged(p.result.value.basis, documents) <==> OutOfDate(p, documents)
  {
    hide UpdatedAt, InCatalog;
    forall document: Material
      ensures UpdatedAt(documents, document.materialId) == Some(document.updatedAt) <==> InCatalog(documents, document)
    {
      InCatalogExactly(documents, document);
    }
  }

  lemma {:induction false} PageFound(slides: seq<Slide>, pageIndex: int)
    ensures SlideAt(slides, pageIndex) < |slides| <==> exists i :: 0 <= i < |slides| && slides[i].pageIndex == pageIndex
  {
    if slides != [] && slides[0].pageIndex != pageIndex {
      PageFound(slides[1..], pageIndex);
      assert forall i :: 1 <= i < |slides| ==> slides[1..][i - 1] == slides[i];
    }
  }

  // ---- one event

  // What an event makes of the gate and of storage, of which only `gate` and `store` matter.
  ghost predicate Exactly(gate: Gate, store: Option<Saved>, w': World, opens: bool, closes: bool, saves: bool) {
    && (IsOpen(w'.pane.gate) <==> opens || (IsOpen(gate) && !closes))
    && w'.store == if saves then Some(Save(w'.pane)) else store
  }

  lemma PollsLeave(w: World, jobId: string)
    ensures var w' := SchedulePoll(w, jobId); w'.pane.gate == w.pane.gate && w'.store == w.store && Save(w'.pane) == Save(w.pane)
    ensures var w' := StartPoll(w, jobId); w'.pane == w.pane && w'.store == w.store
    ensures var w' := StartCancel(w); w'.pane.gate == w.pane.gate && w'.store == w.store
    ensures w.pane.cancelRequested ==> StartCancel(w).pane == w.pane
  {
  }

  lemma DraftExactly(w: World, e: Event)
    requires e.SetAudience? || e.SetSlideCount? || e.SetInstruction? || e.SetUserFacts? || e.SetResolution?
    ensures Exactly(w.pane.gate, w.store, Step(w, e), Opens(w, e), Closes(w, e), Saves(w, e))
  {
    hide Save, WithoutConflict;
  }

  lemma RefreshExactly(w: World, documents: seq<Material>, saved: bool)
    ensures Exactly(w.pane.gate, w.store, RefreshCatalog(w, documents, saved), false, OutOfDate(w.pane, documents), saved)
  {
    hide Save, UpdatedAt, InCatalog;
    if w.pane.result.Some? {
      OutOfDateExactly(w.pane, documents);
    }
  }

  lemma EditExactly(w: World, page: int, edit: Slide -> Slide, saved: bool)
    ensures Exactly(w.pane.gate, w.store, EditSlide(w, page, edit, saved), false, HasPage(w.pane, page),
                    saved && HasPage(w.pane, page))
  {
    hide Save, SlideAt;
    if w.pane.result.Some? {
      PageFound(w.pane.result.value.slides, page);
    }
  }

  lemma DeckExactly(w: World, e: Event)
    requires e.CatalogRefreshed? || e.Confirm? || e.UpdateTitle? || e.UpdateKeyPoints? || e.ClearResult?
    ensures Exactly(w.pane.gate, w.store, Step(w, e), Opens(w, e), Closes(w, e), Saves(w, e))
  {
    match e {
      case CatalogRefreshed(documents, saved) =>
        hide RefreshCatalog, OutOfDate;
        RefreshExactly(w, documents, saved);
      case UpdateTitle(page, title, saved) =>
        hide EditSlide, HasPage;
        EditExactly(w, page, (s: Slide) => s.(title := title), saved);
      case UpdateKeyPoints(page, points, saved) =>
        hide EditSlide, HasPage;
        EditExactly(w, page, (s: Slide) => s.(keyPoints := points), saved);
      case _ => hide Save;
    }
  }

  lemma SubmitExactly(w: World, e: Event)
    requires e.Submit?
    ensures Exactly(w.pane.gate, w.store, Step(w, e), Opens(w, e), Closes(w, e), Saves(w, e))
  {
    hide Save, StartPoll;
    var p := w.pane;
    PollsLeave(w.(pane := p.(pollPaused := false, pollErrors := 0)), p.jobId);
  }

  // The pane has moved and may have been saved; then a poll or a cancel begins.
  ghost predicate Same(w: World, w': World) {
    w'.pane.gate == w.pane.gate && w'.store == w.store && Save(w'.pane) == Save(w.pane)
  }

  lemma PersistExactly(w: World, p: Pane, saved: bool, closes: bool)
    requires closes ==> !IsOpen(p.gate)
    requires !closes ==> p.gate == w.pane.gate
    ensures Exactly(w.pane.gate, w.store, Persist(w.(pane := p), saved), false, closes, saved)
  {
  }

  lemma ThenSame(gate: Gate, store: Option<Saved>, w: World, w': World, closes: bool, saves: bool)
    requires Exactly(gate, store, w, false, closes, saves) && Same(w, w')
    ensures Exactly(gate, store, w', false, closes, saves)
  {
  }

  lemma ThenPolls(gate: Gate, store: Option<Saved>, w: World, jobId: string, closes: bool, saves: bool)
    requires Exactly(gate, store, w, false, closes, saves)
    ensures Exactly(gate, store, SchedulePoll(w, jobId), false, closes, saves)
  {
    PollsLeave(w, jobId);
    ThenSame(gate, store, w, SchedulePoll(w, jobId), closes, saves);
    hide Exactly, SchedulePoll;
  }

  lemma ThenCancels(gate: Gate, store: Option<Saved>, w: World, closes: bool, saves: bool)
    requires Exactly(gate, store, w, false, closes, saves) && (w.pane.cancelRequested || !saves)
    ensures Exactly(gate, store, StartCancel(w), false, closes, saves)
  {
    PollsLeave(w, "");
    hide StartCancel;
  }

  lemma PersistKeeps(w: World, saved: bool)
    ensures Persist(w, saved).pane == w.pane
  {
  }

  lemma SubmitReplyExactly(w: World, id: string, reply: SubmitReply, saved: bool)
    ensures Exactly(w.pane.gate, w.store, FinishSubmit(w, id, reply, saved), false, false,
                    saved && w.pane.jobId == id && w.pane.busy)
  {
    hide SchedulePoll, StartCancel, Exactly, Persist;
    var p := w.pane;
    if p.jobId != id || !p.busy {
      NothingExactly(w);
      return;
    }
    match reply {
      case Submitted(id', status) =>
        var jobId := if id' == "" then id else id';
        var p' := p.(jobId := jobId, status := if status.None? then Running else status.value);
        var w' := Persist(w.(pane := p'), saved);
        PersistExactly(w, p', saved, false);
        PersistKeeps(w.(pane := p'), saved);
        if p.cancelRequested {
          ThenCancels(p.gate, w.store, w', false, saved);
        } else {
          ThenPolls(p.gate, w.store, w', jobId, false, saved);
        }
      case SubmitError(true) =>
        PersistExactly(w, p, saved, false);
        assert w.(pane := p) == w;
        ThenPolls(p.gate, w.store, Persist(w, saved), id, false, saved);
      case SubmitError(false) => PersistExactly(w, p.(busy := false, status := Failed), saved, false);
    }
  }

  lemma JobExactly(w: World, job: Job, saved: bool)
    ensures Exactly(w.pane.gate, w.store, ApplyJob(w, job, saved), false, job.status == Some(Completed),
                    saved && (IsOver(job) || !w.pane.cancelRequested))
  {
    hide SchedulePoll, StartCancel, Exactly, Persist;
    var p := w.pane;
    var p' := p.(pollErrors := 0, status := if job.status.None? then p.status else job.status.value);
    if job.status == Some(Completed) {
      PersistExactly(w, p'.(busy := false, result := job.result, gate := ClearedGate(p)), saved, true);
    } else if IsOver(job) {
      PersistExactly(w, p'.(busy := false), saved, false);
    } else if p.cancelRequested {
      PersistExactly(w, p', false, false);
      PersistNot(w.(pane := p'));
      ThenCancels(p.gate, w.store, w.(pane := p'), false, false);
    } else {
      PersistExactly(w, p', saved, false);
      ThenPolls(p.gate, w.store, Persist(w.(pane := p'), saved), p.jobId, false, saved);
    }
  }

  lemma PersistNot(w: World)
    ensures Persist(w, false) == w
  {
  }

  lemma PollReplyExactly(w: World, id: string, reply: PollReply, saved: bool)
    ensures Exactly(w.pane.gate, w.store, FinishPoll(w, id, reply, saved), false,
                    w.pane.jobId == id && w.pane.busy && reply.Polled? && reply.job.status == Some(Completed),
                    saved && w.pane.jobId == id && w.pane.busy &&
                    (reply.Polled? && w.pane.cancelRequested ==> IsOver(reply.job)))
  {
    hide SchedulePoll, ApplyJob, Exactly, Persist;
    var p := w.pane;
    if p.jobId != id || !p.busy {
      NothingExactly(w);
      return;
    }
    match reply {
      case Polled(job) => JobExactly(w, job, saved);
      case PollError(true) => PersistExactly(w, p.(busy := false, jobId := "", status := Interrupted), saved, false);
      case PollError(false) =>
        var errors := p.pollErrors + 1;
        var p' := p.(pollErrors := errors, pollPaused := p.pollPaused || errors >= MAX_POLL_ERRORS);
        PersistExactly(w, p', saved, false);
        ThenPolls(p.gate, w.store, Persist(w.(pane := p'), saved), id, false, saved);
    }
  }

  lemma CancelReplyExactly(w: World, id: string, reply: CancelReply, saved: bool)
    ensures Exactly(w.pane.gate, w.store, FinishCancel(w, id, reply, saved), false, false, saved && w.pane.jobId == id)
  {
    hide Save, SchedulePoll;
    PollsLeave(Persist(w.(pane := w.pane.(pollPaused := true)), saved), id);
  }

  lemma FireExactly(w: World, id: string)
    ensures Exactly(w.pane.gate, w.store, Fire(w, id), false, false, false)
  {
    hide Save, StartPoll;
    var p := w.pane;
    var p' := if p.pollScheduled == Some(id) then p.(pollScheduled := None) else p;
    PollsLeave(w.(pane := p', timers := w.timers - multiset{id}), id);
  }

  lemma NothingExactly(w: World)
    ensures Exactly(w.pane.gate, w.store, w, false, false, false)
  {
  }

  // Exactly what every event but a reload makes of the gate, and of storage.
  lemma EventExactly(w: World, e: Event)
    requires !e.Reload?
    ensures Exactly(w.pane.gate, w.store, Step(w, e), Opens(w, e), Closes(w, e), Saves(w, e))
  {
    hide FinishSubmit, FinishPoll, FinishCancel, Fire, StartPoll, StartCancel, Exactly;
    NothingExactly(w);
    match e {
      case Submit(_, _) => SubmitExactly(w, e);
      case SubmitReplied(id, reply, saved) => SubmitReplyExactly(Taken(w, SubmitFor(id)), id, reply, saved);
      case PollReplied(id, reply, saved) => PollReplyExactly(Taken(w, PollFor(id)), id, reply, saved);
      case CancelReplied(id, reply, saved) => CancelReplyExactly(Taken(w, CancelFor(id)), id, reply, saved);
      case TimerFired(id) => FireExactly(w, id);
      case Poll => PollExactly(w);
      case Cancel => PollExactly(w);
      case SetAudience(_, _) => DraftExactly(w, e);
      case SetSlideCount(_, _) => DraftExactly(w, e);
      case SetInstruction(_, _) => DraftExactly(w, e);
      case SetUserFacts(_, _) => DraftExactly(w, e);
      case SetResolution(_, _) => DraftExactly(w, e);
      case _ => DeckExactly(w, e);
    }
  }

  lemma PollExactly(w: World)
    ensures Exactly(w.pane.gate, w.store, StartPoll(w, ""), false, false, false) && Exactly(w.pane.gate, w.store, StartCancel(w), false, false, false)
  {
    PollsLeave(w, "");
  }

  // ---- whole runs

  // An event and the state it met.
  datatype Moment = Moment(world: World, event: Event)

  // What the pane and the stored copy come from: the events since the empty store, without those whose
  // effects a reload has undone.
  datatype Lines = Lines(shown: seq<Moment>, stored: seq<Moment>)

  function Traced(es: seq<Event>): Lines
    decreases |es|
  {
    if es == [] then Lines([], [])
    else
      var before, w, e := Traced(es[..|es| - 1]), Run(Fresh, es[..|es| - 1]), es[|es| - 1];
      var shown := if e.Reload? then before.stored else before.shown + [Moment(w, e)];
      Lines(shown, if Saves(w, e) then shown else before.stored)
  }

  // The k-th event confirmed a deck with slides, and none since has made that void.
  predicate Stands(line: seq<Moment>, k: nat)
    requires k < |line|
  {
    Opens(line[k].world, line[k].event) && forall i :: k < i < |line| ==> !Closes(line[i].world, line[i].event)
  }

  ghost predicate Vouched(line: seq<Moment>) {
    exists k :: 0 <= k < |line| && Stands(line, k)
  }

  lemma VouchedNext(line: seq<Moment>, m: Moment)
    ensures Vouched(line + [m]) <==>
            Opens(m.world, m.event) || (Vouched(line) && !Closes(m.world, m.event))
  {
    hide Opens, Closes;
    var line' := line + [m];
    if Opens(m.world, m.event) {
      assert Stands(line', |line|);
    }
    if Vouched(line) && !Closes(m.world, m.event) {
      var k :| 0 <= k < |line| && Stands(line, k);
      assert Stands(line', k);
    }
    if Vouched(line') {
      var k :| 0 <= k < |line'| && Stands(line', k);
      if k < |line| {
        assert forall i :: k < i < |line| ==> line[i] == line'[i];
        assert Stands(line, k) && line'[|line|] == m;
      }
    }
  }

  ghost predicate StoredOpen(w: World) {
    w.store.Some? && IsOpen(w.store.value.gate)
  }

  lemma ReloadExactly(w: World)
    ensures IsOpen(Step(w, Reload).pane.gate) <==> StoredOpen(w)
    ensures Step(w, Reload).store == w.store && !Saves(w, Reload)
  {
  }

  lemma StoredExactly(w: World, w': World, saves: bool)
    requires w'.store == if saves then Some(Save(w'.pane)) else w.store
    ensures StoredOpen(w') <==> if saves then IsOpen(w'.pane.gate) else StoredOpen(w)
  {
  }

  lemma GateNext(before: World, e: Event, lines: Lines, shown: seq<Moment>)
    requires IsOpen(before.pane.gate) <==> Vouched(lines.shown)
    requires StoredOpen(before) <==> Vouched(lines.stored)
    requires shown == if e.Reload? then lines.stored else lines.shown + [Moment(before, e)]
    ensures IsOpen(Step(before, e).pane.gate) <==> Vouched(shown)
    ensures StoredOpen(Step(before, e)) <==> Vouched(if Saves(before, e) then shown else lines.stored)
  {
    VouchedNext(lines.shown, Moment(before, e));
    hide Vouched, Opens, Closes, Saves, Step, StoredOpen, IsOpen;
    if e.Reload? {
      ReloadExactly(before);
      StoredExactly(before, Step(before, e), false);
    } else {
      EventExactly(before, e);
      StoredExactly(before, Step(before, e), Saves(before, e));
    }
  }

  // Over every run, with whatever reloads and lost saves, the gate is open exactly when, among the
  // events that what is shown comes from, the last confirmation of a deck with slides has had nothing
  // since that makes it void; and so for the stored copy.
  lemma {:induction false} GateOpenExactly(es: seq<Event>)
    ensures IsOpen(Run(Fresh, es).pane.gate) <==> Vouched(Traced(es).shown)
    ensures StoredOpen(Run(Fresh, es)) <==> Vouched(Traced(es).stored)
    decreases |es|
  {
    hide Vouched, Saves, Step, StoredOpen, IsOpen;
    if es == [] {
      NothingOpen();
    } else {
      var before, e := es[..|es| - 1], es[|es| - 1];
      GateOpenExactly(before);
      GateNext(Run(Fresh, before), e, Traced(before), Traced(es).shown);
    }
  }

  lemma NothingOpen()
    ensures !IsOpen(Run(Fresh, []).pane.gate) && !StoredOpen(Run(Fresh, [])) && !Vouched([])
  {
  }

  ghost predicate IsRun(line: seq<Moment>, es: seq<Event>) {
    |line| == |es| && forall i :: 0 <= i < |es| ==> line[i] == Moment(Run(Fresh, es[..i]), es[i])
  }

  lemma IsRunNext(line: seq<Moment>, es: seq<Event>, e: Event)
    requires IsRun(line, es)
    ensures IsRun(line + [Moment(Run(Fresh, es), e)], es + [e])
  {
    hide Run;
    assert forall i :: 0 <= i <= |es| ==> (es + [e])[..i] == es[..i];
    assert es[..|es|] == es;
  }

  // Without a reload what is shown comes from the whole run.
  lemma {:induction false} TracedIsRun(es: seq<Event>)
    requires forall i :: 0 <= i < |es| ==> !es[i].Reload?
    ensures IsRun(Traced(es).shown, es)
    decreases |es|
  {
    if es != [] {
      var before := es[..|es| - 1];
      TracedIsRun(before);
      IsRunNext(Traced(before).shown, before, es[|es| - 1]);
      hide Run, Saves, IsRun;
      assert es == before + [es[|es| - 1]];
    } else {
      hide Run;
    }
  }

  // A reload brings back the pane as it last was in storage, but for the poll bookkeeping; `kept` is
  // how much of the run had happened then.
  lemma ReloadGivesLastSaved(es: seq<Event>, kept: nat)
    requires 0 < kept <= |es| && Saves(Run(Fresh, es[..kept - 1]), es[kept - 1])
    requires forall i :: kept <= i < |es| ==> !Saves(Run(Fresh, es[..i]), es[i])
    ensures Run(Fresh, es + [Reload]).pane == Reread(Run(Fresh, es[..kept]).pane)
  {
    hide Saves, Run, Reread, Save, Load;
    LastSaved(es, kept);
    RunNext(es, Reload);
    RereadIs(Run(Fresh, es), Run(Fresh, es[..kept]).pane);
  }

  function Reread(p: Pane): Pane {
    p.(busy := p.jobId != "" && (p.status == Running || p.status == Queued), pollErrors := 0, pollScheduled := None)
  }

  lemma RereadIs(w: World, p: Pane)
    requires w.store == Some(Save(p))
    ensures Step(w, Reload).pane == Reread(p)
  {
  }

  lemma RunNext(es: seq<Event>, e: Event)
    ensures Run(Fresh, es + [e]) == Step(Run(Fresh, es), e)
  {
    assert (es + [e])[..|es|] == es;
    hide Step;
  }

  lemma {:induction false} LastSaved(es: seq<Event>, kept: nat)
    requires 0 < kept <= |es| && Saves(Run(Fresh, es[..kept - 1]), es[kept - 1])
    requires forall i :: kept <= i < |es| ==> !Saves(Run(Fresh, es[..i]), es[i])
    ensures Run(Fresh, es).store == Some(Save(Run(Fresh, es[..kept]).pane))
    decreases |es|
  {
    var before, e := es[..|es| - 1], es[|es| - 1];
    hide Saves, Save, Exactly;
    StoreExactly(Run(Fresh, before), e);
    if kept == |es| {
      assert es[..kept] == es;
    } else {
      assert forall i :: 0 <= i <= |before| ==> before[..i] == es[..i];
      LastSaved(before, kept);
    }
    hide Step;
  }

  lemma StoreExactly(w: World, e: Event)
    ensures Step(w, e).store == if Saves(w, e) then Some(Save(Step(w, e).pane)) else w.store
  {
    if !e.Reload? {
      EventExactly(w, e);
      hide Step, Saves, Save, Opens, Closes, IsOpen;
    }
  }

  // Confirming a deck with slides opens the gate on that deck and draft, and keeps so much in storage
  // if the write succeeds; without slides nothing is confirmed.
  lemma ConfirmOpens(w: World, saved: bool)
    ensures var w', p := Step(w, Confirm(saved)), w.pane;
      && (HasSlides(p) ==>
            && w'.pane.gate == Gate(Confirmed, p.result, p.gate.basisWarning, p.draft)
            && w'.pane == p.(gate := w'.pane.gate) && Load(w'.store).gate == (if saved then w'.pane else Load(w.store)).gate
            && w'.store == (if saved then Some(Save(w'.pane)) else w.store))
      && (!HasSlides(p) ==> w' == w)
      && w'.inFlight == w.inFlight && w'.timers == w.timers
  {
  }
}
