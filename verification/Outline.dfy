/** The slide-outline client as a state machine: one pane, its durable copy, the requests it has in
    flight and the timers it has set.  Each handler is cut where it waits, so a reply or a timer is an
    event of its own and may come in any order. */
module Outline {
  import opened Options

  // ---- what the pane holds

  datatype Slide = Slide(pageIndex: int, title: string, keyPoints: seq<string>)
  datatype Material = Material(materialId: string, updatedAt: string)
  datatype Deck = Deck(slides: seq<Slide>, basis: seq<Material>)
  datatype Resolution = Resolution(conflictId: string, candidateId: string, value: string)

  datatype Status = Idle | Running | Queued | Completed | Failed | Cancelled | Interrupted | Other

  datatype Confirmation = Unconfirmed | Confirmed | NeedsReconfirmation

  datatype Draft =
    Draft(audience: string, slideCount: int, instruction: string, userFacts: string, resolutions: seq<Resolution>)

  // `basedOn` is the model's own note of the draft in force when the outline was last confirmed.
  datatype Gate =
    Gate(confirmation: Confirmation, confirmed: Option<Deck>, basisWarning: bool, basedOn: Draft)

  // What `persist` writes: the pane without its poll bookkeeping.
  datatype Saved =
    Saved(draft: Draft, jobId: string, status: Status, result: Option<Deck>, pollPaused: bool,
          cancelRequested: bool, gate: Gate)

  datatype Pane =
    Pane(draft: Draft, jobId: string, status: Status, result: Option<Deck>, pollPaused: bool,
         cancelRequested: bool, gate: Gate, busy: bool, pollErrors: nat, pollScheduled: Option<string>)

  datatype Request = SubmitFor(jobId: string) | PollFor(jobId: string) | CancelFor(jobId: string)

  datatype World =
    World(pane: Pane, store: Option<Saved>, inFlight: multiset<Request>, timers: multiset<string>)

  const DEFAULT_AUDIENCE := "公司高管与业务领导"
  const DEFAULT_SLIDE_COUNT := 8
  const MIN_SLIDE_COUNT := 3
  const MAX_SLIDE_COUNT := 30
  const MAX_POLL_ERRORS := 3

  const EmptyDraft := Draft(DEFAULT_AUDIENCE, DEFAULT_SLIDE_COUNT, "", "", [])
  const OpenGate := Gate(Unconfirmed, None, false, EmptyDraft)

  // ---- replies and events

  datatype Job = Job(status: Option<Status>, result: Option<Deck>)

  // A submit error is unconfirmed when the request may have arrived: an abort, a network error, a
  // 5xx or a 408.
  datatype SubmitReply = Submitted(jobId: string, status: Option<Status>) | SubmitError(unconfirmed: bool)
  datatype PollReply = Polled(job: Job) | PollError(gone: bool)
  datatype CancelReply = CancelConfirmed | CancelUnconfirmed

  // `saved` says whether the write to storage, where the handler makes one, succeeds.
  datatype Event =
    | SetAudience(text: string, saved: bool)
    | SetSlideCount(count: Option<int>, saved: bool)
    | SetInstruction(text: string, saved: bool)
    | SetUserFacts(text: string, saved: bool)
    | SetResolution(resolution: Resolution, saved: bool)
    | CatalogRefreshed(documents: seq<Material>, saved: bool)
    | Submit(suffix: string, saved: bool)
    | SubmitReplied(jobId: string, submitReply: SubmitReply, saved: bool)
    | Poll
    | TimerFired(jobId: string)
    | PollReplied(jobId: string, pollReply: PollReply, saved: bool)
    | Cancel
    | CancelReplied(jobId: string, cancelReply: CancelReply, saved: bool)
    | Confirm(saved: bool)
    | UpdateTitle(pageIndex: int, title: string, saved: bool)
    | UpdateKeyPoints(pageIndex: int, keyPoints: seq<string>, saved: bool)
    | ClearResult(saved: bool)
    | Reload

  // ---- persistence

  function Save(p: Pane): Saved {
    Saved(p.draft, p.jobId, p.status, p.result, p.pollPaused, p.cancelRequested, p.gate)
  }

  function Load(store: Option<Saved>): Pane {
    match store
    case None => Pane(EmptyDraft, "", Idle, None, false, false, OpenGate, false, 0, None)
    case Some(s) =>
      Pane(s.draft, s.jobId, s.status, s.result, s.pollPaused, s.cancelRequested, s.gate,
           s.jobId != "" && (s.status == Running || s.status == Queued), 0, None)
  }

  function Persist(w: World, saved: bool): World {
    if saved then w.(store := Some(Save(w.pane))) else w
  }

  // ---- drafts and the gate

  function Reopen(g: Gate): Gate {
    if g.confirmation == Confirmed then g.(confirmation := NeedsReconfirmation) else g
  }

  function SetDraft(w: World, draft: Draft, saved: bool): World {
    if draft == w.pane.draft then w
    else Persist(w.(pane := w.pane.(draft := draft, gate := Reopen(w.pane.gate))), saved)
  }

  function ChosenCount(count: Option<int>): int {
    if count.None? || count.value < MIN_SLIDE_COUNT || count.value > MAX_SLIDE_COUNT
    then DEFAULT_SLIDE_COUNT else count.value
  }

  function WithoutConflict(rs: seq<Resolution>, conflictId: string): seq<Resolution> {
    if rs == [] then []
    else if rs[0].conflictId != conflictId then [rs[0]] + WithoutConflict(rs[1..], conflictId)
    else WithoutConflict(rs[1..], conflictId)
  }

  // Unlike the other setters, choosing a candidate always asks for confirmation again.
  function Resolve(w: World, r: Resolution, saved: bool): World {
    var draft := w.pane.draft.(resolutions := WithoutConflict(w.pane.draft.resolutions, r.conflictId) + [r]);
    Persist(w.(pane := w.pane.(draft := draft, gate := Reopen(w.pane.gate))), saved)
  }

  // The date the catalog gives a material; the last entry for an id counts.
  function UpdatedAt(documents: seq<Material>, materialId: string): Option<string> {
    if documents == [] then None
    else
      var last := documents[|documents| - 1];
      if last.materialId == materialId then Some(last.updatedAt)
      else UpdatedAt(documents[..|documents| - 1], materialId)
  }

  // Some document the deck rests on is gone from the catalog or carries another date.
  predicate BasisChanged(basis: seq<Material>, documents: seq<Material>) {
    exists i :: 0 <= i < |basis| && UpdatedAt(documents, basis[i].materialId) != Some(basis[i].updatedAt)
  }

  function CheckBasis(p: Pane, documents: seq<Material>): Pane {
    if p.result.None? || p.result.value.basis == [] then p.(gate := p.gate.(basisWarning := false))
    else if BasisChanged(p.result.value.basis, documents) then p.(gate := Reopen(p.gate).(basisWarning := true))
    else p.(gate := p.gate.(basisWarning := false))
  }

  function ConfirmDeck(w: World, saved: bool): World {
    if w.pane.result.None? || w.pane.result.value.slides == [] then w
    else Persist(w.(pane := w.pane.(gate :=
      w.pane.gate.(confirmation := Confirmed, confirmed := w.pane.result, basedOn := w.pane.draft))), saved)
  }

  // The first slide with that page index, as Array.find gives it; |slides| when there is none.
  function SlideAt(slides: seq<Slide>, pageIndex: int): (i: nat)
    ensures i <= |slides|
    ensures i < |slides| ==> slides[i].pageIndex == pageIndex
  {
    if slides == [] || slides[0].pageIndex == pageIndex then 0 else 1 + SlideAt(slides[1..], pageIndex)
  }

  function EditSlide(w: World, pageIndex: int, edit: Slide -> Slide, saved: bool): World {
    if w.pane.result.None? then w
    else
      var deck := w.pane.result.value;
      var i := SlideAt(deck.slides, pageIndex);
      if i == |deck.slides| then w
      else
        var deck' := deck.(slides := deck.slides[i := edit(deck.slides[i])]);
        Persist(w.(pane := w.pane.(result := Some(deck'), gate := Reopen(w.pane.gate))), saved)
  }

  function Clear(w: World, saved: bool): World {
    var gate := w.pane.gate.(confirmation := Unconfirmed, confirmed := None);
    Persist(w.(pane := w.pane.(result := None, status := Idle, gate := gate)), saved)
  }

  // ---- jobs

  function SchedulePoll(w: World, jobId: string): World {
    var p := w.pane;
    if p.pollScheduled == Some(jobId) || !p.busy || p.jobId != jobId || p.pollPaused then w
    else w.(pane := p.(pollScheduled := Some(jobId)), timers := w.timers + multiset{jobId})
  }

  // The front of `poll`, up to its request.
  function StartPoll(w: World, expected: string): World {
    var jobId := if expected == "" then w.pane.jobId else expected;
    if jobId == "" || w.pane.jobId != jobId || !w.pane.busy || w.pane.pollPaused then w
    else w.(inFlight := w.inFlight + multiset{PollFor(jobId)})
  }

  // The front of `cancel`, up to its request.
  function StartCancel(w: World): World {
    if w.pane.jobId == "" || !w.pane.busy then w
    else w.(pane := w.pane.(cancelRequested := true),
            inFlight := w.inFlight + multiset{CancelFor(w.pane.jobId)})
  }

  function ClearedGate(p: Pane): Gate {
    p.gate.(confirmation := Unconfirmed, confirmed := None, basisWarning := false)
  }

  function StartSubmit(w: World, suffix: string, saved: bool): World {
    var p := w.pane;
    if p.busy && p.pollPaused then
      StartPoll(w.(pane := p.(pollPaused := false, pollErrors := 0)), p.jobId)
    else if p.busy then w
    else
      var jobId := "job_outline_" + suffix;
      var p' := p.(pollPaused := false, pollErrors := 0, cancelRequested := false, result := None,
                   gate := ClearedGate(p), busy := true, status := Running, jobId := jobId);
      Persist(w.(pane := p'), saved).(inFlight := w.inFlight + multiset{SubmitFor(jobId)})
  }

  function FinishSubmit(w: World, clientJobId: string, reply: SubmitReply, saved: bool): World {
    var p := w.pane;
    if p.jobId != clientJobId || !p.busy then w
    else match reply
      case Submitted(id, status) =>
        var jobId := if id == "" then clientJobId else id;
        var p' := p.(jobId := jobId, status := if status.None? then Running else status.value);
        var w' := Persist(w.(pane := p'), saved);
        if p.cancelRequested then StartCancel(w') else SchedulePoll(w', jobId)
      case SubmitError(true) => SchedulePoll(Persist(w, saved), clientJobId)
      case SubmitError(false) => Persist(w.(pane := p.(busy := false, status := Failed)), saved)
  }

  function ApplyJob(w: World, job: Job, saved: bool): World {
    var p := w.pane;
    var p' := p.(pollErrors := 0, status := if job.status.None? then p.status else job.status.value);
    if job.status == Some(Completed) then
      Persist(w.(pane := p'.(busy := false, result := job.result, gate := ClearedGate(p))), saved)
    else if job.status == Some(Failed) || job.status == Some(Cancelled) then
      Persist(w.(pane := p'.(busy := false)), saved)
    else if p.cancelRequested then StartCancel(w.(pane := p'))
    else SchedulePoll(Persist(w.(pane := p'), saved), p.jobId)
  }

  function FinishPoll(w: World, jobId: string, reply: PollReply, saved: bool): World {
    var p := w.pane;
    if p.jobId != jobId || !p.busy then w
    else match reply
      case Polled(job) => ApplyJob(w, job, saved)
      case PollError(true) => Persist(w.(pane := p.(busy := false, jobId := "", status := Interrupted)), saved)
      case PollError(false) =>
        var errors := p.pollErrors + 1;
        var p' := p.(pollErrors := errors, pollPaused := p.pollPaused || errors >= MAX_POLL_ERRORS);
        SchedulePoll(Persist(w.(pane := p'), saved), jobId)
  }

  function FinishCancel(w: World, jobId: string, reply: CancelReply, saved: bool): World {
    var p := w.pane;
    if p.jobId != jobId then w
    else match reply
      case CancelConfirmed => Persist(w.(pane := p.(busy := false, status := Cancelled)), saved)
      case CancelUnconfirmed => SchedulePoll(Persist(w.(pane := p.(pollPaused := true)), saved), jobId)
  }

  function Fire(w: World, jobId: string): World {
    var p := w.pane;
    var p' := if p.pollScheduled == Some(jobId) then p.(pollScheduled := None) else p;
    StartPoll(w.(pane := p', timers := w.timers - multiset{jobId}), jobId)
  }

  function RefreshCatalog(w: World, documents: seq<Material>, saved: bool): World {
    Persist(w.(pane := CheckBasis(w.pane, documents)), saved)
  }

  function Taken(w: World, r: Request): World {
    w.(inFlight := w.inFlight - multiset{r})
  }

  // A reply comes to a request in flight; an event that is not enabled changes nothing.
  function Step(w: World, e: Event): World {
    match e
    case SetAudience(text, saved) =>
      SetDraft(w, w.pane.draft.(audience := if text == "" then DEFAULT_AUDIENCE else text), saved)
    case SetSlideCount(count, saved) => SetDraft(w, w.pane.draft.(slideCount := ChosenCount(count)), saved)
    case SetInstruction(text, saved) => SetDraft(w, w.pane.draft.(instruction := text), saved)
    case SetUserFacts(text, saved) => SetDraft(w, w.pane.draft.(userFacts := text), saved)
    case SetResolution(r, saved) => Resolve(w, r, saved)
    case CatalogRefreshed(documents, saved) => RefreshCatalog(w, documents, saved)
    case Submit(suffix, saved) => StartSubmit(w, suffix, saved)
    case SubmitReplied(id, reply, saved) =>
      if SubmitFor(id) !in w.inFlight then w
      else FinishSubmit(Taken(w, SubmitFor(id)), id, reply, saved)
    case Poll => StartPoll(w, "")
    case TimerFired(id) => if id !in w.timers then w else Fire(w, id)
    case PollReplied(id, reply, saved) =>
      if PollFor(id) !in w.inFlight then w
      else FinishPoll(Taken(w, PollFor(id)), id, reply, saved)
    case Cancel => StartCancel(w)
    case CancelReplied(id, reply, saved) =>
      if CancelFor(id) !in w.inFlight then w
      else FinishCancel(Taken(w, CancelFor(id)), id, reply, saved)
    case Confirm(saved) => ConfirmDeck(w, saved)
    case UpdateTitle(page, title, saved) => EditSlide(w, page, (s: Slide) => s.(title := title), saved)
    case UpdateKeyPoints(page, points, saved) => EditSlide(w, page, (s: Slide) => s.(keyPoints := points), saved)
    case ClearResult(saved) => Clear(w, saved)
    case Reload => World(Load(w.store), w.store, multiset{}, multiset{})
  }

  function Run(w: World, es: seq<Event>): World
    decreases |es|
  {
    if es == [] then w else Step(Run(w, es[..|es| - 1]), es[|es| - 1])
  }

  // ---- no poll is lost

  // Something still outstanding will ask after the current job.
  ghost predicate Attended(w: World) {
    var j := w.pane.jobId;
    && j != ""
    && (j in w.timers || SubmitFor(j) in w.inFlight || PollFor(j) in w.inFlight || CancelFor(j) in w.inFlight)
  }

  ghost predicate NoLostPoll(w: World) {
    w.pane.busy && !w.pane.pollPaused ==> Attended(w)
  }

  // The bookkeeping behind it: the job id noted as scheduled does have its timer.
  ghost predicate Bookkeeping(w: World) {
    && (w.pane.busy ==> w.pane.jobId != "")
    && (w.pane.pollScheduled.Some? ==> w.pane.pollScheduled.value in w.timers)
  }

  ghost predicate PollInv(w: World) {
    Bookkeeping(w) && NoLostPoll(w)
  }

  lemma SchedulePollAttends(w: World)
    requires Bookkeeping(w)
    ensures PollInv(SchedulePoll(w, w.pane.jobId))
  {
  }

  lemma StartPollAttends(w: World, expected: string)
    requires Bookkeeping(w)
    requires NoLostPoll(w) || expected == w.pane.jobId
    ensures PollInv(StartPoll(w, expected))
  {
  }

  lemma StartCancelAttends(w: World)
    requires Bookkeeping(w) && (w.pane.busy || NoLostPoll(w))
    ensures PollInv(StartCancel(w))
  {
  }

  lemma SubmitKept(w: World, suffix: string, saved: bool)
    requires PollInv(w)
    ensures PollInv(StartSubmit(w, suffix, saved))
  {
    var p := w.pane;
    if p.busy && p.pollPaused {
      StartPollAttends(w.(pane := p.(pollPaused := false, pollErrors := 0)), p.jobId);
    }
  }

  lemma SubmitReplyKept(w: World, id: string, reply: SubmitReply, saved: bool)
    requires Bookkeeping(w) && (w.pane.jobId == id || NoLostPoll(w))
    ensures PollInv(FinishSubmit(w, id, reply, saved))
  {
    hide SchedulePoll, StartCancel;
    var p := w.pane;
    if p.jobId == id && p.busy {
      match reply {
        case Submitted(id', status) =>
          var p' := p.(jobId := if id' == "" then id else id', status := if status.None? then Running else status.value);
          var w' := Persist(w.(pane := p'), saved);
          SchedulePollAttends(w');
          StartCancelAttends(w');
        case SubmitError(_) => SchedulePollAttends(Persist(w, saved));
      }
    }
  }

  lemma PollReplyKept(w: World, id: string, reply: PollReply, saved: bool)
    requires Bookkeeping(w) && (w.pane.jobId == id || NoLostPoll(w))
    ensures PollInv(FinishPoll(w, id, reply, saved))
  {
    hide ClearedGate, Save, Attended;
    hide SchedulePoll, StartCancel;
    var p := w.pane;
    if p.jobId == id && p.busy {
      match reply {
        case Polled(job) =>
          var p' := p.(pollErrors := 0, status := if job.status.None? then p.status else job.status.value);
          StartCancelAttends(w.(pane := p'));
          SchedulePollAttends(Persist(w.(pane := p'), saved));
        case PollError(_) =>
          var errors := p.pollErrors + 1;
          var p' := p.(pollErrors := errors, pollPaused := p.pollPaused || errors >= MAX_POLL_ERRORS);
          SchedulePollAttends(Persist(w.(pane := p'), saved));
      }
    }
  }

  lemma CancelReplyKept(w: World, id: string, reply: CancelReply, saved: bool)
    requires Bookkeeping(w) && (w.pane.jobId == id || NoLostPoll(w))
    ensures PollInv(FinishCancel(w, id, reply, saved))
  {
  }

  lemma FireKept(w: World, id: string)
    requires PollInv(w) && id in w.timers
    ensures PollInv(Fire(w, id))
  {
    var p := w.pane;
    var p' := if p.pollScheduled == Some(id) then p.(pollScheduled := None) else p;
    var w' := w.(pane := p', timers := w.timers - multiset{id});
    StartPollAttends(w', id);
  }

  // A reply taken off the pile leaves everything attended but perhaps its own job.
  lemma TakeReply(w: World, r: Request)
    requires PollInv(w) && r in w.inFlight
    ensures var w' := Taken(w, r);
            Bookkeeping(w') && (w'.pane.jobId == r.jobId || NoLostPoll(w'))
  {
  }

  lemma PollKept(w: World, e: Event)
    requires PollInv(w) && !e.Reload?
    ensures PollInv(Step(w, e))
  {
    hide FinishSubmit, FinishPoll, FinishCancel, Fire, StartSubmit, StartPoll, StartCancel, Bookkeeping, NoLostPoll, Persist;
    match e {
      case Submit(suffix, saved) => SubmitKept(w, suffix, saved);
      case SubmitReplied(id, reply, saved) =>
        if SubmitFor(id) in w.inFlight {
          TakeReply(w, SubmitFor(id));
          SubmitReplyKept(Taken(w, SubmitFor(id)), id, reply, saved);
        }
      case Poll => StartPollAttends(w, "");
      case TimerFired(id) => if id in w.timers { FireKept(w, id); }
      case PollReplied(id, reply, saved) =>
        if PollFor(id) in w.inFlight {
          TakeReply(w, PollFor(id));
          PollReplyKept(Taken(w, PollFor(id)), id, reply, saved);
        }
      case Cancel => StartCancelAttends(w);
      case CancelReplied(id, reply, saved) =>
        if CancelFor(id) in w.inFlight {
          TakeReply(w, CancelFor(id));
          CancelReplyKept(Taken(w, CancelFor(id)), id, reply, saved);
        }
      case _ =>
        EditKeepsJobs(w, e);
        SameJobsSameInv(w, Step(w, e));
    }
  }

  // The other events leave the job, its poll bookkeeping, the requests and the timers alone.
  lemma EditKeepsJobs(w: World, e: Event)
    requires IsEdit(e)
    ensures var w' := Step(w, e);
      && w'.inFlight == w.inFlight && w'.timers == w.timers
      && w'.pane.jobId == w.pane.jobId && w'.pane.busy == w.pane.busy
      && w'.pane.pollPaused == w.pane.pollPaused && w'.pane.pollScheduled == w.pane.pollScheduled
  {
    hide BasisChanged, SlideAt, WithoutConflict, ChosenCount, Reopen, Save;
  }

  predicate IsEdit(e: Event) {
    || e.SetAudience? || e.SetSlideCount? || e.SetInstruction? || e.SetUserFacts? || e.SetResolution?
    || e.CatalogRefreshed? || e.Confirm? || e.UpdateTitle? || e.UpdateKeyPoints? || e.ClearResult?
  }

  lemma SameJobsSameInv(w: World, w': World)
    requires PollInv(w)
    requires w'.inFlight == w.inFlight && w'.timers == w.timers
    requires w'.pane.jobId == w.pane.jobId && w'.pane.busy == w.pane.busy
    requires w'.pane.pollPaused == w.pane.pollPaused && w'.pane.pollScheduled == w.pane.pollScheduled
    ensures PollInv(w')
  {
  }

  // Opening a pane: what the store holds, and the poll the task pane makes at once.
  function Open(store: Option<Saved>): World {
    StartPoll(World(Load(store), store, multiset{}, multiset{}), "")
  }

  // In one pane lifetime, whatever the order of replies and timers and whatever storage does, a busy
  // and unpaused job always has its own poll timer or a request of its own in flight.
  lemma {:induction false} NeverLost(store: Option<Saved>, es: seq<Event>)
    requires forall i :: 0 <= i < |es| ==> !es[i].Reload?
    ensures PollInv(Run(Open(store), es))
    decreases |es|
  {
    if es != [] {
      var w, e := Run(Open(store), es[..|es| - 1]), es[|es| - 1];
      NeverLost(store, es[..|es| - 1]);
      hide Step;
      PollKept(w, e);
    }
  }

  // A pane that only loads, and does not poll, keeps the promise exactly when the stored job is not
  // one it should be waiting for.
  lemma LoadedUnattended(store: Option<Saved>)
    ensures NoLostPoll(World(Load(store), store, multiset{}, multiset{})) <==>
            store.None? || store.value.jobId == "" || store.value.pollPaused ||
            (store.value.status != Running && store.value.status != Queued)
  {
    var w := World(Load(store), store, multiset{}, multiset{});
    assert !Attended(w);
  }

  // Reloading a saved pane loses its poll bookkeeping and nothing else.
  lemma SaveThenLoad(p: Pane)
    ensures Load(Some(Save(p))) ==
            p.(busy := p.jobId != "" && (p.status == Running || p.status == Queued), pollErrors := 0, pollScheduled := None)
  {
  }

  // ---- the confirmation gate

  // A confirmed outline is the deck now shown, which has slides, and the draft is the one it was
  // confirmed under.
  ghost predicate GateHolds(gate: Gate, result: Option<Deck>, draft: Draft) {
    gate.confirmation == Confirmed ==>
      && result.Some? && result.value.slides != []
      && gate.confirmed == result && gate.basedOn == draft
  }

  ghost predicate GateInv(w: World) {
    && GateHolds(w.pane.gate, w.pane.result, w.pane.draft)
    && (w.store.Some? ==> GateHolds(w.store.value.gate, w.store.value.result, w.store.value.draft))
  }

  // The store holds what the pane shows, as far as the gate is concerned.
  ghost predicate StoredAs(store: Option<Saved>, p: Pane) {
    store.Some? && store.value.gate == p.gate && store.value.result == p.result && store.value.draft == p.draft
  }

  // What every event but confirming and reloading does to the gate: if it is open afterwards, then
  // it was open before and nothing it vouches for has moved; and storage is left alone or brought
  // up to date.
  ghost predicate GateMove(p: Pane, store: Option<Saved>, p': Pane, store': Option<Saved>) {
    && (p'.gate.confirmation == Confirmed ==>
          && p.gate.confirmation == Confirmed
          && p'.gate.confirmed == p.gate.confirmed && p'.gate.basedOn == p.gate.basedOn
          && p'.result == p.result && p'.draft == p.draft)
    && (store' == store || StoredAs(store', p'))
  }

  ghost predicate Moves(w: World, w': World) {
    GateMove(w.pane, w.store, w'.pane, w'.store)
  }

  // Waiting and polling touch neither the gate nor what it is about.
  ghost predicate SameGate(w: World, w': World) {
    && w'.pane.gate == w.pane.gate && w'.pane.result == w.pane.result && w'.pane.draft == w.pane.draft
    && w'.store == w.store
  }

  lemma PollsLeaveGate(w: World, jobId: string)
    ensures SameGate(w, SchedulePoll(w, jobId))
    ensures SameGate(w, StartPoll(w, jobId))
    ensures SameGate(w, StartCancel(w))
  {
  }

  lemma ThenSame(w: World, w1: World, w2: World)
    requires Moves(w, w1) && SameGate(w1, w2)
    ensures Moves(w, w2)
  {
  }

  // The pane moves, and may be saved.
  lemma PersistMoves(w: World, p: Pane, saved: bool)
    requires GateMove(w.pane, w.store, p, w.store)
    ensures Moves(w, Persist(w.(pane := p), saved))
  {
  }

  lemma SubmitMoves(w: World, suffix: string, saved: bool)
    ensures Moves(w, StartSubmit(w, suffix, saved))
  {
    hide StartPoll;
    var p := w.pane;
    PollsLeaveGate(w.(pane := p.(pollPaused := false, pollErrors := 0)), p.jobId);
  }

  lemma SubmitReplyMoves(w: World, id: string, reply: SubmitReply, saved: bool)
    ensures Moves(w, FinishSubmit(w, id, reply, saved))
  {
    hide SchedulePoll, StartCancel, SameGate, Persist;
    var p := w.pane;
    match reply {
      case Submitted(id', status) =>
        var jobId := if id' == "" then id else id';
        var p' := p.(jobId := jobId, status := if status.None? then Running else status.value);
        PersistMoves(w, p', saved);
        var w' := Persist(w.(pane := p'), saved);
        PollsLeaveGate(w', jobId);
        ThenSame(w, w', SchedulePoll(w', jobId));
        ThenSame(w, w', StartCancel(w'));
      case SubmitError(_) =>
        PersistMoves(w, p, saved);
        PersistMoves(w, p.(busy := false, status := Failed), saved);
        PollsLeaveGate(Persist(w, saved), id);
        ThenSame(w, Persist(w, saved), SchedulePoll(Persist(w, saved), id));
    }
  }

  lemma JobMoves(w: World, job: Job, saved: bool)
    ensures Moves(w, ApplyJob(w, job, saved))
  {
    hide SchedulePoll, StartCancel, SameGate, Persist;
    var p := w.pane;
    var p' := p.(pollErrors := 0, status := if job.status.None? then p.status else job.status.value);
    PersistMoves(w, p'.(busy := false, result := job.result, gate := ClearedGate(p)), saved);
    PersistMoves(w, p'.(busy := false), saved);
    PersistMoves(w, p', saved);
    PollsLeaveGate(w.(pane := p'), p.jobId);
    ThenSame(w, w.(pane := p'), StartCancel(w.(pane := p')));
    var w' := Persist(w.(pane := p'), saved);
    PollsLeaveGate(w', p.jobId);
    ThenSame(w, w', SchedulePoll(w', p.jobId));
  }

  lemma PollReplyMoves(w: World, id: string, reply: PollReply, saved: bool)
    ensures Moves(w, FinishPoll(w, id, reply, saved))
  {
    hide SchedulePoll, StartCancel, SameGate, Persist;
    var p := w.pane;
    match reply {
      case Polled(job) => JobMoves(w, job, saved);
      case PollError(_) =>
        var errors := p.pollErrors + 1;
        var p' := p.(pollErrors := errors, pollPaused := p.pollPaused || errors >= MAX_POLL_ERRORS);
        PersistMoves(w, p.(busy := false, jobId := "", status := Interrupted), saved);
        PersistMoves(w, p', saved);
        var w' := Persist(w.(pane := p'), saved);
        PollsLeaveGate(w', id);
        ThenSame(w, w', SchedulePoll(w', id));
    }
  }

  lemma CancelReplyMoves(w: World, id: string, reply: CancelReply, saved: bool)
    ensures Moves(w, FinishCancel(w, id, reply, saved))
  {
    hide SchedulePoll;
    PollsLeaveGate(Persist(w.(pane := w.pane.(pollPaused := true)), saved), id);
  }

  lemma FireMoves(w: World, id: string)
    ensures Moves(w, Fire(w, id))
  {
    hide StartPoll;
    var p := w.pane;
    var p' := if p.pollScheduled == Some(id) then p.(pollScheduled := None) else p;
    PollsLeaveGate(w.(pane := p', timers := w.timers - multiset{id}), id);
  }

  lemma EditMoves(w: World, e: Event)
    requires IsEdit(e) && !e.Confirm?
    ensures Moves(w, Step(w, e))
  {
    hide BasisChanged, SlideAt, WithoutConflict, ChosenCount;
  }

  lemma NoMove(w: World, w': World)
    requires SameGate(w, w')
    ensures Moves(w, w')
  {
  }

  lemma EventMoves(w: World, e: Event)
    requires !e.Confirm? && !e.Reload?
    ensures Moves(w, Step(w, e))
  {
    hide FinishSubmit, FinishPoll, FinishCancel, Fire, StartSubmit, StartPoll, StartCancel, GateMove, SameGate;
    assert Moves(w, w) by {
      NoMove(w, w) by { Itself(w); }
    }
    match e {
      case Submit(suffix, saved) => SubmitMoves(w, suffix, saved);
      case SubmitReplied(id, reply, saved) =>
        SubmitReplyMoves(Taken(w, SubmitFor(id)), id, reply, saved);
      case Poll =>
        PollsLeaveGate(w, "");
        NoMove(w, StartPoll(w, ""));
      case TimerFired(id) => FireMoves(w, id);
      case PollReplied(id, reply, saved) =>
        PollReplyMoves(Taken(w, PollFor(id)), id, reply, saved);
      case Cancel =>
        PollsLeaveGate(w, "");
        NoMove(w, StartCancel(w));
      case CancelReplied(id, reply, saved) =>
        CancelReplyMoves(Taken(w, CancelFor(id)), id, reply, saved);
      case _ => EditMoves(w, e);
    }
  }

  lemma Itself(w: World)
    ensures SameGate(w, w)
  {
  }

  lemma GateKept(w: World, e: Event)
    requires GateInv(w)
    ensures GateInv(Step(w, e))
  {
    if !e.Confirm? && !e.Reload? {
      hide Step;
      EventMoves(w, e);
    }
  }

  const Fresh := World(Load(None), None, multiset{}, multiset{})

  // Over every run from an empty store, reloads and lost saves included.
  lemma {:induction false} GateAlways(es: seq<Event>)
    ensures GateInv(Run(Fresh, es))
    decreases |es|
  {
    if es != [] {
      GateAlways(es[..|es| - 1]);
      hide Step;
      GateKept(Run(Fresh, es[..|es| - 1]), es[|es| - 1]);
    }
  }

  // ---- a changed basis closes the gate

  ghost predicate PaneClosed(w: World) {
    w.pane.gate.confirmation != Confirmed
  }

  ghost predicate StoreClosed(w: World) {
    w.store.None? || w.store.value.gate.confirmation != Confirmed
  }

  ghost predicate Stale(w: World, documents: seq<Material>) {
    w.pane.result.Some? && BasisChanged(w.pane.result.value.basis, documents)
  }

  lemma {:induction false} StaysClosed(w: World, es: seq<Event>)
    requires PaneClosed(w)
    requires forall i :: 0 <= i < |es| ==> !es[i].Confirm?
    requires StoreClosed(w) || forall i :: 0 <= i < |es| ==> !es[i].Reload?
    ensures PaneClosed(Run(w, es)) && (StoreClosed(w) ==> StoreClosed(Run(w, es)))
    decreases |es|
  {
    if es != [] {
      var before, e := Run(w, es[..|es| - 1]), es[|es| - 1];
      StaysClosed(w, es[..|es| - 1]);
      if !e.Reload? {
        hide Step;
        EventMoves(before, e);
      }
    }
  }

  lemma StaleNow(w: World, documents: seq<Material>, saved: bool)
    requires Stale(w, documents)
    ensures PaneClosed(Step(w, CatalogRefreshed(documents, saved)))
    ensures saved || StoreClosed(w) ==> StoreClosed(Step(w, CatalogRefreshed(documents, saved)))
  {
  }

  // A catalog refresh that shows a basis document missing or re-dated closes the gate, and it stays
  // closed until the outline is confirmed again, within the pane's lifetime; also across reloads
  // when the refresh was saved.
  lemma StaleBasisCloses(w: World, documents: seq<Material>, saved: bool, es: seq<Event>)
    requires Stale(w, documents)
    requires forall i :: 0 <= i < |es| ==> !es[i].Confirm?
    requires saved || StoreClosed(w) || forall i :: 0 <= i < |es| ==> !es[i].Reload?
    ensures PaneClosed(Run(Step(w, CatalogRefreshed(documents, saved)), es))
  {
    hide Step, BasisChanged;
    StaleNow(w, documents, saved);
    StaysClosed(Step(w, CatalogRefreshed(documents, saved)), es);
  }

  // When the save is lost, a reload reopens the gate exactly when the stored copy had it open.
  lemma LostSaveReopens(w: World, documents: seq<Material>)
    requires Stale(w, documents)
    ensures PaneClosed(Run(w, [CatalogRefreshed(documents, false), Reload])) <==> StoreClosed(w)
  {
    var es := [CatalogRefreshed(documents, false), Reload];
    assert es[..1] == [CatalogRefreshed(documents, false)] && es[..1][..0] == [];
    assert Run(w, es[..1]) == Step(Run(w, []), es[0]);
    assert Run(w, es) == Step(Run(w, es[..1]), Reload);
  }
}
