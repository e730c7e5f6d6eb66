/** The handlers of the slide-outline client in the form the client has them: a session's entry in the
    table of states, updated in place.  A handler that waits for a reply is two methods, one on each
    side of the wait.  Every method is proved to be the step Outline gives for its event, and to keep
    the invariants proved of the machine. */
module OutlinePane {
  import opened Options
  import opened Outline

  // What a pane that kept its invariants left in storage.
  ghost predicate SavedByPane(stored: Option<Saved>) {
    stored.Some? ==> GateHolds(stored.value.gate, stored.value.result, stored.value.draft)
  }

  lemma OpenKept(stored: Option<Saved>)
    ensures PollInv(Open(stored)) && (SavedByPane(stored) ==> GateInv(Open(stored)))
  {
    NeverLost(stored, []);
    assert Run(Open(stored), []) == Open(stored);
  }

  lemma EventKept(w: World, e: Event)
    requires PollInv(w) && GateInv(w) && !e.Reload?
    ensures PollInv(Step(w, e)) && GateInv(Step(w, e))
  {
    hide PollInv, GateInv, Step;
    PollKept(w, e);
    GateKept(w, e);
  }

  class Session {
    var s: Pane
    var store: Option<Saved>
    var inFlight: multiset<Request>
    var timers: multiset<string>

    function View(): World
      reads this
    {
      World(s, store, inFlight, timers)
    }

    // The job the pane waits for is asked after, and a confirmed outline is the one it shows.
    ghost predicate Valid()
      reads this
    {
      PollInv(View()) && GateInv(View())
    }

    // A pane loads what storage holds for its session, and the task pane polls at once.
    constructor (stored: Option<Saved>)
      ensures View() == Open(stored)
      ensures SavedByPane(stored) ==> Valid()
    {
      s := Load(stored);
      store, inFlight, timers := stored, multiset{}, multiset{};
      new;
      Poll("");
      OpenKept(stored);
    }

    // `saved` is whether storage takes the write; a failure is swallowed.
    method Persist(saved: bool)
      modifies this`store
      ensures View() == Outline.Persist(old(View()), saved)
    {
      if saved {
        store := Some(Save(s));
      }
    }

    method DropConfirmation()
      modifies this`s
      ensures s == old(s).(gate := Reopen(old(s).gate))
    {
      if s.gate.confirmation == Confirmed {
        s := s.(gate := s.gate.(confirmation := NeedsReconfirmation));
      }
    }

    // ---- the draft; texts come trimmed

    method SetAudience(text: string, saved: bool)
      requires Valid()
      modifies this
      ensures View() == Step(old(View()), Event.SetAudience(text, saved))
      ensures Valid()
    {
      hide PollInv, GateInv;
      EventKept(View(), Event.SetAudience(text, saved));
      var val := if text == "" then DEFAULT_AUDIENCE else text;
      if s.draft.audience != val {
        s := s.(draft := s.draft.(audience := val));
        DropConfirmation();
        Persist(saved);
      }
    }

    method SetSlideCount(newCount: Option<int>, saved: bool)
      requires Valid()
      modifies this
      ensures View() == Step(old(View()), Event.SetSlideCount(newCount, saved))
      ensures Valid()
    {
      hide PollInv, GateInv;
      EventKept(View(), Event.SetSlideCount(newCount, saved));
      var count;
      if newCount.None? || newCount.value < MIN_SLIDE_COUNT || newCount.value > MAX_SLIDE_COUNT {
        count := DEFAULT_SLIDE_COUNT;
      } else {
        count := newCount.value;
      }
      if s.draft.slideCount != count {
        s := s.(draft := s.draft.(slideCount := count));
        DropConfirmation();
        Persist(saved);
      }
    }

    method SetInstruction(text: string, saved: bool)
      requires Valid()
      modifies this
      ensures View() == Step(old(View()), Event.SetInstruction(text, saved))
      ensures Valid()
    {
      hide PollInv, GateInv;
      EventKept(View(), Event.SetInstruction(text, saved));
      if s.draft.instruction != text {
        s := s.(draft := s.draft.(instruction := text));
        DropConfirmation();
        Persist(saved);
      }
    }

    method SetUserFacts(text: string, saved: bool)
      requires Valid()
      modifies this
      ensures View() == Step(old(View()), Event.SetUserFacts(text, saved))
      ensures Valid()
    {
      hide PollInv, GateInv;
      EventKept(View(), Event.SetUserFacts(text, saved));
      if s.draft.userFacts != text {
        s := s.(draft := s.draft.(userFacts := text));
        DropConfirmation();
        Persist(saved);
      }
    }

    // Array.filter: the choices for other conflicts.
    method Others(chosen: seq<Resolution>, conflictId: string) returns (existing: seq<Resolution>)
      ensures existing == WithoutConflict(chosen, conflictId)
    {
      existing := [];
      for i := 0 to |chosen|
        invariant existing + WithoutConflict(chosen[i..], conflictId) == WithoutConflict(chosen, conflictId)
      {
        assert chosen[i..][1..] == chosen[i + 1..];
        if chosen[i].conflictId != conflictId {
          existing := existing + [chosen[i]];
        }
      }
    }

    method SetConflictResolution(choice: Resolution, saved: bool)
      requires Valid()
      modifies this
      ensures View() == Resolve(old(View()), choice, saved)
      ensures Valid()
    {
      hide PollInv, GateInv;
      EventKept(View(), SetResolution(choice, saved));
      var existing := Others(s.draft.resolutions, choice.conflictId);
      s := s.(draft := s.draft.(resolutions := existing + [choice]));
      DropConfirmation();
      Persist(saved);
    }

    // ---- the basis of the deck

    method OnMaterialsChanged(documents: seq<Material>)
      modifies this`s
      ensures s == CheckBasis(old(s), documents)
    {
      if s.result.None? || s.result.value.basis == [] {
        s := s.(gate := s.gate.(basisWarning := false));
        return;
      }
      var docMap: map<string, string> := map[];
      for i := 0 to |documents|
        invariant forall id :: UpdatedAt(documents[..i], id) == (if id in docMap then Some(docMap[id]) else None)
      {
        assert documents[..i + 1][..i] == documents[..i];
        docMap := docMap[documents[i].materialId := documents[i].updatedAt];
      }
      assert documents[..|documents|] == documents;
      var basis := s.result.value.basis;
      var changed := false;
      for i := 0 to |basis|
        invariant changed ==> BasisChanged(basis, documents)
        invariant !changed ==> forall k :: 0 <= k < i ==> UpdatedAt(documents, basis[k].materialId) == Some(basis[k].updatedAt)
      {
        if basis[i].materialId !in docMap || docMap[basis[i].materialId] != basis[i].updatedAt {
          assert UpdatedAt(documents, basis[i].materialId) != Some(basis[i].updatedAt);
          changed := true;
          break;
        }
      }
      if changed {
        s := s.(gate := s.gate.(basisWarning := true));
        DropConfirmation();
      } else {
        s := s.(gate := s.gate.(basisWarning := false));
      }
    }

    // The successful end of a catalog refresh.
    method CatalogRefreshed(documents: seq<Material>, saved: bool)
      requires Valid()
      modifies this
      ensures View() == Step(old(View()), Event.CatalogRefreshed(documents, saved))
      ensures Valid()
    {
      hide PollInv, GateInv;
      EventKept(View(), Event.CatalogRefreshed(documents, saved));
      OnMaterialsChanged(documents);
      Persist(saved);
    }

    // ---- jobs

    method SchedulePoll(job: string)
      modifies this`s, this`timers
      ensures View() == Outline.SchedulePoll(old(View()), job)
    {
      if s.pollScheduled == Some(job) || !s.busy || s.jobId != job || s.pollPaused {
        return;
      }
      s := s.(pollScheduled := Some(job));
      timers := timers + multiset{job};
    }

    method Poll(expected: string)
      modifies this`inFlight
      ensures View() == StartPoll(old(View()), expected)
      ensures old(Valid()) ==> Valid()
    {
      var job := if expected == "" then s.jobId else expected;
      if job == "" || s.jobId != job || !s.busy || s.pollPaused {
        return;
      }
      inFlight := inFlight + multiset{PollFor(job)};
    }

    method TimerFired(job: string)
      requires job in timers
      requires Valid()
      modifies this
      ensures View() == Step(old(View()), Event.TimerFired(job))
      ensures Valid()
    {
      hide PollInv, GateInv;
      EventKept(View(), Event.TimerFired(job));
      timers := timers - multiset{job};
      if s.pollScheduled == Some(job) {
        s := s.(pollScheduled := None);
      }
      Poll(job);
    }

    method Cancel()
      modifies this`s, this`inFlight
      ensures View() == StartCancel(old(View()))
      ensures old(Valid()) ==> Valid()
    {
      if s.jobId == "" || !s.busy {
        return;
      }
      s := s.(cancelRequested := true);
      inFlight := inFlight + multiset{CancelFor(s.jobId)};
    }

    method Submit(suffix: string, saved: bool)
      requires Valid()
      modifies this
      ensures View() == Step(old(View()), Event.Submit(suffix, saved))
      ensures Valid()
    {
      hide PollInv, GateInv;
      EventKept(View(), Event.Submit(suffix, saved));
      if s.busy && s.pollPaused {
        s := s.(pollPaused := false, pollErrors := 0);
        Poll(s.jobId);
        return;
      }
      if s.busy {
        return;
      }
      s := s.(pollPaused := false, pollErrors := 0, cancelRequested := false, result := None);
      s := s.(gate := s.gate.(confirmation := Unconfirmed, confirmed := None, basisWarning := false));
      s := s.(busy := true, status := Running, jobId := "job_outline_" + suffix);
      Persist(saved);
      inFlight := inFlight + multiset{SubmitFor(s.jobId)};
    }

    method SubmitReplied(clientJobId: string, reply: SubmitReply, saved: bool)
      requires SubmitFor(clientJobId) in inFlight
      requires Valid()
      modifies this
      ensures View() == FinishSubmit(Taken(old(View()), SubmitFor(clientJobId)), clientJobId, reply, saved)
      ensures Valid()
    {
      hide PollInv, GateInv;
      EventKept(View(), Event.SubmitReplied(clientJobId, reply, saved));
      hide Outline.SchedulePoll, StartCancel, Outline.Persist;
      inFlight := inFlight - multiset{SubmitFor(clientJobId)};
      if s.jobId != clientJobId || !s.busy {
        return;
      }
      match reply {
        case Submitted(id, newStatus) =>
          s := s.(jobId := if id == "" then clientJobId else id);
          s := s.(status := if newStatus.None? then Running else newStatus.value);
          Persist(saved);
          if s.cancelRequested {
            Cancel();
            return;
          }
          SchedulePoll(s.jobId);
        case SubmitError(true) =>
          Persist(saved);
          SchedulePoll(clientJobId);
        case SubmitError(false) =>
          s := s.(busy := false, status := Failed);
          Persist(saved);
      }
    }

    method JobPolled(answer: Job, saved: bool)
      requires s.busy
      modifies this
      ensures View() == ApplyJob(old(View()), answer, saved)
    {
      hide Outline.SchedulePoll, StartCancel, Outline.Persist;
      s := s.(pollErrors := 0);
      s := s.(status := if answer.status.None? then s.status else answer.status.value);
      if answer.status == Some(Completed) {
        s := s.(busy := false, result := answer.result);
        s := s.(gate := s.gate.(confirmation := Unconfirmed, confirmed := None, basisWarning := false));
        Persist(saved);
      } else if answer.status == Some(Failed) || answer.status == Some(Cancelled) {
        s := s.(busy := false);
        Persist(saved);
      } else if s.cancelRequested {
        Cancel();
      } else {
        Persist(saved);
        SchedulePoll(s.jobId);
      }
    }

    method PollReplied(job: string, reply: PollReply, saved: bool)
      requires PollFor(job) in inFlight
      requires Valid()
      modifies this
      ensures View() == FinishPoll(Taken(old(View()), PollFor(job)), job, reply, saved)
      ensures Valid()
    {
      hide PollInv, GateInv;
      EventKept(View(), Event.PollReplied(job, reply, saved));
      hide Outline.SchedulePoll, StartCancel, Outline.Persist, ClearedGate;
      inFlight := inFlight - multiset{PollFor(job)};
      if s.jobId != job || !s.busy {
        return;
      }
      match reply {
        case Polled(answer) =>
          JobPolled(answer, saved);
        case PollError(true) =>
          s := s.(busy := false, jobId := "", status := Interrupted);
          Persist(saved);
        case PollError(false) =>
          s := s.(pollErrors := s.pollErrors + 1);
          if s.pollErrors >= MAX_POLL_ERRORS {
            s := s.(pollPaused := true);
          }
          Persist(saved);
          SchedulePoll(job);
      }
    }

    method CancelReplied(job: string, reply: CancelReply, saved: bool)
      requires CancelFor(job) in inFlight
      requires Valid()
      modifies this
      ensures View() == FinishCancel(Taken(old(View()), CancelFor(job)), job, reply, saved)
      ensures Valid()
    {
      hide PollInv, GateInv;
      EventKept(View(), Event.CancelReplied(job, reply, saved));
      inFlight := inFlight - multiset{CancelFor(job)};
      if s.jobId != job {
        return;
      }
      match reply {
        case CancelConfirmed =>
          s := s.(busy := false, status := Cancelled);
          Persist(saved);
        case CancelUnconfirmed =>
          s := s.(pollPaused := true);
          Persist(saved);
          SchedulePoll(job);
      }
    }

    // ---- the gate

    method ConfirmOutline(saved: bool)
      requires Valid()
      modifies this
      ensures View() == Step(old(View()), Event.Confirm(saved))
      ensures Valid()
    {
      hide PollInv, GateInv;
      EventKept(View(), Confirm(saved));
      if s.result.None? || s.result.value.slides == [] {
        return;
      }
      s := s.(gate := s.gate.(confirmed := s.result, confirmation := Confirmed, basedOn := s.draft));
      Persist(saved);
    }

    // Array.find by page index.
    method FindSlide(slides: seq<Slide>, pageIndex: int) returns (i: nat)
      ensures i == SlideAt(slides, pageIndex)
    {
      i := 0;
      while i < |slides| && slides[i].pageIndex != pageIndex
        invariant i <= |slides| && SlideAt(slides, pageIndex) == i + SlideAt(slides[i..], pageIndex)
      {
        assert slides[i..][1..] == slides[i + 1..];
        i := i + 1;
      }
    }

    method UpdateSlideTitle(pageIndex: int, title: string, saved: bool)
      requires Valid()
      modifies this
      ensures View() == Step(old(View()), Event.UpdateTitle(pageIndex, title, saved))
      ensures Valid()
    {
      hide PollInv, GateInv;
      EventKept(View(), UpdateTitle(pageIndex, title, saved));
      if s.result.None? {
        return;
      }
      var slides := s.result.value.slides;
      var i := FindSlide(slides, pageIndex);
      if i < |slides| {
        s := s.(result := Some(s.result.value.(slides := slides[i := slides[i].(title := title)])));
        DropConfirmation();
        Persist(saved);
      }
    }

    method UpdateSlideKeyPoints(pageIndex: int, keyPoints: seq<string>, saved: bool)
      requires Valid()
      modifies this
      ensures View() == Step(old(View()), Event.UpdateKeyPoints(pageIndex, keyPoints, saved))
      ensures Valid()
    {
      hide PollInv, GateInv;
      EventKept(View(), UpdateKeyPoints(pageIndex, keyPoints, saved));
      if s.result.None? {
        return;
      }
      var slides := s.result.value.slides;
      var i := FindSlide(slides, pageIndex);
      if i < |slides| {
        s := s.(result := Some(s.result.value.(slides := slides[i := slides[i].(keyPoints := keyPoints)])));
        DropConfirmation();
        Persist(saved);
      }
    }

    method ClearResult(saved: bool)
      requires Valid()
      modifies this
      ensures View() == Step(old(View()), Event.ClearResult(saved))
      ensures Valid()
    {
      hide PollInv, GateInv;
      EventKept(View(), Event.ClearResult(saved));
      s := s.(result := None);
      s := s.(gate := s.gate.(confirmed := None, confirmation := Unconfirmed));
      s := s.(status := Idle);
      Persist(saved);
    }
  }
}
