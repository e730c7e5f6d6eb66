/** The two middlewares that take a request body in whole before the application sees it: the one of
    the full-document review and the one of the import preview.  Each folds the messages it receives
    into one bounded buffer and then stands in for the channel. */
module BodyReplay {
  import opened Options
  import opened Octets

  datatype Message = Request(body: seq<byte>, more: bool) | Disconnect | OtherMessage

  // ---- what a stream of messages means

  // The body has been cut off or is over.
  predicate Ended(ms: seq<Message>) {
    ms != [] && (ms[0].Disconnect? || (ms[0].Request? && !ms[0].more) || Ended(ms[1..]))
  }

  // The last part of the body has come before any disconnect.
  predicate Complete(ms: seq<Message>) {
    ms != [] && !ms[0].Disconnect? && ((ms[0].Request? && !ms[0].more) || Complete(ms[1..]))
  }

  // The parts of the body that come before its end, joined.
  function Body(ms: seq<Message>): seq<byte> {
    if ms == [] || ms[0].Disconnect? then []
    else if ms[0].OtherMessage? then Body(ms[1..])
    else if ms[0].more then ms[0].body + Body(ms[1..])
    else ms[0].body
  }

  // The messages after the end of the body.
  function Rest(ms: seq<Message>): seq<Message> {
    if ms == [] then []
    else if ms[0].Disconnect? || (ms[0].Request? && !ms[0].more) then ms[1..]
    else Rest(ms[1..])
  }

  predicate SawRequest(ms: seq<Message>) {
    ms != [] && !ms[0].Disconnect? && (ms[0].Request? || SawRequest(ms[1..]))
  }

  // A stream goes on as its continuation does until its end, and not beyond.
  lemma {:induction false} StreamAppend(a: seq<Message>, b: seq<Message>)
    ensures !Ended(a) ==>
              && Ended(a + b) == Ended(b) && Complete(a + b) == Complete(b)
              && Body(a + b) == Body(a) + Body(b) && Rest(a + b) == Rest(b)
              && SawRequest(a + b) == (SawRequest(a) || SawRequest(b))
    ensures Ended(a) ==>
              && Ended(a + b) && Complete(a + b) == Complete(a)
              && Body(a + b) == Body(a) && Rest(a + b) == Rest(a) + b && SawRequest(a + b) == SawRequest(a)
  {
    if a == [] {
      assert a + b == b;
    } else {
      StreamAppend(a[1..], b);
      assert (a + b)[0] == a[0] && (a + b)[1..] == a[1..] + b;
    }
  }

  lemma {:induction false} CompleteEnds(ms: seq<Message>)
    ensures Complete(ms) ==> Ended(ms) && SawRequest(ms)
    ensures !SawRequest(ms) ==> Body(ms) == []
  {
    if ms != [] {
      CompleteEnds(ms[1..]);
    }
  }

  // ---- the decisions

  datatype Outcome = Waiting | Rejected(received: int) | Accepted(body: seq<byte>, cut: bool)

  // The length at which the body first passes the cap, message by message.
  function FirstOver(ms: seq<Message>, cap: nat, before: nat): (n: nat)
    requires before <= cap < before + |Body(ms)|
    ensures cap < n
  {
    if ms[0].OtherMessage? then FirstOver(ms[1..], cap, before)
    else if before + |ms[0].body| > cap then before + |ms[0].body|
    else FirstOver(ms[1..], cap, before + |ms[0].body|)
  }

  function FullReview(declared: int, cap: nat, ms: seq<Message>): Outcome {
    if declared > cap then Rejected(declared)
    else if |Body(ms)| > cap then Rejected(FirstOver(ms, cap, 0))
    else if !Ended(ms) then Waiting
    else Accepted(Body(ms), !Complete(ms))
  }

  function Preview(declared: int, cap: nat, ms: seq<Message>): Outcome {
    if |Body(ms)| > cap then Rejected(FirstOver(ms, cap, 0))
    else if !Ended(ms) then Waiting
    else if Complete(ms) && declared > cap then Rejected(declared)
    else Accepted(Body(ms), !Complete(ms))
  }

  lemma {:induction false} FirstOverAppend(a: seq<Message>, b: seq<Message>, cap: nat, before: nat)
    requires !Ended(a) && before + |Body(a)| <= cap < before + |Body(a)| + |Body(b)|
    ensures |Body(a + b)| == |Body(a)| + |Body(b)|
    ensures FirstOver(a + b, cap, before) == FirstOver(b, cap, before + |Body(a)|)
  {
    StreamAppend(a, b);
    if a == [] {
      assert a + b == b;
    } else {
      assert (a + b)[0] == a[0] && (a + b)[1..] == a[1..] + b;
      FirstOverAppend(a[1..], b, cap, if a[0].Request? then before + |a[0].body| else before);
    }
  }

  // ---- the channel and the loops

  class Channel {
    const messages: seq<Message>
    var next: nat

    constructor (messages: seq<Message>)
      ensures this.messages == messages && next == 0
    {
      this.messages := messages;
      next := 0;
    }

    ghost predicate Valid()
      reads this
    {
      next <= |messages|
    }

    function Left(): seq<Message>
      requires Valid()
      reads this
    {
      messages[next..]
    }

    // Nothing when no message has come yet.
    method Receive() returns (m: Option<Message>)
      requires Valid()
      modifies this
      ensures Valid()
      ensures old(Left()) == [] ==> m == None && Left() == []
      ensures old(Left()) != [] ==> m == Some(old(Left()[0])) && Left() == old(Left()[1..])
    {
      if next == |messages| {
        return None;
      }
      m := Some(messages[next]);
      next := next + 1;
    }
  }

  lemma NothingYet()
    ensures !Ended([]) && !Complete([]) && Body([]) == [] && Rest([]) == [] && !SawRequest([])
  {
  }

  // What one more message adds to a body that is not over.
  lemma OneMore(seen: seq<Message>, m: Message)
    requires !Ended(seen)
    ensures Ended(seen + [m]) == (m.Disconnect? || (m.Request? && !m.more))
    ensures Body(seen + [m]) == Body(seen) + (if m.Request? then m.body else [])
    ensures Complete(seen + [m]) == (m.Request? && !m.more)
    ensures SawRequest(seen + [m]) == (SawRequest(seen) || m.Request?)
    ensures Rest(seen + [m]) == []
  {
    StreamAppend(seen, [m]);
    assert [m][1..] == [];
  }

  lemma OverFirst(seen: seq<Message>, m: Message, left: seq<Message>, cap: nat)
    requires !Ended(seen) && |Body(seen)| <= cap && m.Request? && |Body(seen)| + |m.body| > cap
    ensures |Body(seen + [m] + left)| > cap
    ensures FirstOver(seen + [m] + left, cap, 0) == |Body(seen)| + |m.body|
  {
    assert seen + [m] + left == seen + ([m] + left);
    assert ([m] + left)[1..] == left;
    FirstOverAppend(seen, [m] + left, cap, 0);
  }

  method FullReviewBody(declared: int, cap: nat, channel: Channel) returns (outcome: Outcome)
    requires channel.Valid()
    modifies channel
    ensures channel.Valid()
    ensures outcome == FullReview(declared, cap, old(channel.Left()))
    ensures outcome.Accepted? ==> channel.Left() == Rest(old(channel.Left()))
    ensures declared > cap ==> channel.Left() == old(channel.Left())
  {
    hide Ended, Complete, Body, Rest, SawRequest, FirstOver;
    ghost var all := channel.Left();
    if declared > cap {
      return Rejected(declared);
    }
    ghost var seen: seq<Message> := [];
    NothingYet();
    var buffered: seq<byte> := [];
    var disconnected := false;
    while true
      invariant channel.Valid() && all == seen + channel.Left()
      invariant !Ended(seen) && buffered == Body(seen) && |buffered| <= cap && !disconnected
      decreases |channel.Left()|
    {
      var received := channel.Receive();
      if received.None? {
        assert all == seen;
        return Waiting;
      }
      var m := received.value;
      OneMore(seen, m);
      StreamAppend(seen + [m], channel.Left());
      assert all == seen + [m] + channel.Left();
      if m.Disconnect? {
        disconnected := true;
        return Accepted(buffered, disconnected);
      }
      if m.OtherMessage? {
        seen := seen + [m];
        continue;
      }
      if |buffered| + |m.body| > cap {
        OverFirst(seen, m, channel.Left(), cap);
        return Rejected(|buffered| + |m.body|);
      }
      buffered := buffered + m.body;
      seen := seen + [m];
      if !m.more {
        return Accepted(buffered, disconnected);
      }
    }
  }

  method PreviewBody(declared: int, cap: nat, channel: Channel) returns (outcome: Outcome, sawRequest: bool)
    requires channel.Valid()
    modifies channel
    ensures channel.Valid()
    ensures outcome == Preview(declared, cap, old(channel.Left()))
    ensures outcome.Accepted? ==>
              channel.Left() == Rest(old(channel.Left())) && sawRequest == SawRequest(old(channel.Left()))
  {
    hide Ended, Complete, Body, Rest, SawRequest, FirstOver;
    ghost var all := channel.Left();
    ghost var seen: seq<Message> := [];
    NothingYet();
    var buffered: seq<byte> := [];
    var disconnected := false;
    sawRequest := false;
    while true
      invariant channel.Valid() && all == seen + channel.Left()
      invariant !Ended(seen) && buffered == Body(seen) && |buffered| <= cap && !disconnected
      invariant sawRequest == SawRequest(seen)
      decreases |channel.Left()|
    {
      var received := channel.Receive();
      if received.None? {
        assert all == seen;
        return Waiting, sawRequest;
      }
      var m := received.value;
      OneMore(seen, m);
      StreamAppend(seen + [m], channel.Left());
      assert all == seen + [m] + channel.Left();
      if m.Disconnect? {
        disconnected := true;
        return Accepted(buffered, disconnected), sawRequest;
      }
      if m.OtherMessage? {
        seen := seen + [m];
        continue;
      }
      sawRequest := true;
      if |buffered| + |m.body| > cap {
        OverFirst(seen, m, channel.Left(), cap);
        return Rejected(|buffered| + |m.body|), sawRequest;
      }
      buffered := buffered + m.body;
      seen := seen + [m];
      if !m.more {
        if declared > cap {
          return Rejected(declared), sawRequest;
        }
        return Accepted(buffered, disconnected), sawRequest;
      }
    }
  }

  // ---- standing in for the channel

  class FullReviewReplay {
    const channel: Channel
    const body: seq<byte>
    const disconnected: bool
    var replayed: bool

    constructor (channel: Channel, body: seq<byte>, disconnected: bool)
      ensures this.channel == channel && this.body == body && this.disconnected == disconnected && !replayed
    {
      this.channel, this.body, this.disconnected := channel, body, disconnected;
      replayed := false;
    }

    // What the application has still to receive; after it, disconnects if the client has gone.
    function Upcoming(): seq<Message>
      requires channel.Valid()
      reads this, channel
    {
      (if replayed then [] else [Request(body, false)]) + (if disconnected then [] else channel.Left())
    }

    method Receive() returns (m: Option<Message>)
      requires channel.Valid()
      modifies this, channel
      ensures channel.Valid()
      ensures old(Upcoming()) != [] ==> m == Some(old(Upcoming()[0])) && Upcoming() == old(Upcoming()[1..])
      ensures old(Upcoming()) == [] ==> m == (if disconnected then Some(Disconnect) else None) && Upcoming() == []
    {
      if !replayed {
        replayed := true;
        return Some(Request(body, false));
      }
      if disconnected {
        return Some(Disconnect);
      }
      m := channel.Receive();
    }
  }

  class PreviewReplay {
    const channel: Channel
    const body: seq<byte>
    const sawRequest: bool
    const disconnected: bool
    var replayStep: nat

    constructor (channel: Channel, body: seq<byte>, sawRequest: bool, disconnected: bool)
      ensures this.channel == channel && this.body == body && this.sawRequest == sawRequest
      ensures this.disconnected == disconnected && replayStep == 0
    {
      this.channel, this.body, this.sawRequest, this.disconnected := channel, body, sawRequest, disconnected;
      replayStep := 0;
    }

    function Upcoming(): seq<Message>
      requires channel.Valid()
      reads this, channel
    {
      (if sawRequest && replayStep == 0 then [Request(body, disconnected)] else []) +
      (if disconnected then [] else channel.Left())
    }

    method Receive() returns (m: Option<Message>)
      requires channel.Valid()
      modifies this, channel
      ensures channel.Valid()
      ensures old(Upcoming()) != [] ==> m == Some(old(Upcoming()[0])) && Upcoming() == old(Upcoming()[1..])
      ensures old(Upcoming()) == [] ==> m == (if disconnected then Some(Disconnect) else None) && Upcoming() == []
    {
      if sawRequest && replayStep == 0 {
        replayStep := 1;
        return Some(Request(body, disconnected));
      }
      if disconnected {
        replayStep := 2;
        return Some(Disconnect);
      }
      m := channel.Receive();
    }
  }

  // ---- the middlewares

  datatype Scope = Scope(kind: string, verb: string, path: string, declared: int)

  predicate IsFullReviewMutation(scope: Scope) {
    && scope.kind == "http" && scope.verb in {"POST", "PUT", "DELETE"}
    && "/word/document-review/full/" <= scope.path
  }

  predicate IsPreviewRequest(scope: Scope) {
    scope.kind == "http" && scope.verb == "POST" && scope.path == "/writing-policies/imports/preview"
  }

  // No outcome: the application has the channel itself.  An accepted request gives the application one
  // message with the whole body, said to be complete, then whatever the channel has left; a client
  // that has gone leaves nothing but its disconnect.
  method CallFullReview(scope: Scope, cap: nat, channel: Channel)
    returns (outcome: Option<Outcome>, replay: FullReviewReplay?)
    requires channel.Valid()
    modifies channel
    ensures channel.Valid()
    ensures !IsFullReviewMutation(scope) ==> outcome == None && channel.Left() == old(channel.Left())
    ensures IsFullReviewMutation(scope) ==> outcome == Some(FullReview(scope.declared, cap, old(channel.Left())))
    ensures replay != null <==> outcome.Some? && outcome.value.Accepted?
    ensures replay != null ==>
              var ms := old(channel.Left());
              && fresh(replay) && replay.channel == channel && replay.disconnected == !Complete(ms)
              && replay.Upcoming() == [Request(Body(ms), false)] + (if Complete(ms) then Rest(ms) else [])
  {
    if !IsFullReviewMutation(scope) {
      return None, null;
    }
    var decided := FullReviewBody(scope.declared, cap, channel);
    outcome, replay := Some(decided), null;
    if decided.Accepted? {
      replay := new FullReviewReplay(channel, decided.body, decided.cut);
    }
  }

  // An accepted preview gives the application one message with the whole body, said to be complete
  // only if it is; with no request message at all, only the disconnect.
  method CallPreview(scope: Scope, cap: nat, channel: Channel)
    returns (outcome: Option<Outcome>, replay: PreviewReplay?)
    requires channel.Valid()
    modifies channel
    ensures channel.Valid()
    ensures !IsPreviewRequest(scope) ==> outcome == None && channel.Left() == old(channel.Left())
    ensures IsPreviewRequest(scope) ==> outcome == Some(Preview(scope.declared, cap, old(channel.Left())))
    ensures replay != null <==> outcome.Some? && outcome.value.Accepted?
    ensures replay != null ==>
              var ms := old(channel.Left());
              && fresh(replay) && replay.channel == channel && replay.disconnected == !Complete(ms)
              && replay.Upcoming() ==
                 if Complete(ms) then [Request(Body(ms), false)] + Rest(ms)
                 else if SawRequest(ms) then [Request(Body(ms), true)]
                 else []
  {
    if !IsPreviewRequest(scope) {
      return None, null;
    }
    CompleteEnds(channel.Left());
    var decided, sawRequest := PreviewBody(scope.declared, cap, channel);
    outcome, replay := Some(decided), null;
    if decided.Accepted? {
      replay := new PreviewReplay(channel, decided.body, sawRequest, decided.cut);
    }
  }

  // ---- what the decisions depend on

  predicate IsLastPart(m: Message) {
    m.Request? && !m.more
  }

  // A disconnect comes before any last part.
  ghost predicate CutOff(ms: seq<Message>) {
    exists i :: 0 <= i < |ms| && ms[i].Disconnect? && (forall j :: 0 <= j < i ==> !IsLastPart(ms[j]))
  }

  lemma {:induction false} EndsOneWay(ms: seq<Message>)
    ensures CutOff(ms) <==> Ended(ms) && !Complete(ms)
  {
    if ms != [] {
      EndsOneWay(ms[1..]);
      if ms[0].Disconnect? {
        assert CutOff(ms);
      } else if CutOff(ms) && !IsLastPart(ms[0]) {
        var i :| 0 <= i < |ms| && ms[i].Disconnect? && (forall j :: 0 <= j < i ==> !IsLastPart(ms[j]));
        assert ms[1..][i - 1].Disconnect? && forall j :: 0 <= j < i - 1 ==> !IsLastPart(ms[1..][j]);
      }
    }
  }

  // A whole body is taken or refused on its declared and actual lengths alone, however it is split.
  lemma LengthsDecide(declared: int, cap: nat, ms: seq<Message>)
    requires Complete(ms)
    ensures FullReview(declared, cap, ms).Accepted? <==> declared <= cap && |Body(ms)| <= cap
    ensures FullReview(declared, cap, ms).Accepted? ==> FullReview(declared, cap, ms) == Accepted(Body(ms), false)
    ensures FullReview(declared, cap, ms).Accepted? || FullReview(declared, cap, ms).Rejected?
    ensures Preview(declared, cap, ms).Accepted? <==> declared <= cap && |Body(ms)| <= cap
    ensures Preview(declared, cap, ms).Accepted? || Preview(declared, cap, ms).Rejected?
  {
    CompleteEnds(ms);
  }

  // The full-document review presents every body it accepts as complete; that is untrue exactly when
  // the client disconnected before the last part.
  lemma FullReviewHidesCut(declared: int, cap: nat, ms: seq<Message>)
    requires FullReview(declared, cap, ms).Accepted?
    ensures FullReview(declared, cap, ms).cut <==> CutOff(ms)
    ensures |FullReview(declared, cap, ms).body| <= cap
  {
    EndsOneWay(ms);
  }

  lemma FullReviewCutExample()
    ensures var ms := [Request([1], true), Disconnect];
            FullReview(0, 1, ms) == Accepted([1], true) && CutOff(ms)
  {
    var ms := [Request([1], true), Disconnect];
    assert ms[1..] == [Disconnect];
    EndsOneWay(ms);
  }

  // The import preview is refused exactly when its body passes the cap, or is whole and was declared
  // over it; it waits exactly while neither that nor an end has come.
  lemma PreviewExact(declared: int, cap: nat, ms: seq<Message>)
    ensures var o := Preview(declared, cap, ms);
            && (o.Rejected? <==> |Body(ms)| > cap || (Complete(ms) && declared > cap))
            && (o.Waiting? <==> |Body(ms)| <= cap && !CutOff(ms) && !Complete(ms))
            && (o.Accepted? ==> o.body == Body(ms) && |o.body| <= cap && (o.cut <==> CutOff(ms)))
            && (o.Accepted? && !SawRequest(ms) ==> o.cut && o.body == [])
  {
    EndsOneWay(ms);
    CompleteEnds(ms);
  }

  // ---- the decisions, said of the stream alone

  // The k-th message is the first that ends the body: the last part, or a disconnect.
  ghost predicate EndsAt(ms: seq<Message>, k: nat) {
    && k < |ms| && (ms[k].Disconnect? || IsLastPart(ms[k]))
    && forall i :: 0 <= i < k ==> !ms[i].Disconnect? && !IsLastPart(ms[i])
  }

  ghost predicate Unended(ms: seq<Message>) {
    forall i :: 0 <= i < |ms| ==> !ms[i].Disconnect? && !IsLastPart(ms[i])
  }

  // The bodies of all the request messages, one after the other.
  function Gathered(ms: seq<Message>): seq<byte> {
    if ms == [] then []
    else
      var last := ms[|ms| - 1];
      Gathered(ms[..|ms| - 1]) + (if last.Request? then last.body else [])
  }

  lemma {:induction false} GatheredFront(m: Message, ms: seq<Message>)
    ensures Gathered([m] + ms) == (if m.Request? then m.body else []) + Gathered(ms)
    decreases |ms|
  {
    if ms == [] {
      assert [m] + ms == [m] && [m][..0] == [];
    } else {
      var before := ms[..|ms| - 1];
      GatheredFront(m, before);
      assert ([m] + ms)[..|[m] + ms| - 1] == [m] + before;
    }
  }

  lemma {:induction false} UnendedIs(ms: seq<Message>)
    requires Unended(ms)
    ensures !Ended(ms) && !Complete(ms) && Body(ms) == Gathered(ms) && Rest(ms) == []
  {
    if ms != [] {
      UnendedIs(ms[1..]);
      assert ms == [ms[0]] + ms[1..];
      GatheredFront(ms[0], ms[1..]);
    }
  }

  lemma EndsAtIs(ms: seq<Message>, k: nat)
    requires EndsAt(ms, k)
    ensures Ended(ms) && Body(ms) == Gathered(ms[..k + 1]) && Rest(ms) == ms[k + 1..]
    ensures Complete(ms) <==> ms[k].Request?
  {
    var front := ms[..k];
    UnendedIs(front);
    OneMore(front, ms[k]);
    assert ms[..k + 1] == front + [ms[k]] && ms == (front + [ms[k]]) + ms[k + 1..];
    StreamAppend(front + [ms[k]], ms[k + 1..]);
    assert (front + [ms[k]])[..k] == front;
    hide Ended, Complete, Body, Rest;
  }

  lemma {:induction false} EndsOrNot(ms: seq<Message>)
    ensures Unended(ms) || exists k: nat :: EndsAt(ms, k)
  {
    if ms != [] {
      EndsOrNot(ms[..|ms| - 1]);
      var front := ms[..|ms| - 1];
      if Unended(front) {
        assert Unended(ms) || EndsAt(ms, |ms| - 1);
      } else {
        var k :| EndsAt(front, k);
        assert EndsAt(ms, k);
      }
    }
  }

  // The body passes the cap with the k-th message, and not before, nor is it over before.
  ghost predicate PassesAt(ms: seq<Message>, cap: nat, k: nat) {
    && k < |ms| && Unended(ms[..k]) && |Gathered(ms[..k])| <= cap < |Gathered(ms[..k + 1])|
  }

  lemma PassesAtIs(ms: seq<Message>, cap: nat, k: nat)
    requires PassesAt(ms, cap, k)
    ensures |Body(ms)| > cap && FirstOver(ms, cap, 0) == |Gathered(ms[..k + 1])|
  {
    var front := ms[..k];
    UnendedIs(front);
    assert ms[..k + 1] == front + [ms[k]] && ms == front + [ms[k]] + ms[k + 1..];
    assert (front + [ms[k]])[..k] == front;
    hide Ended, Body, FirstOver;
    OverFirst(front, ms[k], ms[k + 1..], cap);
  }

  lemma {:induction false} PassesSomewhere(ms: seq<Message>, cap: nat) returns (k: nat)
    requires |Body(ms)| > cap
    ensures PassesAt(ms, cap, k)
    decreases |ms|
  {
    var front, last := ms[..|ms| - 1], ms[|ms| - 1];
    assert ms == front + [last];
    EndsOrNot(front);
    StreamAppend(front, [last]);
    if |Body(front)| > cap {
      k := PassesSomewhere(front, cap);
      assert ms[..k] == front[..k] && ms[..k + 1] == front[..k + 1];
    } else if Unended(front) {
      k := |front|;
      UnendedIs(front);
      OneMore(front, last);
      assert ms[..k] == front && ms[..k + 1] == ms;
    } else {
      var e :| EndsAt(front, e);
      EndsAtIs(front, e);
      assert false;
    }
  }

  // A decision on a body that was declared within the cap, or whose declaration is left aside: refused
  // with the length at which the body passes the cap, taken in whole up to its end, or still open.
  ghost predicate Decides(cap: nat, ms: seq<Message>, o: Outcome) {
    match o
    case Rejected(received) => exists k: nat :: PassesAt(ms, cap, k) && received == |Gathered(ms[..k + 1])|
    case Accepted(body, cut) =>
      exists k: nat :: EndsAt(ms, k) && body == Gathered(ms[..k + 1]) && |body| <= cap && cut == ms[k].Disconnect?
    case Waiting => Unended(ms) && |Gathered(ms)| <= cap
  }

  lemma StreamDecides(cap: nat, ms: seq<Message>, o: Outcome)
    requires o == if |Body(ms)| > cap then Rejected(FirstOver(ms, cap, 0))
                  else if !Ended(ms) then Waiting
                  else Accepted(Body(ms), !Complete(ms))
    ensures Decides(cap, ms, o)
  {
    if |Body(ms)| > cap {
      var k := PassesSomewhere(ms, cap);
      PassesAtIs(ms, cap, k);
    } else {
      EndsOrNot(ms);
      if Unended(ms) {
        UnendedIs(ms);
      } else {
        var k :| EndsAt(ms, k);
        EndsAtIs(ms, k);
      }
    }
    hide Ended, Complete, Body, FirstOver;
  }

  // The full-document review: a declaration over the cap is refused unread.
  lemma FullReviewDecides(declared: int, cap: nat, ms: seq<Message>)
    ensures declared > cap ==> FullReview(declared, cap, ms) == Rejected(declared)
    ensures declared <= cap ==> Decides(cap, ms, FullReview(declared, cap, ms))
  {
    hide Ended, Complete, Body, FirstOver, Decides;
    if declared <= cap {
      StreamDecides(cap, ms, FullReview(declared, cap, ms));
    }
  }

  // The import preview: the declaration counts only against a body that is whole and within the cap.
  lemma PreviewDecides(declared: int, cap: nat, ms: seq<Message>)
    ensures var o := Preview(declared, cap, ms);
            if declared > cap && exists k: nat :: EndsAt(ms, k) && ms[k].Request? && |Gathered(ms[..k + 1])| <= cap
            then o == Rejected(declared)
            else Decides(cap, ms, o)
  {
    hide FirstOver;
    var read := if |Body(ms)| > cap then Rejected(FirstOver(ms, cap, 0))
                else if !Ended(ms) then Waiting
                else Accepted(Body(ms), !Complete(ms));
    StreamDecides(cap, ms, read);
    forall k: nat | EndsAt(ms, k)
      ensures Ended(ms) && Body(ms) == Gathered(ms[..k + 1]) && (Complete(ms) <==> ms[k].Request?)
    {
      EndsAtIs(ms, k);
    }
    EndsOrNot(ms);
    if Unended(ms) {
      UnendedIs(ms);
    }
    hide Ended, Complete, Body, Decides, Gathered;
  }

  // ---- what has been decided stays decided

  lemma {:induction false} FirstOverStays(a: seq<Message>, b: seq<Message>, cap: nat, before: nat)
    requires before <= cap < before + |Body(a)|
    ensures before + |Body(a + b)| > cap && FirstOver(a + b, cap, before) == FirstOver(a, cap, before)
  {
    StreamAppend(a, b);
    assert (a + b)[0] == a[0] && (a + b)[1..] == a[1..] + b;
    if a[0].OtherMessage? {
      FirstOverStays(a[1..], b, cap, before);
    } else if before + |a[0].body| <= cap {
      FirstOverStays(a[1..], b, cap, before + |a[0].body|);
    }
  }

  lemma DecisionStays(declared: int, cap: nat, a: seq<Message>, b: seq<Message>)
    ensures !FullReview(declared, cap, a).Waiting? ==> FullReview(declared, cap, a + b) == FullReview(declared, cap, a)
    ensures !Preview(declared, cap, a).Waiting? ==> Preview(declared, cap, a + b) == Preview(declared, cap, a)
  {
    StreamAppend(a, b);
    if |Body(a)| > cap {
      FirstOverStays(a, b, cap, 0);
    }
    hide FirstOver, Body;
  }

  // ---- a body sent in parts

  function Sent(parts: seq<seq<byte>>): (ms: seq<Message>)
    requires parts != []
  {
    if |parts| == 1 then [Request(parts[0], false)] else [Request(parts[0], true)] + Sent(parts[1..])
  }

  function Joined(parts: seq<seq<byte>>): seq<byte> {
    if parts == [] then [] else parts[0] + Joined(parts[1..])
  }

  // Whatever the parts, the application gets the body they make up, and then what follows them.
  lemma {:induction false} SplitUnseen(parts: seq<seq<byte>>, rest: seq<Message>)
    requires parts != []
    ensures var ms := Sent(parts) + rest; Complete(ms) && Body(ms) == Joined(parts) && Rest(ms) == rest
  {
    var ms := Sent(parts) + rest;
    if |parts| == 1 {
      assert ms[1..] == rest;
    } else {
      assert ms[1..] == Sent(parts[1..]) + rest;
      SplitUnseen(parts[1..], rest);
    }
  }
}
