/** Style inheritance in the rule-pack compiler: a style takes its attributes from the style it is based
    on and overrides them with its own.  Resolution follows the basedOn links, guarding against
    cycles by the trail it came along, and stores every style it passes. */
module StyleResolution {
  import opened Options

  datatype Value = Text(text: string) | Number(number: real) | Whole(whole: int) | Flag(flag: bool)

  datatype Key =
    | StyleName | FontName | AsciiFontName | FontSize | Bold | Alignment | OutlineLevel
    | LineSpacingTwips | LineSpacing | LineRule
    | SpaceBefore | SpaceAfter | LeftIndent | RightIndent | FirstLineIndent | HangingIndent

  type Attributes = map<Key, Value>

  // A style element, as far as extraction reads it; an empty string is an attribute that is missing
  // or empty.  `bold` is the val of the b element, if there is one; `spacing` and `indent` are the
  // integers among the attributes of spacing and ind.
  datatype Style =
    Style(name: string, eastAsia: string, ascii: string, hAnsi: string, size: Option<real>,
          bold: Option<Option<string>>, alignment: string, outline: Option<int>, lineRule: string,
          spacing: map<string, int>, indent: map<string, int>, basedOn: string)

  // ---- the attributes of one style

  function FirstOf(texts: seq<string>): Option<Value> {
    if texts == [] then None else if texts[0] != "" then Some(Text(texts[0])) else FirstOf(texts[1..])
  }

  function Measure(style: Style, attribute: string): Option<Value> {
    if attribute in style.spacing then Some(Whole(style.spacing[attribute]))
    else if attribute in style.indent then Some(Whole(style.indent[attribute]))
    else None
  }

  // What a style says itself about each attribute.
  function Own(style: Style, key: Key): Option<Value> {
    match key
    case StyleName => FirstOf([style.name])
    case FontName => FirstOf([style.eastAsia, style.ascii, style.hAnsi])
    case AsciiFontName => FirstOf([style.ascii, style.hAnsi])
    case FontSize => if style.size.Some? then Some(Number(style.size.value / 2.0)) else None
    case Bold =>
      if style.bold.None? then None
      else Some(Flag(style.bold.value !in {Some("0"), Some("false"), Some("off"), Some("none")}))
    case Alignment => if style.alignment == "both" then Some(Text("justify")) else FirstOf([style.alignment])
    case OutlineLevel => if style.outline.Some? then Some(Whole(style.outline.value + 1)) else None
    case LineSpacingTwips => if "line" in style.spacing then Some(Whole(style.spacing["line"])) else None
    case LineSpacing => if "line" in style.spacing then Some(Number(style.spacing["line"] as real / 240.0)) else None
    case LineRule => FirstOf([style.lineRule])
    case SpaceBefore => Measure(style, "before")
    case SpaceAfter => Measure(style, "after")
    case LeftIndent => Measure(style, "left")
    case RightIndent => Measure(style, "right")
    case FirstLineIndent => Measure(style, "firstLine")
    case HangingIndent => Measure(style, "hanging")
  }

  const KEYS := {StyleName, FontName, AsciiFontName, FontSize, Bold, Alignment, OutlineLevel, LineSpacingTwips,
                 LineSpacing, LineRule, SpaceBefore, SpaceAfter, LeftIndent, RightIndent, FirstLineIndent,
                 HangingIndent}

  function Said(style: Style, keys: set<Key>): Attributes {
    map key | key in keys && Own(style, key).Some? :: Own(style, key).value
  }

  function Overrides(style: Style): Attributes {
    Said(style, KEYS)
  }

  // ---- inheritance

  // The styles by id; a style without an id is not kept.
  type Sheet = map<string, Style>

  // A walk along basedOn links, from a style up.
  predicate IsWalk(raw: Sheet, walk: seq<string>) {
    forall i :: 0 <= i < |walk| ==> walk[i] in raw && (i + 1 < |walk| ==> raw[walk[i]].basedOn == walk[i + 1])
  }

  // A style's inheritance goes in a circle if some walk from it comes back to a style it has passed.
  ghost predicate Circular(raw: Sheet, id: string) {
    exists walk: seq<string>, i: nat, j: nat :: IsCircle(raw, id, walk, i, j)
  }

  predicate IsCircle(raw: Sheet, id: string, walk: seq<string>, i: nat, j: nat) {
    IsWalk(raw, walk) && i < j < |walk| && walk[0] == id && walk[i] == walk[j]
  }

  // A walk up to a style based on nothing that is there.
  predicate IsLineage(raw: Sheet, walk: seq<string>) {
    IsWalk(raw, walk) && walk != [] && raw[walk[|walk| - 1]].basedOn !in raw
  }

  // The overrides along a walk, from its far end to its start.
  function Overlay(raw: Sheet, walk: seq<string>): Attributes
    requires IsWalk(raw, walk)
  {
    if walk == [] then map[] else Overlay(raw, walk[1..]) + Overrides(raw[walk[0]])
  }

  // What the nearest style on a walk says about an attribute.
  function Nearest(raw: Sheet, walk: seq<string>, key: Key): Option<Value>
    requires IsWalk(raw, walk)
  {
    if walk == [] then None
    else if Own(raw[walk[0]], key).Some? then Own(raw[walk[0]], key)
    else Nearest(raw, walk[1..], key)
  }

  lemma {:induction false} NearestSays(raw: Sheet, walk: seq<string>, key: Key)
    requires IsWalk(raw, walk)
    ensures Nearest(raw, walk, key) ==
            if key in Overlay(raw, walk) then Some(Overlay(raw, walk)[key]) else None
  {
    if walk != [] {
      NearestSays(raw, walk[1..], key);
      OverridesSay(raw[walk[0]], key);
      hide Own, Overrides;
    }
  }

  lemma OverridesSay(style: Style, key: Key)
    ensures Own(style, key) == if key in Overrides(style) then Some(Overrides(style)[key]) else None
  {
    hide Own;
  }

  function Visited(trail: seq<string>): set<string> {
    set id | id in trail
  }

  lemma Shorter(raw: Sheet, id: string, trail: seq<string>)
    requires id in raw && id !in trail
    ensures raw.Keys - Visited(trail + [id]) < raw.Keys - Visited(trail)
  {
    assert id in raw.Keys - Visited(trail) && id !in raw.Keys - Visited(trail + [id]);
  }

  // What resolution returns for a style reached along a trail, and all it stores on the way.
  function Resolved(raw: Sheet, id: string, trail: seq<string>): Attributes
    decreases raw.Keys - Visited(trail)
  {
    if id in trail || id !in raw then map[]
    else
      assert id in raw.Keys - Visited(trail) && id !in raw.Keys - Visited(trail + [id]);
      var base := raw[id].basedOn;
      (if base == "" then map[] else Resolved(raw, base, trail + [id])) + Overrides(raw[id])
  }

  function Stored(raw: Sheet, id: string, trail: seq<string>): map<string, Attributes>
    decreases raw.Keys - Visited(trail)
  {
    if id in trail || id !in raw then map[]
    else
      assert id in raw.Keys - Visited(trail) && id !in raw.Keys - Visited(trail + [id]);
      var base := raw[id].basedOn;
      (if base == "" then map[] else Stored(raw, base, trail + [id]))[id := Resolved(raw, id, trail)]
  }

  // ---- resolution goes up a walk

  // The walk up from a style, as far as it goes without coming back to the trail.
  function Ancestry(raw: Sheet, id: string, trail: seq<string>): (walk: seq<string>)
    ensures IsWalk(raw, walk) && (walk != [] ==> walk[0] == id)
    decreases raw.Keys - Visited(trail)
  {
    if id in trail || id !in raw then []
    else
      assert id in raw.Keys - Visited(trail) && id !in raw.Keys - Visited(trail + [id]);
      [id] + Ancestry(raw, raw[id].basedOn, trail + [id])
  }

  predicate Distinct(walk: seq<string>) {
    forall i, j :: 0 <= i < j < |walk| ==> walk[i] != walk[j]
  }

  lemma Apart(a: seq<string>, b: seq<string>, k: nat)
    requires Distinct(a + b) && k < |b|
    ensures b[k] !in a
  {
    forall i | 0 <= i < |a|
      ensures a[i] != b[k]
    {
      assert (a + b)[i] == a[i] && (a + b)[|a| + k] == b[k];
    }
  }

  lemma WalkOn(raw: Sheet, walk: seq<string>, id: string)
    requires IsWalk(raw, walk) && id in raw && (walk != [] ==> raw[walk[|walk| - 1]].basedOn == id)
    ensures IsWalk(raw, walk + [id])
  {
  }

  lemma CircleFound(raw: Sheet, path: seq<string>, base: string)
    requires IsWalk(raw, path + [base]) && base in path
    ensures Circular(raw, path[0])
  {
    var i :| 0 <= i < |path| && path[i] == base;
    assert IsCircle(raw, path[0], path + [base], i, |path|);
  }

  // Without a circle the walk up is a lineage, clear of the trail it started from.
  lemma {:induction false} AncestryIsLineage(raw: Sheet, id: string, trail: seq<string>)
    requires IsWalk(raw, trail + [id]) && Distinct(trail + [id]) && !Circular(raw, (trail + [id])[0])
    ensures IsLineage(raw, Ancestry(raw, id, trail)) && Ancestry(raw, id, trail)[0] == id
    decreases raw.Keys - Visited(trail)
  {
    var path := trail + [id];
    Apart(trail, [id], 0);
    assert path[|trail|] == id && [id][0] == id;
    Shorter(raw, id, trail);
    var base := raw[id].basedOn;
    if base in raw {
      WalkOn(raw, path, base);
      if base in path {
        CircleFound(raw, path, base);
      } else {
        AncestryIsLineage(raw, base, path);
      }
    }
  }

  lemma LineageGoesOn(raw: Sheet, walk: seq<string>)
    requires IsLineage(raw, walk)
    ensures |walk| > 1 <==> raw[walk[0]].basedOn in raw
  {
    if |walk| > 1 {
      assert walk[1] in raw && raw[walk[0]].basedOn == walk[1];
    }
  }

  lemma {:induction false} LineageIsUnique(raw: Sheet, a: seq<string>, b: seq<string>)
    requires IsLineage(raw, a) && IsLineage(raw, b) && a[0] == b[0]
    ensures a == b
    decreases |a|
  {
    LineageGoesOn(raw, a);
    LineageGoesOn(raw, b);
    if |a| > 1 && |b| > 1 {
      LineageIsUnique(raw, a[1..], b[1..]);
      assert a == [a[0]] + a[1..] && b == [b[0]] + b[1..];
    }
  }

  lemma LineageIsDistinct(raw: Sheet, walk: seq<string>)
    requires IsLineage(raw, walk)
    ensures Distinct(walk)
  {
    forall i, j | 0 <= i < j < |walk|
      ensures walk[i] != walk[j]
    {
      if walk[i] == walk[j] {
        LineageIsUnique(raw, walk[i..], walk[j..]);
        assert false;
      }
    }
  }

  lemma {:induction false} WalkIsPrefix(raw: Sheet, walk: seq<string>, lineage: seq<string>)
    requires IsWalk(raw, walk) && IsLineage(raw, lineage) && walk != [] && walk[0] == lineage[0]
    ensures walk <= lineage
    decreases |walk|
  {
    if |walk| > 1 {
      assert walk[1] in raw && raw[walk[0]].basedOn == walk[1];
      LineageGoesOn(raw, lineage);
      WalkIsPrefix(raw, walk[1..], lineage[1..]);
      assert walk == [walk[0]] + walk[1..] && lineage == [lineage[0]] + lineage[1..];
    }
  }

  // A style has a lineage exactly when its inheritance does not go in a circle.
  lemma LineageIffNotCircular(raw: Sheet, id: string)
    requires id in raw
    ensures !Circular(raw, id) <==> IsLineage(raw, Ancestry(raw, id, []))
    ensures !Circular(raw, id) <==> exists walk :: IsLineage(raw, walk) && walk[0] == id
  {
    if !Circular(raw, id) {
      assert [] + [id] == [id] && IsWalk(raw, [id]);
      AncestryIsLineage(raw, id, []);
    } else {
      var walk, i: nat, j: nat :| IsCircle(raw, id, walk, i, j);
      forall lineage | IsLineage(raw, lineage) && lineage[0] == id
        ensures false
      {
        WalkIsPrefix(raw, walk, lineage);
        LineageIsDistinct(raw, lineage);
        assert false;
      }
      assert Ancestry(raw, id, []) != [];
    }
  }

  // A style resolves to the overlay of the walk up from it, as far as the trail lets it go.
  lemma {:induction false} ResolvedIsOverlay(raw: Sheet, id: string, trail: seq<string>)
    requires "" !in raw
    ensures Resolved(raw, id, trail) == Overlay(raw, Ancestry(raw, id, trail))
    decreases raw.Keys - Visited(trail)
  {
    if id !in trail && id in raw {
      Shorter(raw, id, trail);
      ResolvedIsOverlay(raw, raw[id].basedOn, trail + [id]);
      hide Visited, Overrides;
      assert Ancestry(raw, id, trail)[1..] == Ancestry(raw, raw[id].basedOn, trail + [id]);
    }
  }

  // ---- circles of two styles or more

  // The styles of a circle in order, once round or more; a style based on itself makes no such circle.
  predicate IsLoop(raw: Sheet, id: string, loop: seq<string>) {
    IsWalk(raw, loop) && |loop| >= 2 && loop[0] == id && loop[1] != id && raw[loop[|loop| - 1]].basedOn == id
  }

  ghost predicate OnLoop(raw: Sheet, id: string) {
    exists loop :: IsLoop(raw, id, loop)
  }

  lemma LoopIsCircular(raw: Sheet, id: string, loop: seq<string>)
    requires IsLoop(raw, id, loop)
    ensures Circular(raw, id)
  {
    WalkOn(raw, loop, id);
    assert IsCircle(raw, id, loop + [id], 0, |loop|);
  }

  lemma LoopFound(raw: Sheet, trail: seq<string>, path: seq<string>, i: nat)
    requires path != [] && IsWalk(raw, trail + path) && IsWalk(raw, path) && Distinct(path) && i < |trail|
    requires (forall k :: 0 <= k < |path| ==> path[k] !in trail) && raw[path[|path| - 1]].basedOn == trail[i]
    ensures OnLoop(raw, path[0])
  {
    var all, loop := trail + path, path + trail[i..];
    forall k | 0 <= k < |loop|
      ensures loop[k] in raw && (k + 1 < |loop| ==> raw[loop[k]].basedOn == loop[k + 1])
    {
      if k >= |path| {
        assert loop[k] == all[k - |path| + i] && (k + 1 < |loop| ==> loop[k + 1] == all[k - |path| + i + 1]);
      }
    }
    assert all[|trail| - 1] == loop[|loop| - 1] && all[|trail|] == path[0];
    assert trail[i] in trail;
    assert IsLoop(raw, path[0], loop);
  }

  // The walk up from a style that is on no loop is the same by whatever trail it is reached: `path` is
  // how far it has got from the style the trail leads to.
  lemma {:induction false} SameAncestry(raw: Sheet, trail: seq<string>, path: seq<string>)
    requires path != [] && IsWalk(raw, trail + path) && IsWalk(raw, path) && Distinct(path)
    requires !OnLoop(raw, path[0])
    requires forall k :: 0 <= k < |path| ==> path[k] !in trail
    ensures var base := raw[path[|path| - 1]].basedOn;
            Ancestry(raw, base, trail + path) == Ancestry(raw, base, path)
    decreases raw.Keys - Visited(path)
  {
    var last := |path| - 1;
    assert (trail + path)[|trail| + last] == path[last];
    var base := raw[path[last]].basedOn;
    if base in trail {
      var i :| 0 <= i < |trail| && trail[i] == base;
      LoopFound(raw, trail, path, i);
      assert false;
    } else if base in raw && base !in path {
      Shorter(raw, base, path);
      hide Visited;
      WalkOn(raw, trail + path, base);
      WalkOn(raw, path, base);
      assert trail + path + [base] == trail + (path + [base]);
      SameAncestry(raw, trail, path + [base]);
    }
  }

  // What resolution makes of a style that is on no loop does not depend on the trail that leads to it.
  lemma TrailDoesNotMatter(raw: Sheet, trail: seq<string>, id: string)
    requires "" !in raw && IsWalk(raw, trail + [id]) && id !in trail && !OnLoop(raw, id)
    ensures Resolved(raw, id, trail) == Resolved(raw, id, []) == Overlay(raw, Ancestry(raw, id, []))
  {
    assert (trail + [id])[|trail|] == id;
    SameAncestry(raw, trail, [id]);
    ResolvedIsOverlay(raw, id, trail);
    ResolvedIsOverlay(raw, id, []);
    hide OnLoop, Resolved, Overlay;
    assert [] + [id] == [id] && id !in [];
    assert Ancestry(raw, id, trail) == Ancestry(raw, id, []);
  }

  // ---- the whole sheet

  // What is stored while a style resolves is what some style above it resolves to, by the trail that
  // leads there.
  lemma {:induction false} StoredIsAbove(raw: Sheet, id: string, trail: seq<string>, above: string)
    returns (walk: seq<string>)
    requires above in Stored(raw, id, trail)
    ensures above in raw && IsWalk(raw, walk + [above]) && (walk + [above])[0] == id && above !in trail + walk
    ensures Stored(raw, id, trail)[above] == Resolved(raw, above, trail + walk)
    decreases raw.Keys - Visited(trail)
  {
    if above == id {
      walk := [];
      assert walk + [above] == [id] && trail + walk == trail;
    } else {
      Shorter(raw, id, trail);
      hide Visited, Resolved;
      var rest := StoredIsAbove(raw, raw[id].basedOn, trail + [id], above);
      walk := [id] + rest;
      assert walk + [above] == [id] + (rest + [above]) && trail + walk == trail + [id] + rest;
    }
  }

  lemma {:induction false} StoredIsAncestry(raw: Sheet, id: string, trail: seq<string>)
    requires "" !in raw
    ensures forall above :: above in Stored(raw, id, trail) <==> above in Ancestry(raw, id, trail)
    decreases raw.Keys - Visited(trail)
  {
    if id !in trail && id in raw {
      Shorter(raw, id, trail);
      hide Visited, Resolved;
      StoredIsAncestry(raw, raw[id].basedOn, trail + [id]);
    }
  }

  function Compiled(raw: Sheet, order: seq<string>): map<string, Attributes> {
    if order == [] then map[] else Compiled(raw, order[..|order| - 1]) + Stored(raw, order[|order| - 1], [])
  }

  // A style has what it resolves to alone, unless it is on a loop.
  ghost predicate Settled(raw: Sheet, styles: map<string, Attributes>, id: string)
    requires id in styles
  {
    id in raw && (!OnLoop(raw, id) ==> styles[id] == Overlay(raw, Ancestry(raw, id, [])))
  }

  lemma StoredIsSettled(raw: Sheet, from: string, id: string)
    requires "" !in raw && id in Stored(raw, from, [])
    ensures Settled(raw, Stored(raw, from, []), id)
  {
    var walk := StoredIsAbove(raw, from, [], id);
    assert [] + walk == walk;
    hide Stored, Ancestry, Resolved, OnLoop;
    if !OnLoop(raw, id) {
      TrailDoesNotMatter(raw, walk, id);
    }
  }

  lemma StoresItself(raw: Sheet, id: string)
    requires id in raw
    ensures id in Stored(raw, id, [])
  {
  }

  // Whatever the order the styles are taken in, and whatever loops there are elsewhere, every style
  // that is on none ends up with the overlay of the walk up from it.
  lemma {:induction false} CompiledIsSettled(raw: Sheet, order: seq<string>)
    requires "" !in raw && (forall id :: id in order ==> id in raw)
    ensures forall id :: id in order ==> id in Compiled(raw, order)
    ensures forall id :: id in Compiled(raw, order) ==> Settled(raw, Compiled(raw, order), id)
    decreases |order|
  {
    if order != [] {
      var last, before := order[|order| - 1], order[..|order| - 1];
      CompiledIsSettled(raw, before);
      StoresItself(raw, last);
      assert forall x :: x in order <==> x in before || x == last;
      hide Overlay, Ancestry, Stored, OnLoop;
      forall id | id in Compiled(raw, order)
        ensures Settled(raw, Compiled(raw, order), id)
      {
        if id in Stored(raw, last, []) {
          StoredIsSettled(raw, last, id);
        }
      }
    }
  }

  // ---- exactly when the order decides

  // The order of a sheet: each of its styles, once.
  ghost predicate IsOrder(raw: Sheet, order: seq<string>) {
    Distinct(order) && forall id :: id in order <==> id in raw
  }

  // Two orders of the sheet give the style different attributes.
  ghost predicate OrderDecides(raw: Sheet, id: string) {
    exists one, other :: DifferUnder(raw, id, one, other)
  }

  ghost predicate DifferUnder(raw: Sheet, id: string, one: seq<string>, other: seq<string>) {
    && IsOrder(raw, one) && IsOrder(raw, other) && id in Compiled(raw, one) && id in Compiled(raw, other)
    && Compiled(raw, one)[id] != Compiled(raw, other)[id]
  }

  // Some style of a loop through this one states an attribute this one does not state itself.
  ghost predicate LeansOnLoop(raw: Sheet, id: string) {
    exists loop, i: nat, key :: Leans(raw, id, loop, i, key)
  }

  predicate Leans(raw: Sheet, id: string, loop: seq<string>, i: nat, key: Key) {
    IsLoop(raw, id, loop) && i < |loop| && Own(raw[id], key).None? && Own(raw[loop[i]], key).Some?
  }

  lemma {:induction false} StaysOnLoop(raw: Sheet, id: string, loop: seq<string>, walk: seq<string>, k: nat)
    requires IsLoop(raw, id, loop) && IsWalk(raw, walk) && k < |walk| && walk[0] == id
    ensures walk[k] in loop
    decreases k
  {
    if k > 0 {
      StaysOnLoop(raw, id, loop, walk, k - 1);
      var i :| 0 <= i < |loop| && loop[i] == walk[k - 1];
      assert walk[k] == if i + 1 < |loop| then loop[i + 1] else id;
    }
  }

  lemma {:induction false} NothingNearest(raw: Sheet, walk: seq<string>, key: Key)
    requires IsWalk(raw, walk) && forall i :: 0 <= i < |walk| ==> Own(raw[walk[i]], key).None?
    ensures Nearest(raw, walk, key).None?
  {
    if walk != [] {
      NothingNearest(raw, walk[1..], key);
    }
  }

  lemma {:induction false} SomethingNearest(raw: Sheet, walk: seq<string>, key: Key, i: nat)
    requires IsWalk(raw, walk) && i < |walk| && Own(raw[walk[i]], key).Some?
    ensures Nearest(raw, walk, key).Some?
  {
    if i > 0 {
      SomethingNearest(raw, walk[1..], key, i - 1);
    }
  }

  // If the loop adds nothing to what the style states, the style resolves to that by every trail.
  lemma SelfContained(raw: Sheet, id: string, loop: seq<string>, trail: seq<string>)
    requires "" !in raw && IsLoop(raw, id, loop) && !LeansOnLoop(raw, id) && id !in trail
    ensures Resolved(raw, id, trail) == Overrides(raw[id])
  {
    ResolvedIsOverlay(raw, id, trail);
    var walk := Ancestry(raw, id, trail);
    assert walk != [];
    hide Resolved, Ancestry, Own, Overrides, Overlay;
    forall key
      ensures (if key in Overlay(raw, walk) then Some(Overlay(raw, walk)[key]) else None) ==
              (if key in Overrides(raw[id]) then Some(Overrides(raw[id])[key]) else None)
    {
      NearestSays(raw, walk, key);
      OverridesSay(raw[id], key);
      if Own(raw[id], key).None? {
        forall i | 0 <= i < |walk|
          ensures Own(raw[walk[i]], key).None?
        {
          StaysOnLoop(raw, id, loop, walk, i);
          var j :| 0 <= j < |loop| && loop[j] == walk[i];
          assert !Leans(raw, id, loop, j, key);
        }
        NothingNearest(raw, walk, key);
      }
    }
    assert Overlay(raw, walk) == Overrides(raw[id]) by {
      SameAttributes(Overlay(raw, walk), Overrides(raw[id]));
    }
  }

  lemma SameAttributes(one: Attributes, other: Attributes)
    requires forall key ::
               (if key in one then Some(one[key]) else None) == (if key in other then Some(other[key]) else None)
    ensures one == other
  {
  }

  lemma {:induction false} SelfContainedCompiles(raw: Sheet, id: string, loop: seq<string>, order: seq<string>)
    requires "" !in raw && IsLoop(raw, id, loop) && !LeansOnLoop(raw, id) && id in Compiled(raw, order)
    ensures Compiled(raw, order)[id] == Overrides(raw[id])
    decreases |order|
  {
    var last := order[|order| - 1];
    if id in Stored(raw, last, []) {
      var walk := StoredIsAbove(raw, last, [], id);
      hide Stored, Resolved, Overrides, LeansOnLoop, IsLoop;
      SelfContained(raw, id, loop, [] + walk);
    } else {
      hide Stored, Resolved, Overrides, LeansOnLoop, IsLoop;
      SelfContainedCompiles(raw, id, loop, order[..|order| - 1]);
    }
  }

  // ---- and two orders when it does

  lemma {:induction false} Listing(ids: set<string>) returns (list: seq<string>)
    ensures Distinct(list) && forall id :: id in list <==> id in ids
    decreases |ids|
  {
    if ids == {} {
      list := [];
    } else {
      var id :| id in ids;
      var rest := Listing(ids - {id});
      list := rest + [id];
      assert ids == (ids - {id}) + {id};
    }
  }

  lemma OrderEnding(raw: Sheet, id: string) returns (before: seq<string>)
    requires id in raw
    ensures IsOrder(raw, before + [id]) && id !in before
  {
    before := Listing(raw.Keys - {id});
    assert forall x :: x in before + [id] <==> x in before || x == id;
  }

  // The walk up from a style stops only where it has been, or where there is nothing.
  lemma {:induction false} AncestryCloses(raw: Sheet, id: string, trail: seq<string>, above: string)
    requires above in Ancestry(raw, id, trail)
    ensures above in raw
    ensures raw[above].basedOn in raw ==> raw[above].basedOn in trail + Ancestry(raw, id, trail)
    decreases raw.Keys - Visited(trail)
  {
    Shorter(raw, id, trail);
    hide Visited;
    var base := raw[id].basedOn;
    var rest := Ancestry(raw, base, trail + [id]);
    assert Ancestry(raw, id, trail) == [id] + rest;
    if above in rest {
      AncestryCloses(raw, base, trail + [id], above);
    } else if base in raw && base !in trail + [id] {
      assert rest[0] == base;
    }
  }

  lemma {:induction false} AncestryHasLoop(raw: Sheet, loop: seq<string>, i: nat, j: nat)
    requires IsWalk(raw, loop) && i <= j < |loop|
    ensures loop[j] in Ancestry(raw, loop[i], [])
    decreases j
  {
    if j > i {
      AncestryHasLoop(raw, loop, i, j - 1);
      AncestryCloses(raw, loop[i], [], loop[j - 1]);
      assert raw[loop[j - 1]].basedOn == loop[j];
      assert [] + Ancestry(raw, loop[i], []) == Ancestry(raw, loop[i], []);
    } else {
      assert Ancestry(raw, loop[i], [])[0] == loop[i];
    }
  }

  // Taken last, the style has all of its loop.
  lemma TakenLastLeans(raw: Sheet, id: string, loop: seq<string>, i: nat, key: Key, before: seq<string>)
    requires "" !in raw && Leans(raw, id, loop, i, key)
    ensures id in Compiled(raw, before + [id]) && key in Compiled(raw, before + [id])[id]
  {
    assert (before + [id])[..|before|] == before;
    AncestryHasLoop(raw, loop, 0, i);
    ResolvedIsOverlay(raw, id, []);
    assert id in Stored(raw, id, []) && Stored(raw, id, [])[id] == Resolved(raw, id, []);
    var walk := Ancestry(raw, id, []);
    hide Stored, Resolved, Ancestry, Own, Overlay;
    var j :| 0 <= j < |walk| && walk[j] == loop[i];
    SomethingNearest(raw, walk, key, j);
    NearestSays(raw, walk, key);
  }

  // With the style it is based on taken last, it is the end of its loop and has only what it states.
  lemma BaseTakenLast(raw: Sheet, id: string, loop: seq<string>, key: Key, before: seq<string>)
    requires "" !in raw && IsLoop(raw, id, loop) && Own(raw[id], key).None?
    ensures id in Compiled(raw, before + [loop[1]]) && key !in Compiled(raw, before + [loop[1]])[id]
  {
    var base := loop[1];
    assert base == raw[id].basedOn && (before + [base])[..|before|] == before;
    var last := loop[|loop| - 1];
    AncestryHasLoop(raw, loop, 1, |loop| - 1);
    AncestryCloses(raw, base, [], last);
    assert [] + Ancestry(raw, base, []) == Ancestry(raw, base, []);
    StoredIsAncestry(raw, base, []);
    var walk := StoredIsAbove(raw, base, [], id);
    assert [] + walk == walk && walk != [] && (walk + [id])[0] == walk[0] == base;
    OverridesSay(raw[id], key);
    assert Resolved(raw, id, walk) == map[] + Overrides(raw[id]) by {
      ResolveStep(raw, id, walk, map[]);
      ResolveStep(raw, base, walk + [id], map[]);
      hide Overrides, Resolved, Stored;
    }
    hide Stored, Resolved, Ancestry, Own, Overrides;
  }

  lemma OrdersAgree(raw: Sheet, id: string, one: seq<string>, other: seq<string>)
    requires "" !in raw && id in raw && !LeansOnLoop(raw, id) && IsOrder(raw, one) && IsOrder(raw, other)
    ensures !DifferUnder(raw, id, one, other)
  {
    CompiledIsSettled(raw, one);
    CompiledIsSettled(raw, other);
    hide Compiled, Own, Overlay, Ancestry, LeansOnLoop, IsLoop, Overrides;
    if OnLoop(raw, id) {
      var loop :| IsLoop(raw, id, loop);
      SelfContainedCompiles(raw, id, loop, one);
      SelfContainedCompiles(raw, id, loop, other);
    } else {
      assert Settled(raw, Compiled(raw, one), id) && Settled(raw, Compiled(raw, other), id);
    }
  }

  lemma OrdersDiffer(raw: Sheet, id: string)
    requires "" !in raw && id in raw && LeansOnLoop(raw, id)
    ensures OrderDecides(raw, id)
  {
    hide Compiled, IsOrder, Own;
    var loop, i: nat, key :| Leans(raw, id, loop, i, key);
    var one := OrderEnding(raw, id);
    var other := OrderEnding(raw, loop[1]);
    TakenLastLeans(raw, id, loop, i, key, one);
    BaseTakenLast(raw, id, loop, key, other);
    assert DifferUnder(raw, id, one + [id], other + [loop[1]]);
  }

  // Two orders of a sheet give a style different attributes exactly when it is on a loop with another
  // style that states an attribute it does not state itself.
  lemma OrderDecidesExactly(raw: Sheet, id: string)
    requires "" !in raw && id in raw
    ensures OrderDecides(raw, id) <==> LeansOnLoop(raw, id)
  {
    if LeansOnLoop(raw, id) {
      OrdersDiffer(raw, id);
    } else {
      hide LeansOnLoop, Compiled, IsOrder;
      forall one, other
        ensures !DifferUnder(raw, id, one, other)
      {
        if IsOrder(raw, one) && IsOrder(raw, other) {
          OrdersAgree(raw, id, one, other);
        }
      }
    }
  }

  // ---- what extraction reads, said of the style element alone

  // The style says nothing about the key.
  predicate Inherits(base: Attributes, result: Attributes, key: Key) {
    if key in base then key in result && result[key] == base[key] else key !in result
  }

  predicate Says(result: Attributes, key: Key, value: Value) {
    key in result && result[key] == value
  }

  // The k-th of the texts is the first that is not empty.
  predicate IsFirst(texts: seq<string>, k: nat) {
    k < |texts| && texts[k] != "" && forall i :: 0 <= i < k ==> texts[i] == ""
  }

  ghost predicate ReadsFirst(base: Attributes, result: Attributes, key: Key, texts: seq<string>) {
    && (forall k: nat :: IsFirst(texts, k) ==> Says(result, key, Text(texts[k])))
    && ((forall k :: 0 <= k < |texts| ==> texts[k] == "") ==> Inherits(base, result, key))
  }

  // An integer among the attributes of spacing, or else among those of ind.
  ghost predicate ReadsWhole(base: Attributes, result: Attributes, key: Key, style: Style, attribute: string) {
    if attribute in style.spacing then Says(result, key, Whole(style.spacing[attribute]))
    else if attribute in style.indent then Says(result, key, Whole(style.indent[attribute]))
    else Inherits(base, result, key)
  }

  ghost predicate ReadsRun(style: Style, base: Attributes, result: Attributes) {
    && ReadsFirst(base, result, StyleName, [style.name])
    && ReadsFirst(base, result, FontName, [style.eastAsia, style.ascii, style.hAnsi])
    && ReadsFirst(base, result, AsciiFontName, [style.ascii, style.hAnsi])
    && (match style.size
        case None => Inherits(base, result, FontSize)
        case Some(halves) => exists points :: Says(result, FontSize, Number(points)) && points + points == halves)
    && (match style.bold
        case None => Inherits(base, result, Bold)
        case Some(val) => Says(result, Bold, Flag(!IsOff(val))))
  }

  // The values of b that turn bold off; b alone turns it on.
  predicate IsOff(val: Option<string>) {
    val == Some("0") || val == Some("false") || val == Some("off") || val == Some("none")
  }

  ghost predicate ReadsParagraph(style: Style, base: Attributes, result: Attributes) {
    && (if style.alignment == "both" then Says(result, Alignment, Text("justify"))
        else ReadsFirst(base, result, Alignment, [style.alignment]))
    && (match style.outline
        case None => Inherits(base, result, OutlineLevel)
        case Some(level) => Says(result, OutlineLevel, Whole(level + 1)))
    && (if "line" in style.spacing then
          && Says(result, LineSpacingTwips, Whole(style.spacing["line"]))
          && exists lines: real :: Says(result, LineSpacing, Number(lines)) && lines * 240.0 == style.spacing["line"] as real
        else Inherits(base, result, LineSpacingTwips) && Inherits(base, result, LineSpacing))
    && ReadsFirst(base, result, LineRule, [style.lineRule])
  }

  ghost predicate ReadsMeasures(style: Style, base: Attributes, result: Attributes) {
    && ReadsWhole(base, result, SpaceBefore, style, "before") && ReadsWhole(base, result, SpaceAfter, style, "after")
    && ReadsWhole(base, result, LeftIndent, style, "left") && ReadsWhole(base, result, RightIndent, style, "right")
    && ReadsWhole(base, result, FirstLineIndent, style, "firstLine")
    && ReadsWhole(base, result, HangingIndent, style, "hanging")
  }

  lemma {:induction false} FirstOfIsFirst(texts: seq<string>)
    ensures forall k: nat :: IsFirst(texts, k) ==> FirstOf(texts) == Some(Text(texts[k]))
    ensures (forall k :: 0 <= k < |texts| ==> texts[k] == "") ==> FirstOf(texts) == None
  {
    if texts != [] && texts[0] == "" {
      FirstOfIsFirst(texts[1..]);
      forall k: nat | IsFirst(texts, k)
        ensures FirstOf(texts) == Some(Text(texts[k]))
      {
        assert IsFirst(texts[1..], k - 1) by {
          assert forall i :: 0 <= i < k - 1 ==> texts[1..][i] == texts[i + 1];
        }
      }
    }
  }

  lemma OverriddenIs(style: Style, base: Attributes, key: Key)
    ensures var result := base + Overrides(style);
            if Own(style, key).Some? then Says(result, key, Own(style, key).value) else Inherits(base, result, key)
  {
    hide Own;
    assert key in KEYS;
  }

  lemma FirstRead(style: Style, base: Attributes, key: Key, texts: seq<string>)
    requires Own(style, key) == FirstOf(texts)
    ensures ReadsFirst(base, base + Overrides(style), key, texts)
  {
    hide Own, Overrides, FirstOf, Says, Inherits;
    FirstOfIsFirst(texts);
    OverriddenIs(style, base, key);
  }

  lemma WholeRead(style: Style, base: Attributes, key: Key, attribute: string)
    requires Own(style, key) == Measure(style, attribute)
    ensures ReadsWhole(base, base + Overrides(style), key, style, attribute)
  {
    hide Own, Overrides, Says, Inherits;
    OverriddenIs(style, base, key);
  }

  lemma RunRead(style: Style, base: Attributes)
    ensures ReadsRun(style, base, base + Overrides(style))
  {
    RunOwn(style);
    hide Own, Overrides, FirstOf, Says, Inherits, ReadsFirst;
    FirstRead(style, base, StyleName, [style.name]);
    FirstRead(style, base, FontName, [style.eastAsia, style.ascii, style.hAnsi]);
    FirstRead(style, base, AsciiFontName, [style.ascii, style.hAnsi]);
    OverriddenIs(style, base, FontSize);
    OverriddenIs(style, base, Bold);
    if style.size.Some? {
      var points := style.size.value / 2.0;
      assert points + points == style.size.value;
    }
  }

  lemma ParagraphRead(style: Style, base: Attributes)
    ensures ReadsParagraph(style, base, base + Overrides(style))
  {
    ParagraphOwn(style);
    AlignmentOwn(style);
    hide Own, Overrides, FirstOf, Says, Inherits, ReadsFirst;
    OverriddenIs(style, base, Alignment);
    if style.alignment != "both" {
      FirstRead(style, base, Alignment, [style.alignment]);
    }
    OverriddenIs(style, base, OutlineLevel);
    OverriddenIs(style, base, LineSpacingTwips);
    OverriddenIs(style, base, LineSpacing);
    FirstRead(style, base, LineRule, [style.lineRule]);
    if "line" in style.spacing {
      var lines := style.spacing["line"] as real / 240.0;
      assert lines * 240.0 == style.spacing["line"] as real;
    }
  }

  lemma AlignmentOwn(style: Style)
    ensures Own(style, Alignment) == if style.alignment == "both" then Some(Text("justify")) else FirstOf([style.alignment])
  {
    hide FirstOf;
  }

  lemma MeasuresRead(style: Style, base: Attributes)
    ensures ReadsMeasures(style, base, base + Overrides(style))
  {
    MeasuresOwn(style);
    hide Own, Overrides, Measure, ReadsWhole;
    WholeRead(style, base, SpaceBefore, "before");
    WholeRead(style, base, SpaceAfter, "after");
    WholeRead(style, base, LeftIndent, "left");
    WholeRead(style, base, RightIndent, "right");
    WholeRead(style, base, FirstLineIndent, "firstLine");
    WholeRead(style, base, HangingIndent, "hanging");
  }

  lemma MeasuresOwn(style: Style)
    ensures Own(style, SpaceBefore) == Measure(style, "before") && Own(style, SpaceAfter) == Measure(style, "after")
    ensures Own(style, LeftIndent) == Measure(style, "left") && Own(style, RightIndent) == Measure(style, "right")
    ensures Own(style, FirstLineIndent) == Measure(style, "firstLine")
    ensures Own(style, HangingIndent) == Measure(style, "hanging")
  {
    hide Measure;
  }

  // ---- the compiler's own code

  // Inherited attributes, and over them what the style says about some of the keys.
  function Over(base: Attributes, style: Style, keys: set<Key>): Attributes {
    base + Said(style, keys)
  }

  lemma SaidMore(base: Attributes, style: Style, keys: set<Key>, key: Key)
    ensures Over(base, style, keys + {key}) ==
            if Own(style, key).Some? then Over(base, style, keys)[key := Own(style, key).value]
            else Over(base, style, keys)
  {
    hide Own;
  }

  const MEASURES := [("before", SpaceBefore), ("after", SpaceAfter), ("left", LeftIndent), ("right", RightIndent),
                     ("firstLine", FirstLineIndent), ("hanging", HangingIndent)]

  // Python's `or`: the first text that is not empty.
  method Either(texts: seq<string>) returns (text: string)
    ensures (if text == "" then None else Some(Text(text))) == FirstOf(texts)
  {
    text := "";
    for i := 0 to |texts|
      invariant text == "" && FirstOf(texts[i..]) == FirstOf(texts)
    {
      assert texts[i..][1..] == texts[i + 1..];
      if texts[i] != "" {
        return texts[i];
      }
    }
  }

  const RUN_KEYS := {StyleName, FontName, AsciiFontName, FontSize, Bold}
  const PARAGRAPH_KEYS := {Alignment, OutlineLevel, LineSpacingTwips, LineSpacing, LineRule}

  lemma RunOwn(style: Style)
    ensures Own(style, StyleName) == FirstOf([style.name])
    ensures Own(style, FontName) == FirstOf([style.eastAsia, style.ascii, style.hAnsi])
    ensures Own(style, AsciiFontName) == FirstOf([style.ascii, style.hAnsi])
    ensures Own(style, FontSize) == if style.size.Some? then Some(Number(style.size.value / 2.0)) else None
    ensures Own(style, Bold) ==
            if style.bold.None? then None
            else Some(Flag(style.bold.value !in {Some("0"), Some("false"), Some("off"), Some("none")}))
  {
    hide FirstOf;
  }

  method ExtractRun(style: Style, base: Attributes) returns (result: Attributes)
    ensures result == Over(base, style, RUN_KEYS)
  {
    RunOwn(style);
    hide Over, FirstOf, Own;
    result := base;
    SaidNothing(base, style);
    var name := Either([style.name]);
    if name != "" {
      result := result[StyleName := Text(name)];
    }
    SaidMore(base, style, {}, StyleName);
    var fontName := Either([style.eastAsia, style.ascii, style.hAnsi]);
    var asciiFontName := Either([style.ascii, style.hAnsi]);
    if fontName != "" {
      result := result[FontName := Text(fontName)];
    }
    SaidMore(base, style, {} + {StyleName}, FontName);
    if asciiFontName != "" {
      result := result[AsciiFontName := Text(asciiFontName)];
    }
    SaidMore(base, style, {} + {StyleName} + {FontName}, AsciiFontName);
    if style.size.Some? {
      result := result[FontSize := Number(style.size.value / 2.0)];
    }
    SaidMore(base, style, {} + {StyleName} + {FontName} + {AsciiFontName}, FontSize);
    if style.bold.Some? {
      result := result[Bold := Flag(style.bold.value !in {Some("0"), Some("false"), Some("off"), Some("none")})];
    }
    SaidMore(base, style, {} + {StyleName} + {FontName} + {AsciiFontName} + {FontSize}, Bold);
    assert {} + {StyleName} + {FontName} + {AsciiFontName} + {FontSize} + {Bold} == RUN_KEYS;
  }

  lemma SaidNothing(base: Attributes, style: Style)
    ensures Over(base, style, {}) == base
  {
  }

  lemma SaidBoth(base: Attributes, style: Style, a: set<Key>, b: set<Key>)
    ensures Over(Over(base, style, a), style, b) == Over(base, style, a + b)
  {
    hide Own;
  }

  lemma ParagraphOwn(style: Style)
    ensures Own(style, OutlineLevel) == if style.outline.Some? then Some(Whole(style.outline.value + 1)) else None
    ensures var line := if "line" in style.spacing then Some(style.spacing["line"]) else None;
            && Own(style, LineSpacingTwips) == (if line.Some? then Some(Whole(line.value)) else None)
            && Own(style, LineSpacing) == (if line.Some? then Some(Number(line.value as real / 240.0)) else None)
    ensures Own(style, LineRule) == FirstOf([style.lineRule])
  {
    hide FirstOf;
  }

  method ExtractParagraph(style: Style, base: Attributes) returns (result: Attributes)
    ensures result == Over(base, style, PARAGRAPH_KEYS)
  {
    ParagraphOwn(style);
    hide Over, FirstOf, Own;
    result := base;
    SaidNothing(base, style);
    var alignment := Either([style.alignment]);
    if alignment != "" {
      result := result[Alignment := Text(if alignment == "both" then "justify" else alignment)];
    }
    AlignmentIs(style, alignment);
    SaidMore(base, style, {}, Alignment);
    if style.outline.Some? {
      result := result[OutlineLevel := Whole(style.outline.value + 1)];
    }
    SaidMore(base, style, {} + {Alignment}, OutlineLevel);
    SaidMore(base, style, {} + {Alignment} + {OutlineLevel}, LineSpacingTwips);
    SaidMore(base, style, {} + {Alignment} + {OutlineLevel} + {LineSpacingTwips}, LineSpacing);
    var line := if "line" in style.spacing then Some(style.spacing["line"]) else None;
    if line.Some? {
      result := result[LineSpacingTwips := Whole(line.value)];
      result := result[LineSpacing := Number(line.value as real / 240.0)];
    }
    var lineRule := Either([style.lineRule]);
    if lineRule != "" {
      result := result[LineRule := Text(lineRule)];
    }
    SaidMore(base, style, {} + {Alignment} + {OutlineLevel} + {LineSpacingTwips} + {LineSpacing}, LineRule);
    assert {} + {Alignment} + {OutlineLevel} + {LineSpacingTwips} + {LineSpacing} + {LineRule} == PARAGRAPH_KEYS;
  }

  lemma AlignmentIs(style: Style, alignment: string)
    requires (if alignment == "" then None else Some(Text(alignment))) == FirstOf([style.alignment])
    ensures alignment == style.alignment
    ensures Own(style, Alignment) ==
            if alignment == "" then None else Some(Text(if alignment == "both" then "justify" else alignment))
  {
    hide Measure;
    assert FirstOf([style.alignment][1..]) == None;
  }

  function MeasureKeys(n: nat): set<Key>
    requires n <= |MEASURES|
  {
    if n == 0 then {} else MeasureKeys(n - 1) + {MEASURES[n - 1].1}
  }

  method ExtractMeasures(style: Style, base: Attributes) returns (result: Attributes)
    ensures result == Over(base, style, MeasureKeys(|MEASURES|))
  {
    hide Over, FirstOf, Own;
    result := base;
    SaidNothing(base, style);
    for i := 0 to |MEASURES|
      invariant result == Over(base, style, MeasureKeys(i))
    {
      var (attribute, key) := MEASURES[i];
      var value := if attribute in style.spacing then Some(style.spacing[attribute]) else None;
      if value.None? {
        value := if attribute in style.indent then Some(style.indent[attribute]) else None;
      }
      if value.Some? {
        result := result[key := Whole(value.value)];
      }
      MeasureIs(style, i);
      SaidMore(base, style, MeasureKeys(i), key);
    }
  }

  lemma MeasureIs(style: Style, i: nat)
    requires i < |MEASURES|
    ensures Own(style, MEASURES[i].1) == Measure(style, MEASURES[i].0)
  {
    hide Measure, FirstOf;
  }

  method ExtractStyle(style: Style, base: Attributes) returns (result: Attributes)
    ensures ReadsRun(style, base, result) && ReadsParagraph(style, base, result) && ReadsMeasures(style, base, result)
    ensures result == base + Overrides(style)
  {
    hide Said, ReadsRun, ReadsParagraph, ReadsMeasures;
    RunRead(style, base);
    ParagraphRead(style, base);
    MeasuresRead(style, base);
    var run := ExtractRun(style, base);
    var paragraph := ExtractParagraph(style, run);
    result := ExtractMeasures(style, paragraph);
    SaidBoth(base, style, RUN_KEYS, PARAGRAPH_KEYS);
    SaidBoth(base, style, RUN_KEYS + PARAGRAPH_KEYS, MeasureKeys(|MEASURES|));
    AllKeys();
  }

  lemma AllKeys()
    ensures RUN_KEYS + PARAGRAPH_KEYS + MeasureKeys(|MEASURES|) == KEYS
  {
    assert MeasureKeys(1) == {SpaceBefore};
    assert MeasureKeys(2) == {SpaceBefore, SpaceAfter};
    assert MeasureKeys(3) == {SpaceBefore, SpaceAfter, LeftIndent};
    assert MeasureKeys(4) == {SpaceBefore, SpaceAfter, LeftIndent, RightIndent};
    assert MeasureKeys(5) == {SpaceBefore, SpaceAfter, LeftIndent, RightIndent, FirstLineIndent};
    assert MeasureKeys(6) == {SpaceBefore, SpaceAfter, LeftIndent, RightIndent, FirstLineIndent, HangingIndent};
  }

  lemma ResolveStep(raw: Sheet, id: string, trail: seq<string>, before: map<string, Attributes>)
    ensures id in trail || id !in raw ==> Resolved(raw, id, trail) == map[] && before + Stored(raw, id, trail) == before
    ensures id !in trail && id in raw && raw[id].basedOn == "" ==>
              && Resolved(raw, id, trail) == map[] + Overrides(raw[id])
              && before + Stored(raw, id, trail) == before[id := Resolved(raw, id, trail)]
    ensures id !in trail && id in raw && raw[id].basedOn != "" ==>
              && Resolved(raw, id, trail) == Resolved(raw, raw[id].basedOn, trail + [id]) + Overrides(raw[id])
              && before + Stored(raw, id, trail) ==
                 (before + Stored(raw, raw[id].basedOn, trail + [id]))[id := Resolved(raw, id, trail)]
  {
    hide Overrides, Visited;
  }

  // A style element with its id, which is empty if it has none.
  datatype Element = Element(id: string, style: Style)

  // One parse: the styles found, in the order their ids first came, and the map filled as they resolve.
  class Parser {
    var raw: Sheet
    var order: seq<string>
    var styles: map<string, Attributes>

    ghost predicate Valid()
      reads this
    {
      "" !in raw && IsOrder(raw, order)
    }

    constructor (elements: seq<Element>)
      ensures Valid() && styles == map[] && raw == Collected(elements)
      ensures forall id :: if id == "" then id !in raw else CollectsLast(elements, id, raw)
      ensures InFirstOrder(elements, order)
    {
      hide InFirstOrder, CollectsLast;
      raw, order, styles := map[], [], map[];
      new;
      NoneInOrder();
      for i := 0 to |elements|
        invariant Valid() && styles == map[] && raw == Collected(elements[..i])
        invariant InFirstOrder(elements[..i], order)
      {
        OrderNext(elements[..i], elements[i], order);
        assert elements[..i + 1] == elements[..i] + [elements[i]];
        assert elements[..i + 1][..i] == elements[..i];
        var Element(id, style) := elements[i];
        if id != "" {
          if id !in raw {
            order := order + [id];
          }
          raw := raw[id := style];
        }
      }
      assert elements[..|elements|] == elements;
      forall id
        ensures if id == "" then id !in raw else CollectsLast(elements, id, raw)
      {
        CollectedIsLast(elements, id);
      }
    }

    // The recursion ends on every sheet, circular or not: each call puts one more style on the trail.
    method Resolve(id: string, trail: seq<string>) returns (result: Attributes)
      modifies this`styles
      ensures result == Resolved(raw, id, trail) && styles == old(styles) + Stored(raw, id, trail)
      decreases raw.Keys - Visited(trail)
    {
      ResolveStep(raw, id, trail, styles);
      hide Overrides, Visited, Resolved, Stored;
      if id in trail || id !in raw {
        return map[];
      }
      Shorter(raw, id, trail);
      var base := raw[id].basedOn;
      var parent := map[];
      if base != "" {
        parent := Resolve(base, trail + [id]);
      }
      result := ExtractStyle(raw[id], parent);
      styles := styles[id := result];
    }

    method ParseStyles() returns (parsed: map<string, Attributes>)
      requires Valid() && styles == map[]
      modifies this`styles
      ensures parsed == styles == Compiled(raw, order)
      ensures parsed.Keys == raw.Keys
      ensures forall id :: id in raw && !OnLoop(raw, id) ==> parsed[id] == Overlay(raw, Ancestry(raw, id, []))
    {
      hide OnLoop, Overlay, Ancestry, Stored;
      for i := 0 to |order|
        invariant styles == Compiled(raw, order[..i])
      {
        assert order[..i + 1][..i] == order[..i];
        var _ := Resolve(order[i], []);
      }
      assert order[..|order|] == order;
      CompiledIsSettled(raw, order);
      assert forall id :: id in styles ==> Settled(raw, styles, id);
      return styles;
    }
  }

  predicate Occurs(elements: seq<Element>, id: string) {
    exists k :: 0 <= k < |elements| && elements[k].id == id
  }

  // The first id comes before any of the second.
  ghost predicate Precedes(elements: seq<Element>, first: string, second: string) {
    exists n :: 0 <= n <= |elements| && Occurs(elements[..n], first) && !Occurs(elements[..n], second)
  }

  // The ids that occur, in the order they first come.
  ghost predicate InFirstOrder(elements: seq<Element>, order: seq<string>) {
    && (forall id :: id in order <==> id != "" && Occurs(elements, id))
    && forall i, j :: 0 <= i < j < |order| ==> Precedes(elements, order[i], order[j])
  }

  lemma NoneInOrder()
    ensures InFirstOrder([], [])
  {
  }

  lemma OccursNext(before: seq<Element>, element: Element, id: string)
    ensures Occurs(before + [element], id) <==> Occurs(before, id) || element.id == id
  {
    assert (before + [element])[|before|] == element;
    assert forall k :: 0 <= k < |before| ==> (before + [element])[k] == before[k];
  }

  lemma PrecedesNext(before: seq<Element>, element: Element, first: string, second: string)
    requires Precedes(before, first, second) || (Occurs(before, first) && !Occurs(before, second))
    ensures Precedes(before + [element], first, second)
  {
    hide Occurs;
    assert before[..|before|] == before;
    assert forall n :: 0 <= n <= |before| ==> (before + [element])[..n] == before[..n];
  }

  lemma OrderNext(before: seq<Element>, element: Element, order: seq<string>)
    requires InFirstOrder(before, order)
    ensures InFirstOrder(before + [element], if element.id == "" || element.id in order then order else order + [element.id])
  {
    hide Occurs, Precedes;
    var order' := if element.id == "" || element.id in order then order else order + [element.id];
    forall id
      ensures Occurs(before + [element], id) <==> Occurs(before, id) || element.id == id
    {
      OccursNext(before, element, id);
    }
    forall i, j | 0 <= i < j < |order'|
      ensures Precedes(before + [element], order'[i], order'[j])
    {
      assert order'[i] == order[i];
      PrecedesNext(before, element, order'[i], order'[j]);
    }
  }

  predicate IsLastOf(elements: seq<Element>, id: string, k: nat) {
    k < |elements| && elements[k].id == id && forall l :: k < l < |elements| ==> elements[l].id != id
  }

  // The sheet has the last style of the id, if there is any.
  ghost predicate CollectsLast(elements: seq<Element>, id: string, raw: Sheet) {
    if id in raw then exists k: nat :: IsLastOf(elements, id, k) && raw[id] == elements[k].style
    else !Occurs(elements, id)
  }

  lemma {:induction false} CollectedIsLast(elements: seq<Element>, id: string)
    ensures if id == "" then id !in Collected(elements) else CollectsLast(elements, id, Collected(elements))
    decreases |elements|
  {
    if elements != [] {
      var before, last := elements[..|elements| - 1], |elements| - 1;
      CollectedIsLast(before, id);
      OccursNext(before, elements[last], id);
      assert before + [elements[last]] == elements;
      if id != "" && elements[last].id == id {
        assert IsLastOf(elements, id, last);
      } else if id in Collected(before) {
        var k: nat :| IsLastOf(before, id, k) && Collected(before)[id] == before[k].style;
        assert IsLastOf(elements, id, k);
      }
      hide Occurs;
    }
  }

  // A later element with the same id takes the earlier one's place.
  function Collected(elements: seq<Element>): Sheet {
    if elements == [] then map[]
    else
      var Element(id, style) := elements[|elements| - 1];
      var before := Collected(elements[..|elements| - 1]);
      if id == "" then before else before[id := style]
  }
}
