/** The acceptance record of a delivery, as lines: the tool that prepares a candidate rewrites the block
    between two delimiters, and an auditor written separately decides whether the record fits the
    candidate's manifest. */
module AcceptanceRecord {
  import opened Options

  // What a line opens with, as far as anyone tests it.
  datatype Opening = Plain | OpensSection | OpensCurrent | OpensProduct | OpensRejected | OpensState

  datatype Delimiter = BeginMark | EndMark

  // A line of the record.  The canonical and the generated lines are their kinds and parts; any other
  // line is what the tests can tell of it: its opening, whether it is a stale narrative, which
  // delimiters and which markers of the test matrix it contains.
  datatype Line =
    | Blank
    | Title | Heading | NextHeading | Static(n: nat) | Begin | End | Operator(n: nat) | Intro | SourceContext
    | Current(short: string, buildId: string, commit: string, archive: string, checksum: string, issue: int)
    | Product(previousArchive: string, sha256: string, previousBuildId: string, status: string)
    | Rejected(previousArchive: string, sha256: string, previousBuildId: string)
    | State(issue: int)
    | Other(opening: Opening, stale: bool, mentions: set<Delimiter>, marks: set<nat>)

  function Opens(line: Line): Opening {
    match line
    case Heading => OpensSection
    case NextHeading => OpensSection
    case Current(_, _, _, _, _, _) => OpensCurrent
    case Product(_, _, _, _) => OpensProduct
    case Rejected(_, _, _) => OpensRejected
    case State(_) => OpensState
    case Other(opening, _, _, _) => opening
    case _ => Plain
  }

  predicate IsStale(line: Line) {
    line.Other? && line.stale
  }

  predicate Mentions(line: Line, delimiter: Delimiter) {
    || (line.Begin? && delimiter.BeginMark?)
    || (line.End? && delimiter.EndMark?)
    || (line.Other? && delimiter in line.mentions)
  }

  const MARKERS: nat := 8

  predicate HasMarker(lines: seq<Line>, marker: nat) {
    exists i :: 0 <= i < |lines| && lines[i].Other? && marker in lines[i].marks
  }

  datatype Failure =
    | TitleCardinality | HeadingCardinality | NextHeadingCardinality | DelimiterInvalid | SchemaMismatch
    | MatrixMissing | DelimiterOrder | OutsideBasicInfo | SectionMissing | DelimiterMissing | DelimiterDuplicate
    | StaleNarrative | CurrentMissing | CurrentDuplicate | IdentityMismatch | SupersededMissing
    | SupersededDuplicate | SupersededMismatch | StateMissing | StateDuplicate | StateMismatch
    | UnknownLine | LineCardinality | OrderInvalid

  // ---- lines

  function NonEmpty(lines: seq<Line>): seq<Line> {
    if lines == [] then []
    else NonEmpty(lines[..|lines| - 1]) + (if lines[|lines| - 1].Blank? then [] else [lines[|lines| - 1]])
  }

  function Count(lines: seq<Line>, line: Line): nat {
    multiset(lines)[line]
  }

  function Schema(context: seq<Line>): seq<Line> {
    [Title, Heading, Static(0), Static(1), Static(2), Static(3), Begin] + context +
    [End, Operator(0), Operator(1), Operator(2), Operator(3), Operator(4), Intro, NextHeading]
  }

  // The check both tools make of the head of the record.
  function SchemaFault(lines: seq<Line>, context: seq<Line>): Option<Failure> {
    var raw := NonEmpty(lines);
    if Count(raw, Title) != 1 then Some(TitleCardinality)
    else if Count(raw, Heading) != 1 then Some(HeadingCardinality)
    else if Count(raw, NextHeading) != 1 then Some(NextHeadingCardinality)
    else if Count(raw, Begin) != 1 || Count(raw, End) != 1 then Some(DelimiterInvalid)
    else if Schema(context) <= raw then None
    else Some(SchemaMismatch)
  }

  lemma {:induction false} NonEmptyAppend(a: seq<Line>, b: seq<Line>)
    ensures NonEmpty(a + b) == NonEmpty(a) + NonEmpty(b)
    decreases |b|
  {
    if b == [] {
      assert a + b == a;
    } else {
      assert (a + b)[..|a + b| - 1] == a + b[..|b| - 1];
      NonEmptyAppend(a, b[..|b| - 1]);
    }
  }

  lemma {:induction false} CountNonEmpty(lines: seq<Line>, line: Line)
    requires !line.Blank?
    ensures Count(NonEmpty(lines), line) == Count(lines, line)
    decreases |lines|
  {
    if lines != [] {
      CountNonEmpty(lines[..|lines| - 1], line);
      assert lines == lines[..|lines| - 1] + [lines[|lines| - 1]];
    }
  }

  // The position of the first line of a kind, or the end.
  function First(lines: seq<Line>, line: Line): (i: nat)
    ensures i <= |lines| && (i < |lines| ==> lines[i] == line) && (forall k :: 0 <= k < i ==> lines[k] != line)
  {
    if lines == [] then 0
    else
      var i := First(lines[..|lines| - 1], line);
      if i < |lines| - 1 then i else if lines[|lines| - 1] == line then |lines| - 1 else |lines|
  }

  function NextSection(lines: seq<Line>, from: nat): (i: nat)
    requires from <= |lines|
    ensures from <= i <= |lines| && (i < |lines| ==> Opens(lines[i]).OpensSection?)
    ensures forall k :: from <= k < i ==> !Opens(lines[k]).OpensSection?
    decreases |lines| - from
  {
    if from == |lines| || Opens(lines[from]).OpensSection? then from else NextSection(lines, from + 1)
  }

  // From the heading of the basic information to the next section.
  function Bounds(lines: seq<Line>): (bounds: Option<(nat, nat)>)
    ensures bounds.Some? ==> bounds.value.0 <= bounds.value.1 <= |lines|
  {
    var start := First(lines, Heading);
    if start == |lines| then None else Some((start, NextSection(lines, start + 1)))
  }

  function Mentioned(lines: seq<Line>, delimiter: Delimiter): nat {
    if lines == [] then 0
    else Mentioned(lines[..|lines| - 1], delimiter) + (if Mentions(lines[|lines| - 1], delimiter) then 1 else 0)
  }

  // ---- the candidate

  const BASELINE_VERSION := "0.25.2-alpha"

  datatype Identity = Identity(commit: string, buildId: string, archive: string, checksum: string)
  datatype Previous = Previous(archive: string, sha256: string, buildId: string, status: string, version: string)
  datatype Manifest = Manifest(date: string, commit: string, buildId: string, checksum: string, supersedes: Previous)

  function Short(commit: string): string {
    if |commit| < 7 then commit else commit[..7]
  }

  function CandidateArchive(date: string, commit: string): string {
    "ai-wps-phase1-delivery-" + date + "-" + Short(commit) + "-v0253.tar.gz"
  }

  // ---- the tool that prepares the record

  function Generated(id: Identity, previous: Previous, issue: int): seq<Line> {
    [Current(Short(id.commit), id.buildId, id.commit, id.archive, id.checksum, issue),
     if previous.version == BASELINE_VERSION
     then Product(previous.archive, previous.sha256, previous.buildId, previous.status)
     else Rejected(previous.archive, previous.sha256, previous.buildId),
     State(issue)]
  }

  // What keeps the record from being rewritten.
  function SourceFault(lines: seq<Line>): Option<Failure> {
    var schema := SchemaFault(lines, [SourceContext]);
    if schema.Some? then schema
    else if exists marker :: 0 <= marker < MARKERS && !HasMarker(lines, marker) then Some(MatrixMissing)
    else if Mentioned(lines, BeginMark) != 1 || Mentioned(lines, EndMark) != 1 then Some(DelimiterInvalid)
    else
      var begin, end := First(lines, Begin), First(lines, End);
      if begin > end then Some(DelimiterOrder)
      else
        var bounds := Bounds(lines);
        if bounds.None? then Some(SectionMissing)
        else if begin < bounds.value.0 || end + 1 > bounds.value.1 then Some(OutsideBasicInfo)
        else None
  }

  function Rewritten(lines: seq<Line>, context: seq<Line>): seq<Line>
    requires First(lines, Begin) <= First(lines, End) < |lines|
  {
    lines[..First(lines, Begin)] + [Begin] + context + [End] + lines[First(lines, End) + 1..]
  }

  // ---- the auditor

  function CandidateContext(lines: seq<Line>): (context: (seq<Line>, Option<Failure>))
  {
    if Count(lines, Heading) != 1 then ([], Some(HeadingCardinality))
    else if Count(lines, NextHeading) != 1 then ([], Some(NextHeadingCardinality))
    else if Count(lines, Begin) == 0 || Count(lines, End) == 0 then ([], Some(DelimiterMissing))
    else if Count(lines, Begin) != 1 || Count(lines, End) != 1 then ([], Some(DelimiterDuplicate))
    else
      var begin, end := First(lines, Begin), First(lines, End);
      if begin > end then ([], Some(DelimiterOrder))
      else
        var bounds := Bounds(lines);
        if bounds.None? then ([], Some(SectionMissing))
        else if begin < bounds.value.0 || end + 1 > bounds.value.1 then ([], Some(OutsideBasicInfo))
        else if begin == end then ([], None)
        else (lines[begin + 1..end], None)
  }

  function WithOpening(lines: seq<Line>, opening: Opening): seq<Line> {
    if lines == [] then []
    else
      WithOpening(lines[..|lines| - 1], opening) +
      (if Opens(lines[|lines| - 1]) == opening then [lines[|lines| - 1]] else [])
  }

  function Expected(manifest: Manifest): (context: seq<Line>)
    ensures |context| == 3
  {
    var previous := manifest.supersedes;
    [Current(Short(manifest.commit), manifest.buildId, manifest.commit, CandidateArchive(manifest.date, manifest.commit),
             manifest.checksum, 59),
     if previous.status == "candidate"
     then Product(previous.archive, previous.sha256, previous.buildId, "candidate")
     else Rejected(previous.archive, previous.sha256, previous.buildId),
     State(59)]
  }

  // One line with the opening, and it is the expected one.
  function LineFault(lines: seq<Line>, opening: Opening, expected: Line,
                     missing: Failure, duplicate: Failure, mismatch: Failure): Option<Failure> {
    var found := WithOpening(lines, opening);
    if found == [] then Some(missing)
    else if |found| != 1 then Some(duplicate)
    else if found[0] != expected then Some(mismatch)
    else None
  }

  function ContextFault(lines: seq<Line>, expected: seq<Line>): Option<Failure>
    requires |expected| == 3
  {
    var current := LineFault(lines, OpensCurrent, expected[0], CurrentMissing, CurrentDuplicate, IdentityMismatch);
    var previous := LineFault(lines, Opens(expected[1]), expected[1],
                              SupersededMissing, SupersededDuplicate, SupersededMismatch);
    var state := LineFault(lines, OpensState, expected[2], StateMissing, StateDuplicate, StateMismatch);
    if current.Some? then current
    else if previous.Some? then previous
    else if state.Some? then state
    else if exists i :: 0 <= i < |lines| && lines[i] !in expected then Some(UnknownLine)
    else if |lines| != |expected| then Some(LineCardinality)
    else if lines != expected then Some(OrderInvalid)
    else None
  }

  function AuditFault(lines: seq<Line>, manifest: Manifest): Option<Failure> {
    var context := CandidateContext(lines);
    if context.1.Some? then context.1
    else
      var bounds := Bounds(lines).value;
      if exists i :: bounds.0 <= i < bounds.1 && IsStale(lines[i]) then Some(StaleNarrative)
      else
        var fault := ContextFault(NonEmpty(context.0), Expected(manifest));
        if fault.Some? then fault else SchemaFault(lines, Expected(manifest))
  }

  // ---- where the head of a record has its lines

  lemma {:induction false} Position(lines: seq<Line>, k: nat) returns (i: nat)
    requires k < |NonEmpty(lines)|
    ensures i < |lines| && lines[i] == NonEmpty(lines)[k]
    ensures NonEmpty(lines[..i]) == NonEmpty(lines)[..k] && NonEmpty(lines[..i + 1]) == NonEmpty(lines)[..k + 1]
    decreases |lines|
  {
    var last, before := |lines| - 1, lines[..|lines| - 1];
    if k < |NonEmpty(before)| {
      i := Position(before, k);
      assert lines[..i] == before[..i] && lines[..i + 1] == before[..i + 1];
    } else {
      i := last;
      assert lines[..last + 1] == lines;
    }
  }

  // Line `i` is the `k`th that is not empty.
  ghost predicate IsAt(lines: seq<Line>, k: nat, i: nat) {
    && k < |NonEmpty(lines)| && i < |lines| && lines[i] == NonEmpty(lines)[k]
    && NonEmpty(lines[..i]) == NonEmpty(lines)[..k] && NonEmpty(lines[..i + 1]) == NonEmpty(lines)[..k + 1]
  }

  lemma Prefixes(lines: seq<Line>, i: nat, j: nat)
    requires i <= j <= |lines|
    ensures NonEmpty(lines[..j]) == NonEmpty(lines[..i]) + NonEmpty(lines[i..j])
  {
    assert lines[..j] == lines[..i] + lines[i..j];
    NonEmptyAppend(lines[..i], lines[i..j]);
  }

  lemma Between(lines: seq<Line>, m: nat, i: nat, n: nat, j: nat)
    requires m < n && IsAt(lines, m, i) && IsAt(lines, n, j)
    ensures i < j && NonEmpty(lines[i + 1..j]) == NonEmpty(lines)[m + 1..n]
  {
    var raw := NonEmpty(lines);
    if j <= i {
      Prefixes(lines, j, i);
      assert false;
    }
    Prefixes(lines, i + 1, j);
    assert raw[..n] == raw[..m + 1] + raw[m + 1..n];
  }

  lemma {:induction false} Kept(lines: seq<Line>, i: nat)
    requires i < |lines| && !lines[i].Blank?
    ensures lines[i] in NonEmpty(lines)
    decreases |lines|
  {
    if i < |lines| - 1 {
      Kept(lines[..|lines| - 1], i);
    }
  }

  // A line that comes once comes first where it comes at all.
  lemma OnlyPlace(lines: seq<Line>, line: Line, i: nat)
    requires i < |lines| && lines[i] == line && Count(lines, line) == 1
    ensures First(lines, line) == i
    ensures forall k :: 0 <= k < |lines| && lines[k] == line ==> k == i
  {
    assert lines == lines[..i] + [line] + lines[i + 1..];
    assert line !in lines[..i] && line !in lines[i + 1..];
    forall k | 0 <= k < |lines| && k != i
      ensures lines[k] != line
    {
      assert lines[k] == if k < i then lines[..i][k] else lines[i + 1..][k - i - 1];
    }
  }

  lemma Place(lines: seq<Line>, context: seq<Line>, k: nat) returns (i: nat)
    requires Schema(context) <= NonEmpty(lines) && k < |Schema(context)| && !Schema(context)[k].Blank?
    requires Count(NonEmpty(lines), Schema(context)[k]) == 1
    ensures IsAt(lines, k, i) && First(lines, Schema(context)[k]) == i && Count(lines, Schema(context)[k]) == 1
  {
    i := Position(lines, k);
    CountNonEmpty(lines, Schema(context)[k]);
    hide NonEmpty, First, Schema;
    OnlyPlace(lines, Schema(context)[k], i);
  }

  lemma SchemaLines(context: seq<Line>)
    ensures var schema := Schema(context);
            && |schema| == 15 + |context| && schema[1] == Heading && schema[6] == Begin
            && schema[7 + |context|] == End && schema[14 + |context|] == NextHeading
  {
  }

  // The places of the heading, the delimiters and the next heading in a record whose head fits.
  lemma Places(lines: seq<Line>, context: seq<Line>) returns (heading: nat, begin: nat, end: nat, next: nat)
    requires SchemaFault(lines, context).None?
    ensures IsAt(lines, 1, heading) && First(lines, Heading) == heading && Count(lines, Heading) == 1
    ensures IsAt(lines, 6, begin) && First(lines, Begin) == begin && Count(lines, Begin) == 1
    ensures IsAt(lines, 7 + |context|, end) && First(lines, End) == end && Count(lines, End) == 1
    ensures IsAt(lines, 14 + |context|, next) && First(lines, NextHeading) == next && Count(lines, NextHeading) == 1
  {
    SchemaLines(context);
    hide NonEmpty, First, Schema, Count, IsAt;
    heading := Place(lines, context, 1);
    begin := Place(lines, context, 6);
    end := Place(lines, context, 7 + |context|);
    next := Place(lines, context, 14 + |context|);
  }

  ghost predicate OpensNone(lines: seq<Line>) {
    forall i :: 0 <= i < |lines| ==> !Opens(lines[i]).OpensSection?
  }

  lemma InnerLines(lines: seq<Line>, context: seq<Line>, heading: nat, next: nat)
    requires Schema(context) <= NonEmpty(lines) && IsAt(lines, 1, heading) && IsAt(lines, 14 + |context|, next)
    ensures heading < next && lines[heading] == Heading && lines[next] == NextHeading
    ensures forall k :: heading < k < next ==> lines[k].Blank? || lines[k] in Schema(context)[2..14 + |context|]
  {
    SchemaLines(context);
    hide NonEmpty, Schema;
    var raw, schema := NonEmpty(lines), Schema(context);
    Between(lines, 1, heading, 14 + |context|, next);
    assert raw[2..14 + |context|] == schema[2..14 + |context|];
    forall k | heading < k < next
      ensures lines[k].Blank? || lines[k] in schema[2..14 + |context|]
    {
      if !lines[k].Blank? {
        assert lines[heading + 1..next][k - heading - 1] == lines[k];
        Kept(lines[heading + 1..next], k - heading - 1);
      }
    }
  }

  // The basic information runs from its heading to the next one, and is all canonical but for the
  // context.
  lemma SectionIs(lines: seq<Line>, context: seq<Line>, heading: nat, next: nat)
    requires SchemaFault(lines, context).None? && OpensNone(context)
    requires IsAt(lines, 1, heading) && First(lines, Heading) == heading && IsAt(lines, 14 + |context|, next)
    ensures Bounds(lines) == Some((heading, next)) && heading < next
    ensures forall k :: heading <= k < next ==> lines[k].Blank? || lines[k] in Schema(context)
  {
    HeadFits(lines, context);
    InnerLines(lines, context, heading, next);
    InnerOpensNone(context);
    SchemaLines(context);
    hide NonEmpty, Schema, SchemaFault, IsAt;
    assert NextSection(lines, heading + 1) == next;
  }

  lemma InnerOpensNone(context: seq<Line>)
    requires OpensNone(context)
    ensures OpensNone(Schema(context)[2..14 + |context|])
  {
    var inner := Schema(context)[2..14 + |context|];
    forall i | 0 <= i < |inner|
      ensures !Opens(inner[i]).OpensSection?
    {
      if 5 <= i < 5 + |context| {
        assert inner[i] == context[i - 5];
      }
    }
  }

  // ---- what the auditor makes of a record whose head fits

  // Generated and expected contexts alike: no line opens a section, is stale, empty or part of the head.
  ghost predicate IsContext(context: seq<Line>) {
    forall i :: 0 <= i < |context| ==>
      context[i].Current? || context[i].Product? || context[i].Rejected? || context[i].State?
  }

  lemma {:induction false} ContextIsRaw(context: seq<Line>)
    requires IsContext(context)
    ensures NonEmpty(context) == context && OpensNone(context)
    decreases |context|
  {
    if context != [] {
      ContextIsRaw(context[..|context| - 1]);
      assert context == context[..|context| - 1] + [context[|context| - 1]];
    }
  }

  lemma ExpectedFits(manifest: Manifest)
    ensures IsContext(Expected(manifest)) && ContextFault(Expected(manifest), Expected(manifest)).None?
  {
    var expected := Expected(manifest);
    ThreeOpenings(expected, OpensCurrent);
    ThreeOpenings(expected, OpensState);
    ThreeOpenings(expected, Opens(expected[1]));
    hide WithOpening;
  }

  lemma ThreeOpenings(lines: seq<Line>, opening: Opening)
    requires |lines| == 3
    ensures WithOpening(lines, opening) ==
            (if Opens(lines[0]) == opening then [lines[0]] else []) +
            (if Opens(lines[1]) == opening then [lines[1]] else []) +
            (if Opens(lines[2]) == opening then [lines[2]] else [])
  {
    assert lines[..2][..1] == lines[..1] && lines[..1][..0] == [];
    assert WithOpening(lines[..1], opening) == if Opens(lines[0]) == opening then [lines[0]] else [];
  }

  lemma CanonicalIsFresh(context: seq<Line>, line: Line)
    requires IsContext(context) && (line.Blank? || line in Schema(context))
    ensures !IsStale(line)
  {
  }

  lemma HeadFits(lines: seq<Line>, context: seq<Line>)
    requires SchemaFault(lines, context).None?
    ensures Schema(context) <= NonEmpty(lines)
  {
    hide NonEmpty, Schema, Count;
  }

  // The lines between two that are not empty are those between them that are not.
  lemma InnerRead(lines: seq<Line>, context: seq<Line>, begin: nat, end: nat)
    requires SchemaFault(lines, context).None? && IsAt(lines, 6, begin) && IsAt(lines, 7 + |context|, end)
    ensures begin < end && NonEmpty(lines[begin + 1..end]) == context
  {
    HeadFits(lines, context);
    SchemaInner(context);
    hide NonEmpty, Schema, SchemaFault;
    Between(lines, 6, begin, 7 + |context|, end);
    assert NonEmpty(lines)[7..7 + |context|] == Schema(context)[7..7 + |context|];
  }

  lemma SchemaInner(context: seq<Line>)
    ensures Schema(context)[7..7 + |context|] == context && |Schema(context)| == 15 + |context|
  {
  }

  lemma InsideOut(lines: seq<Line>, context: seq<Line>, heading: nat, begin: nat, end: nat, next: nat)
    requires SchemaFault(lines, context).None?
    requires IsAt(lines, 1, heading) && IsAt(lines, 6, begin)
    requires IsAt(lines, 7 + |context|, end) && IsAt(lines, 14 + |context|, next)
    ensures heading < begin < end < next
  {
    hide NonEmpty, SchemaFault, IsAt;
    Between(lines, 1, heading, 6, begin);
    Between(lines, 6, begin, 7 + |context|, end);
    Between(lines, 7 + |context|, end, 14 + |context|, next);
  }

  lemma ContextRead(lines: seq<Line>, context: seq<Line>) returns (heading: nat, next: nat, inner: seq<Line>)
    requires SchemaFault(lines, context).None? && IsContext(context)
    ensures CandidateContext(lines) == (inner, None) && NonEmpty(inner) == context
    ensures Bounds(lines) == Some((heading, next)) && next <= |lines|
    ensures forall k :: heading <= k < next ==> lines[k].Blank? || lines[k] in Schema(context)
  {
    ContextIsRaw(context);
    hide NonEmpty, First, Schema, Bounds, SchemaFault, IsContext, OpensNone, CandidateContext, Count;
    var begin, end;
    heading, begin, end, next := Places(lines, context);
    SectionIs(lines, context, heading, next);
    InnerRead(lines, context, begin, end);
    InsideOut(lines, context, heading, begin, end, next);
    inner := lines[begin + 1..end];
    ContextIs(lines, heading, begin, end, next);
  }

  lemma ContextIs(lines: seq<Line>, heading: nat, begin: nat, end: nat, next: nat)
    requires Count(lines, Heading) == Count(lines, Begin) == Count(lines, End) == Count(lines, NextHeading) == 1
    requires First(lines, Begin) == begin && First(lines, End) == end
    requires heading < begin < end < next <= |lines| && Bounds(lines) == Some((heading, next))
    ensures CandidateContext(lines) == (lines[begin + 1..end], None)
  {
    hide First, Bounds, Count;
  }

  // A record whose head fits some context passes the audit exactly when that is the context the
  // manifest calls for.
  lemma AuditExactly(lines: seq<Line>, context: seq<Line>, manifest: Manifest)
    requires SchemaFault(lines, context).None? && IsContext(context)
    ensures AuditFault(lines, manifest).None? <==> context == Expected(manifest)
  {
    hide CandidateContext, Bounds, Schema, SchemaFault, Expected, IsStale, NonEmpty, ContextFault, IsContext;
    var heading, next, inner := ContextRead(lines, context);
    forall k | heading <= k < next
      ensures !IsStale(lines[k])
    {
      CanonicalIsFresh(context, lines[k]);
    }
    ExpectedFits(manifest);
    if ContextFault(context, Expected(manifest)).None? {
      NoFaultIsEqual(context, Expected(manifest));
    }
  }

  lemma SchemaLast(lines: seq<Line>, manifest: Manifest)
    requires AuditFault(lines, manifest).None?
    ensures SchemaFault(lines, Expected(manifest)).None?
  {
    hide CandidateContext, Bounds, SchemaFault, Expected, IsStale, NonEmpty, ContextFault;
  }

  // The audit passes exactly the records whose head is canonical with the context the manifest calls
  // for; its many other tests refuse nothing more.
  lemma AuditIsHead(lines: seq<Line>, manifest: Manifest)
    ensures AuditFault(lines, manifest).None? <==> HasHead(lines, Expected(manifest))
  {
    ExpectedFits(manifest);
    HeadExactly(lines, Expected(manifest));
    hide AuditFault, SchemaFault, Expected, ContextFault, IsContext, HasHead;
    if SchemaFault(lines, Expected(manifest)).None? {
      AuditExactly(lines, Expected(manifest), manifest);
    } else if AuditFault(lines, manifest).None? {
      SchemaLast(lines, manifest);
    }
  }

  // The lines that are not empty open with the canonical ones around the context, and the title, the two
  // headings and the delimiters come nowhere else.
  ghost predicate HasHead(lines: seq<Line>, context: seq<Line>) {
    && (exists rest :: NonEmpty(lines) == Schema(context) + rest)
    && forall line :: line in {Title, Heading, NextHeading, Begin, End} ==> Count(NonEmpty(lines), line) == 1
  }

  lemma HeadExactly(lines: seq<Line>, context: seq<Line>)
    ensures SchemaFault(lines, context).None? <==> HasHead(lines, context)
  {
    hide Schema, NonEmpty, Count;
    if Schema(context) <= NonEmpty(lines) {
      assert NonEmpty(lines) == Schema(context) + NonEmpty(lines)[|Schema(context)|..];
    }
  }

  lemma NoFaultIsEqual(lines: seq<Line>, expected: seq<Line>)
    requires |expected| == 3 && ContextFault(lines, expected).None?
    ensures lines == expected
  {
    hide LineFault;
  }

  // ---- what the preparing tool makes of a canonical record

  lemma AfterEnd(lines: seq<Line>, k: nat, i: nat)
    requires IsAt(lines, k, i)
    ensures NonEmpty(lines[i + 1..]) == NonEmpty(lines)[k + 1..]
  {
    hide NonEmpty;
    Prefixes(lines, i + 1, |lines|);
    assert lines[..|lines|] == lines && lines[i + 1..|lines|] == lines[i + 1..];
    assert NonEmpty(lines) == NonEmpty(lines)[..k + 1] + NonEmpty(lines)[k + 1..];
  }

  lemma RawJoined(before: seq<Line>, context: seq<Line>, after: seq<Line>)
    requires IsContext(context)
    ensures NonEmpty(before + [Begin] + context + [End] + after) ==
            NonEmpty(before) + [Begin] + context + [End] + NonEmpty(after)
  {
    ContextIsRaw(context);
    OneRaw(Begin);
    OneRaw(End);
    hide NonEmpty;
    NonEmptyAppend(before, [Begin]);
    NonEmptyAppend(before + [Begin], context);
    NonEmptyAppend(before + [Begin] + context, [End]);
    NonEmptyAppend(before + [Begin] + context + [End], after);
  }

  lemma RawRewritten(lines: seq<Line>, context: seq<Line>)
    requires SchemaFault(lines, [SourceContext]).None? && IsContext(context)
    ensures First(lines, Begin) < First(lines, End) < |lines| && |NonEmpty(lines)| >= 9
    ensures NonEmpty(Rewritten(lines, context)) == NonEmpty(lines)[..7] + context + NonEmpty(lines)[8..]
  {
    hide NonEmpty, First, SchemaFault, IsContext;
    var heading, begin, end, next := Places(lines, [SourceContext]);
    InsideOut(lines, [SourceContext], heading, begin, end, next);
    AfterEnd(lines, 8, end);
    RawJoined(lines[..begin], context, lines[end + 1..]);
    var raw := NonEmpty(lines);
    assert raw[..6] + [Begin] == raw[..7] && [End] + raw[9..] == raw[8..];
    assert raw[..6] + [Begin] + context + [End] + raw[9..] == raw[..7] + context + raw[8..];
  }

  lemma OneRaw(line: Line)
    requires !line.Blank?
    ensures NonEmpty([line]) == [line]
  {
    assert [line][..0] == [];
  }

  lemma SchemaAround(context: seq<Line>)
    ensures Schema(context) == Schema([SourceContext])[..7] + context + Schema([SourceContext])[8..]
  {
  }

  lemma CountAround(raw: seq<Line>, context: seq<Line>, line: Line)
    requires |raw| >= 8 && raw[7] == SourceContext && line != SourceContext && line !in context
    ensures Count(raw[..7] + context + raw[8..], line) == Count(raw, line)
  {
    assert raw == raw[..7] + [SourceContext] + raw[8..];
  }

  lemma PrefixAround(raw: seq<Line>, context: seq<Line>)
    requires Schema([SourceContext]) <= raw
    ensures |raw| >= 8 && raw[7] == SourceContext && Schema(context) <= raw[..7] + context + raw[8..]
  {
    var schema := Schema([SourceContext]);
    SchemaAround(context);
    assert schema[7] == SourceContext;
    assert raw == schema + raw[|schema|..];
    assert raw[..7] == schema[..7] && raw[8..] == schema[8..] + raw[|schema|..];
    hide Schema;
    assert raw[..7] + context + raw[8..] == (schema[..7] + context + schema[8..]) + raw[|schema|..];
  }

  // The rewritten head fits the new context.
  lemma RewrittenFits(lines: seq<Line>, context: seq<Line>)
    requires SchemaFault(lines, [SourceContext]).None? && IsContext(context)
    ensures First(lines, Begin) < First(lines, End) < |lines|
    ensures SchemaFault(Rewritten(lines, context), context).None?
  {
    hide NonEmpty, First, Schema, Count, Rewritten;
    var raw := NonEmpty(lines);
    RawRewritten(lines, context);
    PrefixAround(raw, context);
    CountAround(raw, context, Title);
    CountAround(raw, context, Heading);
    CountAround(raw, context, NextHeading);
    CountAround(raw, context, Begin);
    CountAround(raw, context, End);
  }

  lemma SourceRead(lines: seq<Line>)
    requires SchemaFault(lines, [SourceContext]).None?
    ensures var begin, end := First(lines, Begin), First(lines, End);
            && begin < end < |lines| && Bounds(lines).Some?
            && Bounds(lines).value.0 < begin && end < Bounds(lines).value.1
            && (forall k :: begin < k < end ==> !lines[k].Other?)
  {
    hide NonEmpty, First, Schema, Bounds, SchemaFault;
    var heading, begin, end, next := Places(lines, [SourceContext]);
    SectionIs(lines, [SourceContext], heading, next);
    InsideOut(lines, [SourceContext], heading, begin, end, next);
    InnerRead(lines, [SourceContext], begin, end);
    hide IsAt;
    forall k | begin < k < end
      ensures !lines[k].Other?
    {
      if !lines[k].Blank? {
        assert lines[begin + 1..end][k - begin - 1] == lines[k];
        Kept(lines[begin + 1..end], k - begin - 1);
      }
    }
  }

  // A record can be rewritten exactly when its head is canonical, the test matrix is there and each
  // delimiter is mentioned once: the order and the place of the delimiters then need no test.
  lemma SourceExactly(lines: seq<Line>)
    ensures SourceFault(lines).None? <==>
              && SchemaFault(lines, [SourceContext]).None?
              && (forall marker :: 0 <= marker < MARKERS ==> HasMarker(lines, marker))
              && Mentioned(lines, BeginMark) == 1 && Mentioned(lines, EndMark) == 1
  {
    hide SchemaFault, First, Bounds, HasMarker, Mentioned;
    if SchemaFault(lines, [SourceContext]).None? {
      SourceRead(lines);
    }
  }

  lemma GeneratedIsContext(id: Identity, previous: Previous, issue: int)
    ensures IsContext(Generated(id, previous, issue))
  {
  }

  // What is written tells candidates and predecessors apart.
  lemma GeneratedTells(id: Identity, previous: Previous, issue: int, id': Identity, previous': Previous, issue': int)
    requires Generated(id, previous, issue) == Generated(id', previous', issue')
    ensures id == id' && issue == issue'
    ensures previous.archive == previous'.archive && previous.sha256 == previous'.sha256
    ensures previous.buildId == previous'.buildId
    ensures previous.version == BASELINE_VERSION <==> previous'.version == BASELINE_VERSION
    ensures previous.version == BASELINE_VERSION ==> previous.status == previous'.status
  {
    var a, b := Generated(id, previous, issue), Generated(id', previous', issue');
    assert a[0] == b[0] && a[1] == b[1];
  }

  // The same lines, but for `context` in place of those between two of them.
  predicate SameOutside(lines: seq<Line>, begin: nat, end: nat, context: seq<Line>, after: seq<Line>) {
    && begin < end < |lines| && begin + 1 + |context| <= |after|
    && after[..begin + 1] == lines[..begin + 1] && after[begin + 1..begin + 1 + |context|] == context
    && after[begin + 1 + |context|..] == lines[end..]
  }

  lemma Spliced(lines: seq<Line>, context: seq<Line>, begin: nat, end: nat)
    requires begin < end < |lines| && lines[begin] == Begin && lines[end] == End
    ensures SameOutside(lines, begin, end, context, lines[..begin] + [Begin] + context + [End] + lines[end + 1..])
    ensures lines[..begin] + [Begin] + context + [End] + lines[end + 1..] == lines[..begin + 1] + context + lines[end..]
  {
    assert lines[..begin + 1] == lines[..begin] + [Begin] && lines[end..] == [End] + lines[end + 1..];
    var after := lines[..begin] + [Begin] + context + [End] + lines[end + 1..];
    assert after == lines[..begin + 1] + context + lines[end..];
  }

  // Everything outside the delimiters is kept, and with it the test matrix.
  lemma OutsideKept(lines: seq<Line>, context: seq<Line>)
    requires SchemaFault(lines, [SourceContext]).None? && IsContext(context)
    ensures First(lines, Begin) < First(lines, End) < |lines|
    ensures SameOutside(lines, First(lines, Begin), First(lines, End), context, Rewritten(lines, context))
    ensures forall marker :: HasMarker(Rewritten(lines, context), marker) <==> HasMarker(lines, marker)
  {
    hide SchemaFault, First, Bounds, HasMarker, IsContext, SameOutside;
    SourceRead(lines);
    Spliced(lines, context, First(lines, Begin), First(lines, End));
    forall marker
      ensures HasMarker(Rewritten(lines, context), marker) <==> HasMarker(lines, marker)
    {
      MarkerMoves(lines, context, First(lines, Begin) + 1, First(lines, End), marker);
    }
  }

  lemma MarkerMoves(lines: seq<Line>, context: seq<Line>, from: nat, to: nat, marker: nat)
    requires from <= to <= |lines| && (forall k :: from <= k < to ==> !lines[k].Other?) && IsContext(context)
    ensures HasMarker(lines[..from] + context + lines[to..], marker) <==> HasMarker(lines, marker)
  {
    var after := lines[..from] + context + lines[to..];
    if HasMarker(lines, marker) {
      var i :| 0 <= i < |lines| && lines[i].Other? && marker in lines[i].marks;
      assert after[if i < from then i else i - to + from + |context|] == lines[i];
    }
  }

  // ---- the tool's own code

  class AcceptanceFile {
    var lines: seq<Line>

    constructor (lines: seq<Line>)
      ensures this.lines == lines
    {
      this.lines := lines;
    }

    // What is tested before the record is touched.
    method CheckSource() returns (fault: Option<Failure>)
      ensures fault == SourceFault(lines)
    {
      hide SchemaFault, First, Bounds, HasMarker, Mentioned;
      fault := SchemaFault(lines, [SourceContext]);
      if fault.Some? {
        return;
      }
      for marker := 0 to MARKERS
        invariant forall m :: 0 <= m < marker ==> HasMarker(lines, m)
      {
        if !HasMarker(lines, marker) {
          return Some(MatrixMissing);
        }
      }
      if Mentioned(lines, BeginMark) != 1 || Mentioned(lines, EndMark) != 1 {
        return Some(DelimiterInvalid);
      }
      var begin, end := First(lines, Begin), First(lines, End);
      if begin > end {
        return Some(DelimiterOrder);
      }
      var bounds := Bounds(lines);
      if bounds.None? {
        return Some(SectionMissing);
      }
      if begin < bounds.value.0 || end + 1 > bounds.value.1 {
        return Some(OutsideBasicInfo);
      }
      return None;
    }

    // The last check, of the record as written, never fails.
    method Write(id: Identity, previous: Previous, issue: int) returns (fault: Option<Failure>)
      modifies this
      ensures fault == SourceFault(old(lines))
      ensures fault.Some? ==> lines == old(lines)
      ensures fault.None? ==>
                && First(old(lines), Begin) < First(old(lines), End) < |old(lines)|
                && lines == Rewritten(old(lines), Generated(id, previous, issue))
                && SameOutside(old(lines), First(old(lines), Begin), First(old(lines), End),
                               Generated(id, previous, issue), lines)
                && SchemaFault(lines, Generated(id, previous, issue)).None?
    {
      hide SourceFault, SchemaFault, First, HasMarker, Mentioned, IsContext, Generated, SameOutside;
      fault := CheckSource();
      if fault.Some? {
        return;
      }
      SourceExactly(lines);
      var context := Generated(id, previous, issue);
      GeneratedIsContext(id, previous, issue);
      OutsideKept(lines, context);
      RewrittenFits(lines, context);
      var begin, end := First(lines, Begin), First(lines, End);
      lines := lines[..begin] + [Begin] + context + [End] + lines[end + 1..];
      fault := SchemaFault(lines, context);
    }
  }

  // ---- the tools agree

  // The record as written passes the audit against a manifest exactly when what was written is what
  // the manifest calls for.
  lemma WrittenMeetsAudit(lines: seq<Line>, id: Identity, previous: Previous, issue: int, manifest: Manifest)
    requires SourceFault(lines).None?
    ensures First(lines, Begin) < First(lines, End) < |lines|
    ensures AuditFault(Rewritten(lines, Generated(id, previous, issue)), manifest).None? <==>
            Generated(id, previous, issue) == Expected(manifest)
  {
    SourceExactly(lines);
    GeneratedIsContext(id, previous, issue);
    hide SourceFault, SchemaFault, First, Mentioned, HasMarker, IsContext, Generated, Expected, AuditFault, Rewritten;
    RewrittenFits(lines, Generated(id, previous, issue));
    AuditExactly(Rewritten(lines, Generated(id, previous, issue)), Generated(id, previous, issue), manifest);
  }

  // The manifest the tool writes beside the record.
  function ManifestFor(date: string, commit: string, buildId: string, previous: Previous): Manifest {
    Manifest(date, commit, buildId, CandidateArchive(date, commit) + ".sha256", previous)
  }

  function IdentityFor(date: string, commit: string, buildId: string): Identity {
    Identity(commit, buildId, CandidateArchive(date, commit), CandidateArchive(date, commit) + ".sha256")
  }

  // For the tool's own manifest the record passes exactly for issue 59 and a predecessor whose status
  // goes with its version.
  lemma PreparedMeetsAudit(lines: seq<Line>, date: string, commit: string, buildId: string, previous: Previous,
                           issue: int)
    requires SourceFault(lines).None?
    ensures First(lines, Begin) < First(lines, End) < |lines|
    ensures var written := Rewritten(lines, Generated(IdentityFor(date, commit, buildId), previous, issue));
            AuditFault(written, ManifestFor(date, commit, buildId, previous)).None? <==>
            issue == 59 && (previous.version == BASELINE_VERSION <==> previous.status == "candidate")
  {
    hide SourceFault, Rewritten, AuditFault, First, CandidateArchive, Short;
    var id, manifest := IdentityFor(date, commit, buildId), ManifestFor(date, commit, buildId, previous);
    WrittenMeetsAudit(lines, id, previous, issue, manifest);
  }

  // The status the tool reads off a predecessor: a candidate of the product before, or a rejected one
  // of this.
  function PredecessorStatus(version: string): string {
    if version == BASELINE_VERSION then "candidate" else "rejected"
  }

  // For either kind of predecessor the tool accepts, issue 59 is all the audit depends on.
  lemma EitherPredecessorPasses(lines: seq<Line>, date: string, commit: string, buildId: string, previous: Previous,
                                issue: int)
    requires SourceFault(lines).None? && previous.status == PredecessorStatus(previous.version)
    ensures First(lines, Begin) < First(lines, End) < |lines|
    ensures var written := Rewritten(lines, Generated(IdentityFor(date, commit, buildId), previous, issue));
            AuditFault(written, ManifestFor(date, commit, buildId, previous)).None? <==> issue == 59
  {
    hide SourceFault, Rewritten, AuditFault, First, Generated, ManifestFor, IdentityFor;
    PreparedMeetsAudit(lines, date, commit, buildId, previous, issue);
    assert "candidate" != "rejected";
  }
}
