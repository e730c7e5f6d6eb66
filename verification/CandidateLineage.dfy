/** The lineage of a delivery candidate in its status file: the tool that prepares a candidate records it
    there after its predecessor, and an auditor written separately checks the file against the
    candidate's manifest. */
module CandidateLineage {
  import AcceptanceRecord
  import opened Options

  // The names of archives and builds, as their patterns take them apart: the product series (0.25.x),
  // the date, and the commit if the name carries one.
  datatype ArchiveName = ArchiveName(date: string, source: Option<string>, series: nat)
  datatype BuildId = BuildId(series: nat, date: string, commit: Option<string>)

  datatype Status = Candidate | Rejected | OtherStatus
  datatype Version = Baseline | Current

  // An item of the status file's list.  A field that is missing, or no name of its kind, is None.
  datatype Item =
    | Junk
    | Record(buildId: Option<BuildId>, archive: Option<ArchiveName>, checksum: Option<string>,
             commit: Option<string>, status: Status, sha256: Option<string>)

  datatype Previous =
    Previous(buildId: BuildId, archive: ArchiveName, sha256: string, commit: string, status: Status, version: Version)

  // The manifest found in the predecessor's archive, as far as it is read.
  datatype PreviousManifest =
    PreviousManifest(version: Option<Version>, releaseDate: string, candidate: bool, buildId: Option<BuildId>, commit: string)

  datatype Manifest = Manifest(date: string, commit: string, checksum: string, supersedes: Previous)

  // ---- names

  const SERIES: nat := 3

  function CurrentArchive(date: string, commit: string): ArchiveName {
    ArchiveName(date, Some(AcceptanceRecord.Short(commit)), SERIES)
  }

  function CurrentBuild(date: string, commit: string): BuildId {
    BuildId(SERIES, date, Some(commit))
  }

  predicate IsCommit(text: string) {
    7 <= |text| <= 40 && forall i :: 0 <= i < |text| ==> '0' <= text[i] <= '9' || 'a' <= text[i] <= 'f'
  }

  // An archive named after a commit belongs to the build of that commit.
  predicate Bound(archive: ArchiveName, commit: string, buildId: BuildId) {
    archive.source.Some? ==>
      && IsCommit(commit) && buildId.commit == Some(commit) && archive.source.value <= commit
      && buildId.series == archive.series && buildId.date == archive.date
  }

  // What the tool takes from the predecessor's archive, if it takes it at all.
  function Metadata(archive: ArchiveName, sha256: string, manifest: PreviousManifest): Option<Previous> {
    if manifest.version.None? || manifest.releaseDate != archive.date || !manifest.candidate ||
       manifest.buildId.None? || !Bound(archive, manifest.commit, manifest.buildId.value)
    then None
    else Some(Previous(manifest.buildId.value, archive, sha256, manifest.commit,
                       if manifest.version.value == Baseline then Candidate else Rejected, manifest.version.value))
  }

  // ---- lists

  function Filter(items: seq<Item>, keep: Item -> bool): (kept: seq<Item>)
    ensures |kept| <= |items| && forall i :: 0 <= i < |kept| ==> keep(kept[i])
  {
    if items == [] then []
    else Filter(items[..|items| - 1], keep) + (if keep(items[|items| - 1]) then [items[|items| - 1]] else [])
  }

  predicate OfArchive(item: Item, archive: ArchiveName) {
    item.Record? && item.archive == Some(archive)
  }

  predicate OfBuild(item: Item, buildId: BuildId) {
    item.Record? && item.buildId == Some(buildId)
  }

  predicate IsCandidate(item: Item) {
    item.Record? && item.status == Candidate
  }

  function ByArchive(items: seq<Item>, archive: ArchiveName): (found: seq<Item>)
    ensures forall i :: 0 <= i < |found| ==> OfArchive(found[i], archive)
  {
    Filter(items, x => OfArchive(x, archive))
  }

  function ByBuild(items: seq<Item>, build: BuildId): (found: seq<Item>)
    ensures forall i :: 0 <= i < |found| ==> OfBuild(found[i], build)
  {
    Filter(items, x => OfBuild(x, build))
  }

  function Candidates(items: seq<Item>): (found: seq<Item>)
    ensures forall i :: 0 <= i < |found| ==> IsCandidate(found[i])
  {
    Filter(items, x => IsCandidate(x))
  }

  lemma FilterLast(items: seq<Item>, last: Item, keep: Item -> bool)
    ensures Filter(items + [last], keep) == Filter(items, keep) + (if keep(last) then [last] else [])
  {
    assert (items + [last])[..|items|] == items;
  }

  lemma {:induction false} FilterTwice(items: seq<Item>, first: Item -> bool, second: Item -> bool, both: Item -> bool)
    requires forall x :: both(x) == (first(x) && second(x))
    ensures Filter(Filter(items, first), second) == Filter(items, both)
    decreases |items|
  {
    if items != [] {
      var before, last := items[..|items| - 1], items[|items| - 1];
      FilterTwice(before, first, second, both);
      FilterLast(Filter(before, first), last, second);
      assert Filter(items, first) == if first(last) then Filter(before, first) + [last] else Filter(before, first);
    }
  }

  lemma {:induction false} FilterNone(items: seq<Item>, keep: Item -> bool)
    ensures Filter(items, keep) == [] <==> forall i :: 0 <= i < |items| ==> !keep(items[i])
    decreases |items|
  {
    if items != [] {
      var before, last := items[..|items| - 1], items[|items| - 1];
      FilterNone(before, keep);
      assert items == before + [last];
    }
  }

  // ---- the tool

  datatype Fault =
    | ProductInStatus | PreviousMissing | PreviousInvalid | PreviousSource
    | SupersededInvalid | Unbound | CandidateCardinality | CandidateMismatch | RejectedMissing
    | RejectedBuild | RejectedDigest | RejectedSource | CurrentInvalid

  function RecordFault(items: seq<Item>, previous: Previous): Option<Fault> {
    var found := ByArchive(items, previous.archive);
    if previous.version == Baseline then if found == [] then None else Some(ProductInStatus)
    else if |found| != 1 then Some(PreviousMissing)
    else if found[0].status != Rejected || found[0].sha256 != Some(previous.sha256) then Some(PreviousInvalid)
    else if previous.commit != "" && found[0].commit != Some(previous.commit) then Some(PreviousSource)
    else None
  }

  // One record of the archive, and no other.
  predicate IsOnly(items: seq<Item>, archive: ArchiveName, i: nat) {
    i < |items| && OfArchive(items[i], archive) && forall j :: 0 <= j < |items| && OfArchive(items[j], archive) ==> j == i
  }

  // The list has what the tool expects of the predecessor: no record of a product candidate, and of a
  // rejected one exactly one, rejected, with its digest and, if it is known, its commit.
  ghost predicate Expects(items: seq<Item>, previous: Previous) {
    if previous.version == Baseline then forall i :: 0 <= i < |items| ==> !OfArchive(items[i], previous.archive)
    else
      exists i: nat :: IsOnly(items, previous.archive, i) && items[i].status == Rejected
                       && items[i].sha256 == Some(previous.sha256)
                       && (previous.commit != "" ==> items[i].commit == Some(previous.commit))
  }

  lemma {:induction false} FilterOnly(items: seq<Item>, keep: Item -> bool, i: nat)
    requires i < |items| && keep(items[i]) && forall j :: 0 <= j < |items| && keep(items[j]) ==> j == i
    ensures Filter(items, keep) == [items[i]]
    decreases |items|
  {
    var before := items[..|items| - 1];
    if i < |items| - 1 {
      FilterOnly(before, keep, i);
    } else {
      FilterNone(before, keep);
    }
  }

  lemma {:induction false} FilterOne(items: seq<Item>, keep: Item -> bool) returns (i: nat)
    requires |Filter(items, keep)| == 1
    ensures i < |items| && keep(items[i]) && forall j :: 0 <= j < |items| && keep(items[j]) ==> j == i
    decreases |items|
  {
    var before, last := items[..|items| - 1], items[|items| - 1];
    FilterNone(before, keep);
    if keep(last) {
      i := |items| - 1;
      assert forall j :: 0 <= j < i ==> items[j] == before[j];
    } else {
      i := FilterOne(before, keep);
      assert forall j :: 0 <= j < |before| ==> items[j] == before[j];
    }
  }

  lemma ExpectsExactly(items: seq<Item>, previous: Previous)
    ensures RecordFault(items, previous).None? <==> Expects(items, previous)
  {
    var mine := (x: Item) => OfArchive(x, previous.archive);
    FilterSame(items, mine, x => OfArchive(x, previous.archive));
    var found := ByArchive(items, previous.archive);
    assert found == Filter(items, mine);
    if previous.version == Baseline {
      FilterNone(items, mine);
    } else {
      if |found| == 1 {
        var i := FilterOne(items, mine);
        FilterOnly(items, mine, i);
        assert IsOnly(items, previous.archive, i);
      }
      if Expects(items, previous) {
        var i: nat :| IsOnly(items, previous.archive, i) && items[i].status == Rejected
                      && items[i].sha256 == Some(previous.sha256)
                      && (previous.commit != "" ==> items[i].commit == Some(previous.commit));
        FilterOnly(items, mine, i);
      }
    }
  }

  function CurrentRecord(date: string, commit: string, checksum: string): Item {
    Record(Some(CurrentBuild(date, commit)), Some(CurrentArchive(date, commit)), Some(checksum), Some(commit), Candidate, None)
  }

  // The list with the candidate in place of any earlier record of the same build.
  function Recorded(items: seq<Item>, date: string, commit: string, checksum: string): seq<Item> {
    Filter(items, x => !OfBuild(x, CurrentBuild(date, commit))) + [CurrentRecord(date, commit, checksum)]
  }

  function Others(items: seq<Item>, build: BuildId): seq<Item> {
    Filter(items, x => !OfBuild(x, build))
  }

  // The new record comes last and is the only one of its build, and the others are kept in order.
  ghost predicate Succeeds(items: seq<Item>, after: seq<Item>, build: BuildId, current: Item) {
    && after != [] && after[|after| - 1] == current && OfBuild(current, build)
    && (forall i :: 0 <= i < |after| - 1 ==> !OfBuild(after[i], build))
    && Others(after, build) == Others(items, build)
  }

  lemma RecordedSucceeds(items: seq<Item>, date: string, commit: string, checksum: string)
    ensures Succeeds(items, Recorded(items, date, commit, checksum), CurrentBuild(date, commit),
                     CurrentRecord(date, commit, checksum))
  {
    var build, current := CurrentBuild(date, commit), CurrentRecord(date, commit, checksum);
    var others := (x: Item) => !OfBuild(x, build);
    FilterRecorded(items, date, commit, checksum, others, others);
    FilterSame(items, others, x => !OfBuild(x, build));
    FilterSame(Recorded(items, date, commit, checksum), others, x => !OfBuild(x, build));
  }

  class StatusFile {
    var records: seq<Item>

    constructor (records: seq<Item>)
      ensures this.records == records
    {
      this.records := records;
    }

    method RecordCandidate(previous: Previous, date: string, commit: string, checksum: string)
      returns (fault: Option<Fault>)
      modifies this
      ensures fault == RecordFault(old(records), previous)
      ensures fault.None? <==> Expects(old(records), previous)
      ensures records == if fault.None? then Recorded(old(records), date, commit, checksum) else old(records)
      ensures fault.None? ==>
                Succeeds(old(records), records, CurrentBuild(date, commit), CurrentRecord(date, commit, checksum))
    {
      ExpectsExactly(records, previous);
      RecordedSucceeds(records, date, commit, checksum);
      hide Expects, Succeeds;
      var found := ByArchive(records, previous.archive);
      if previous.version == Baseline {
        if found != [] {
          return Some(ProductInStatus);
        }
      } else {
        if |found| != 1 {
          return Some(PreviousMissing);
        }
        if found[0].status != Rejected || found[0].sha256 != Some(previous.sha256) {
          return Some(PreviousInvalid);
        }
        if previous.commit != "" && found[0].commit != Some(previous.commit) {
          return Some(PreviousSource);
        }
      }
      records := Filter(records, x => !OfBuild(x, CurrentBuild(date, commit))) + [CurrentRecord(date, commit, checksum)];
      return None;
    }
  }

  // ---- the auditor, against the manifest the tool writes

  function SupersededFault(manifest: Manifest): Option<Fault> {
    var previous := manifest.supersedes;
    if previous.status != (if previous.archive.series == 2 then Candidate else Rejected) ||
       previous.archive == CurrentArchive(manifest.date, manifest.commit) ||
       previous.buildId.series != previous.archive.series || previous.buildId.date != previous.archive.date
    then Some(SupersededInvalid)
    else if !Bound(previous.archive, previous.commit, previous.buildId) then Some(Unbound)
    else None
  }

  function PredecessorFault(items: seq<Item>, previous: Previous): Option<Fault> {
    var found := ByArchive(items, previous.archive);
    if previous.archive.series == 2 then if found == [] then None else Some(ProductInStatus)
    else if |found| != 1 || found[0].status != Rejected then Some(RejectedMissing)
    else if found[0].buildId != Some(previous.buildId) then Some(RejectedBuild)
    else if found[0].sha256 != Some(previous.sha256) then Some(RejectedDigest)
    else if previous.archive.source.Some? && found[0].commit != Some(previous.commit) then Some(RejectedSource)
    else None
  }

  function LineageFault(items: seq<Item>, manifest: Manifest): Option<Fault> {
    var build := CurrentBuild(manifest.date, manifest.commit);
    var candidates, current := Candidates(items), ByBuild(items, build);
    if SupersededFault(manifest).Some? then SupersededFault(manifest)
    else if |candidates| != 1 then Some(CandidateCardinality)
    else if candidates[0].buildId != Some(build) then Some(CandidateMismatch)
    else if PredecessorFault(items, manifest.supersedes).Some? then PredecessorFault(items, manifest.supersedes)
    else if |current| != 1 || current[0].status != Candidate ||
            current[0].archive != Some(CurrentArchive(manifest.date, manifest.commit)) ||
            current[0].commit != Some(manifest.commit) || current[0].checksum != Some(manifest.checksum)
    then Some(CurrentInvalid)
    else None
  }

  // ---- exactly which lists the auditor passes

  // The i-th item is the one candidate of the list and the one record of the manifest's build, and has
  // its archive, commit and checksum.
  ghost predicate IsCurrent(items: seq<Item>, i: nat, manifest: Manifest) {
    var build := CurrentBuild(manifest.date, manifest.commit);
    && i < |items| && IsCandidate(items[i]) && OfBuild(items[i], build)
    && items[i].archive == Some(CurrentArchive(manifest.date, manifest.commit))
    && items[i].commit == Some(manifest.commit) && items[i].checksum == Some(manifest.checksum)
    && forall j :: 0 <= j < |items| && (IsCandidate(items[j]) || OfBuild(items[j], build)) ==> j == i
  }

  // The i-th item is the one record of a rejected predecessor's archive, and is of its build, digest
  // and, where the archive is named after a commit, commit.
  ghost predicate IsRejected(items: seq<Item>, i: nat, previous: Previous) {
    && IsOnly(items, previous.archive, i) && items[i].status == Rejected
    && items[i].buildId == Some(previous.buildId) && items[i].sha256 == Some(previous.sha256)
    && (previous.archive.source.Some? ==> items[i].commit == Some(previous.commit))
  }

  ghost predicate SupersedesWell(manifest: Manifest) {
    var previous := manifest.supersedes;
    && (previous.archive.series == 2 ==> previous.status == Candidate)
    && (previous.archive.series != 2 ==> previous.status == Rejected)
    && previous.archive != CurrentArchive(manifest.date, manifest.commit)
    && previous.buildId.series == previous.archive.series && previous.buildId.date == previous.archive.date
    && (previous.archive.source.Some? ==>
          && IsCommit(previous.commit) && previous.buildId.commit == Some(previous.commit)
          && previous.archive.source.value <= previous.commit)
  }

  ghost predicate IsConsistent(items: seq<Item>, manifest: Manifest) {
    var previous := manifest.supersedes;
    && SupersedesWell(manifest) && (exists i: nat :: IsCurrent(items, i, manifest))
    && if previous.archive.series == 2 then forall i :: 0 <= i < |items| ==> !OfArchive(items[i], previous.archive)
       else exists i: nat :: IsRejected(items, i, previous)
  }

  lemma SupersededExactly(manifest: Manifest)
    ensures SupersededFault(manifest).None? <==> SupersedesWell(manifest)
  {
    hide IsCommit;
  }

  lemma PredecessorExactly(items: seq<Item>, previous: Previous)
    ensures PredecessorFault(items, previous).None? <==>
            if previous.archive.series == 2 then forall i :: 0 <= i < |items| ==> !OfArchive(items[i], previous.archive)
            else exists i: nat :: IsRejected(items, i, previous)
  {
    var mine := (x: Item) => OfArchive(x, previous.archive);
    FilterSame(items, mine, x => OfArchive(x, previous.archive));
    var found := ByArchive(items, previous.archive);
    assert found == Filter(items, mine);
    if previous.archive.series == 2 {
      FilterNone(items, mine);
    } else {
      if |found| == 1 {
        var i := FilterOne(items, mine);
        FilterOnly(items, mine, i);
        assert IsOnly(items, previous.archive, i);
        assert PredecessorFault(items, previous).None? ==> IsRejected(items, i, previous);
      }
      if i: nat :| IsRejected(items, i, previous) {
        FilterOnly(items, mine, i);
      }
    }
  }

  predicate IsOneCurrent(candidates: seq<Item>, current: seq<Item>, manifest: Manifest) {
    && |candidates| == 1 && candidates[0].Record?
    && candidates[0].buildId == Some(CurrentBuild(manifest.date, manifest.commit))
    && |current| == 1 && current[0].Record? && current[0].status == Candidate
    && current[0].archive == Some(CurrentArchive(manifest.date, manifest.commit))
    && current[0].commit == Some(manifest.commit) && current[0].checksum == Some(manifest.checksum)
  }

  lemma CurrentExactly(items: seq<Item>, manifest: Manifest)
    ensures IsOneCurrent(Candidates(items), ByBuild(items, CurrentBuild(manifest.date, manifest.commit)), manifest) <==>
            exists i: nat :: IsCurrent(items, i, manifest)
  {
    var build := CurrentBuild(manifest.date, manifest.commit);
    var candidate, own := (x: Item) => IsCandidate(x), (x: Item) => OfBuild(x, build);
    FilterSame(items, candidate, x => IsCandidate(x));
    FilterSame(items, own, x => OfBuild(x, build));
    var candidates, current := Candidates(items), ByBuild(items, build);
    assert candidates == Filter(items, candidate) && current == Filter(items, own);
    if |candidates| == 1 && |current| == 1 {
      var i := FilterOne(items, candidate);
      var j := FilterOne(items, own);
      FilterOnly(items, candidate, i);
      FilterOnly(items, own, j);
      assert candidates == [items[i]] && current == [items[j]];
      if candidates[0].buildId == Some(build) {
        assert i == j;
        assert current[0].archive == Some(CurrentArchive(manifest.date, manifest.commit))
               && current[0].commit == Some(manifest.commit) && current[0].checksum == Some(manifest.checksum) ==>
                 IsCurrent(items, i, manifest);
      }
    }
    if i: nat :| IsCurrent(items, i, manifest) {
      FilterOnly(items, candidate, i);
      FilterOnly(items, own, i);
    }
  }

  // The auditor passes a list exactly when it is consistent with the manifest, whoever wrote it.
  lemma LineageExactly(items: seq<Item>, manifest: Manifest)
    ensures LineageFault(items, manifest).None? <==> IsConsistent(items, manifest)
  {
    SupersededExactly(manifest);
    CurrentExactly(items, manifest);
    PredecessorExactly(items, manifest.supersedes);
    hide SupersededFault, PredecessorFault, SupersedesWell, IsCurrent, IsRejected, Filter, Candidates, ByBuild;
  }

  // ---- what the auditor finds in a recorded list

  lemma FilterRecorded(items: seq<Item>, date: string, commit: string, checksum: string,
                       keep: Item -> bool, both: Item -> bool)
    requires forall x :: both(x) == (!OfBuild(x, CurrentBuild(date, commit)) && keep(x))
    ensures var rec := CurrentRecord(date, commit, checksum);
            Filter(Recorded(items, date, commit, checksum), keep) ==
            Filter(items, both) + (if keep(rec) then [rec] else [])
  {
    var build, rec := CurrentBuild(date, commit), CurrentRecord(date, commit, checksum);
    var others := (x: Item) => !OfBuild(x, build);
    assert Recorded(items, date, commit, checksum) == Filter(items, others) + [rec] by {
      FilterSame(items, others, x => !OfBuild(x, CurrentBuild(date, commit)));
    }
    FilterLast(Filter(items, others), rec, keep);
    FilterTwice(items, others, keep, both);
  }

  lemma {:induction false} FilterSame(items: seq<Item>, one: Item -> bool, other: Item -> bool)
    requires forall x :: one(x) == other(x)
    ensures Filter(items, one) == Filter(items, other)
    decreases |items|
  {
    if items != [] {
      FilterSame(items[..|items| - 1], one, other);
    }
  }

  // Every candidate of the list is an earlier record of the same build.
  ghost predicate NoOtherCandidate(items: seq<Item>, build: BuildId) {
    forall i :: 0 <= i < |items| && IsCandidate(items[i]) ==> OfBuild(items[i], build)
  }

  lemma CandidatesRecorded(items: seq<Item>, date: string, commit: string, checksum: string)
    ensures var build, rec := CurrentBuild(date, commit), CurrentRecord(date, commit, checksum);
            var candidates := Candidates(Recorded(items, date, commit, checksum));
            && (|candidates| == 1 <==> NoOtherCandidate(items, build))
            && (|candidates| == 1 ==> candidates == [rec])
  {
    var build := CurrentBuild(date, commit);
    var other := (x: Item) => !OfBuild(x, build) && IsCandidate(x);
    var candidate := (x: Item) => IsCandidate(x);
    FilterRecorded(items, date, commit, checksum, candidate, other);
    FilterSame(Recorded(items, date, commit, checksum), candidate, x => IsCandidate(x));
    FilterNone(items, other);
  }

  lemma CurrentRecorded(items: seq<Item>, date: string, commit: string, checksum: string)
    ensures var build, rec := CurrentBuild(date, commit), CurrentRecord(date, commit, checksum);
            ByBuild(Recorded(items, date, commit, checksum), build) == [rec]
  {
    var build := CurrentBuild(date, commit);
    var none := (x: Item) => !OfBuild(x, build) && OfBuild(x, build);
    var own := (x: Item) => OfBuild(x, build);
    FilterRecorded(items, date, commit, checksum, own, none);
    FilterSame(Recorded(items, date, commit, checksum), own, x => OfBuild(x, build));
    FilterNone(items, none);
  }

  // The predecessor's own record, where it must have one.
  ghost predicate HasRecord(items: seq<Item>, previous: Previous, build: BuildId) {
    var found := ByArchive(items, previous.archive);
    |found| == 1 && found[0].buildId == Some(previous.buildId) && previous.buildId != build
  }

  lemma FilterSingle(item: Item, keep: Item -> bool)
    ensures Filter([item], keep) == if keep(item) then [item] else []
    ensures Filter([], keep) == []
  {
    assert [item][..0] == [];
  }

  lemma PredecessorRecorded(items: seq<Item>, date: string, commit: string, checksum: string, previous: Previous)
    requires previous.archive != CurrentArchive(date, commit)
    ensures var build := CurrentBuild(date, commit);
            var found := ByArchive(items, previous.archive);
            var after := ByArchive(Recorded(items, date, commit, checksum), previous.archive);
            && (found == [] ==> after == [])
            && (|found| == 1 ==> after == if found[0].buildId == Some(build) then [] else found)
  {
    var build := CurrentBuild(date, commit);
    var mine := (x: Item) => OfArchive(x, previous.archive);
    var others := (x: Item) => !OfBuild(x, build);
    var both := (x: Item) => !OfBuild(x, build) && OfArchive(x, previous.archive);
    FilterRecorded(items, date, commit, checksum, mine, both);
    FilterTwice(items, mine, others, both);
    FilterSame(items, mine, x => OfArchive(x, previous.archive));
    FilterSame(Recorded(items, date, commit, checksum), mine, x => OfArchive(x, previous.archive));
    var found := Filter(items, mine);
    if found == [] {
      FilterNone(found, others);
    }
    if |found| == 1 {
      FilterSingle(found[0], others);
      assert found == [found[0]];
    }
    hide Filter, OfArchive, CurrentArchive, CurrentBuild;
  }

  // For a predecessor the tool accepts, and a list it records the candidate in, the auditor passes the
  // result exactly when the archive's series goes with its version and its build, no other build is a
  // candidate, and a rejected predecessor's record is of its build and not of the new one.
  lemma RecordedMeetsAudit(items: seq<Item>, archive: ArchiveName, sha256: string, manifest: PreviousManifest,
                           date: string, commit: string, checksum: string)
    requires Metadata(archive, sha256, manifest).Some? && archive != CurrentArchive(date, commit)
    requires RecordFault(items, Metadata(archive, sha256, manifest).value).None?
    ensures var previous, build := Metadata(archive, sha256, manifest).value, CurrentBuild(date, commit);
            LineageFault(Recorded(items, date, commit, checksum), Manifest(date, commit, checksum, previous)).None? <==>
              && (archive.series == 2 <==> previous.version == Baseline)
              && previous.buildId.series == archive.series && previous.buildId.date == archive.date
              && NoOtherCandidate(items, build)
              && (previous.version == Current ==> HasRecord(items, previous, build))
  {
    var previous := Metadata(archive, sha256, manifest).value;
    CandidatesRecorded(items, date, commit, checksum);
    CurrentRecorded(items, date, commit, checksum);
    PredecessorRecorded(items, date, commit, checksum, previous);
    hide Filter, NoOtherCandidate, Recorded, ByArchive, ByBuild, Candidates;
  }

  // The tool leaves an earlier candidate of another build standing, and the auditor refuses every list
  // it leaves so.
  lemma OtherCandidateFails(items: seq<Item>, date: string, commit: string, checksum: string, previous: Previous)
    requires !NoOtherCandidate(items, CurrentBuild(date, commit))
    ensures LineageFault(Recorded(items, date, commit, checksum), Manifest(date, commit, checksum, previous)).Some?
    ensures forall i :: 0 <= i < |items| && IsCandidate(items[i]) && !OfBuild(items[i], CurrentBuild(date, commit)) ==>
              items[i] in Recorded(items, date, commit, checksum)
  {
    CandidatesRecorded(items, date, commit, checksum);
    forall i | 0 <= i < |items| && IsCandidate(items[i]) && !OfBuild(items[i], CurrentBuild(date, commit))
      ensures items[i] in Recorded(items, date, commit, checksum)
    {
      FilterKeeps(items, x => !OfBuild(x, CurrentBuild(date, commit)), i);
    }
    hide Filter, Recorded, ByArchive, ByBuild, Candidates;
  }

  lemma {:induction false} FilterKeeps(items: seq<Item>, keep: Item -> bool, i: nat)
    requires i < |items| && keep(items[i])
    ensures items[i] in Filter(items, keep)
    decreases |items|
  {
    if i < |items| - 1 {
      FilterKeeps(items[..|items| - 1], keep, i);
    }
  }
}
