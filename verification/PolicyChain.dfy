/** Delivery policies: a policy may be based on another in the same directory tree, and so on.  One tool
    walks the chain to list every file a delivery is built from; another loads the chain into one
    merged policy.  Paths are sequences of parts, relative to the repository unless said otherwise. */
module PolicyChain {
  import opened Options

  type Path = seq<string>

  // A path as written in a policy.
  datatype Name = Name(absolute: bool, parts: Path)

  datatype Entry =
    | FileEntry(source: Name, target: Name, replace: bool)
    | TreeEntry(source: Name, target: Name, included: seq<Name>, replace: bool)
    | ArchiveEntry(source: Name, sourceRoot: Option<Path>, target: Name, included: seq<Name>, replace: bool)
    | UnknownEntry(source: Name)

  datatype Policy =
    Policy(schemaKnown: bool, base: Option<Name>, version: Option<string>, entries: seq<Entry>, generated: set<string>)

  // The policy files of the repository that parse.
  type Policies = map<Path, Policy>

  datatype Failure =
    | PathOutside | PathInvalid | PolicyCycle | PolicyInvalid | SchemaInvalid | EntryInvalid | TreeInvalid

  datatype Result<+T> = Ok(value: T) | Fail(failure: Failure)

  // ---- paths

  predicate IsPlain(name: Name) {
    !name.absolute && name.parts != [] && ".." !in name.parts
  }

  // Path.resolve, where nothing is a symbolic link.
  function Normal(parts: Path): Path {
    if parts == [] then []
    else
      var before, last := Normal(parts[..|parts| - 1]), parts[|parts| - 1];
      if last != ".." then before + [last]
      else if before == [] then []
      else before[..|before| - 1]
  }

  // The path relative to the repository, whose own absolute path is `root`.
  function Relative(root: Path, directory: Path, name: Name): Result<Path> {
    var resolved := Normal(if name.absolute then name.parts else root + directory + name.parts);
    if !(root <= resolved) then Fail(PathOutside)
    else if resolved == root then Fail(PathInvalid)
    else Ok(resolved[|root|..])
  }

  function Parent(path: Path): Path {
    if path == [] then [] else path[..|path| - 1]
  }

  lemma {:induction false} NormalKeepsPlain(parts: Path)
    requires ".." !in parts
    ensures Normal(parts) == parts
  {
    if parts != [] {
      NormalKeepsPlain(parts[..|parts| - 1]);
    }
  }

  // ---- the list of sources

  function Files(source: Name, included: seq<Name>): Result<seq<Path>> {
    if included == [] then Ok([])
    else
      var before := Files(source, included[..|included| - 1]);
      if before.Fail? then before
      else if !IsPlain(included[|included| - 1]) then Fail(PathInvalid)
      else Ok(before.value + [source.parts + included[|included| - 1].parts])
  }

  function EntrySources(entry: Entry): Result<seq<Path>> {
    if !IsPlain(entry.source) then Fail(PathInvalid)
    else match entry
      case FileEntry(source, _, _) => Ok([source.parts])
      case ArchiveEntry(source, _, _, _, _) => Ok([source.parts])
      case TreeEntry(source, _, included, _) => if included == [] then Fail(TreeInvalid) else Files(source, included)
      case UnknownEntry(_) => Fail(EntryInvalid)
  }

  function EntriesSources(entries: seq<Entry>): Result<seq<Path>> {
    if entries == [] then Ok([])
    else
      var before := EntriesSources(entries[..|entries| - 1]);
      if before.Fail? then before
      else
        var last := EntrySources(entries[|entries| - 1]);
        if last.Fail? then last else Ok(before.value + last.value)
  }

  // The walk along the chain, from a policy on which nothing in `seen` may depend.
  function Listed(root: Path, policies: Policies, at: Result<Path>, seen: set<Path>): Result<seq<Path>>
    decreases policies.Keys - seen
  {
    if at.Fail? then Fail(at.failure)
    else if at.value in seen then Fail(PolicyCycle)
    else if at.value !in policies then Fail(PolicyInvalid)
    else if !policies[at.value].schemaKnown then Fail(SchemaInvalid)
    else
      var policy := policies[at.value];
      var base :=
        if policy.base.None? then Ok([])
        else Listed(root, policies, Relative(root, Parent(at.value), policy.base.value), seen + {at.value});
      if base.Fail? then base
      else
        var own := EntriesSources(policy.entries);
        if own.Fail? then own else Ok([at.value] + base.value + own.value)
  }

  class Provenance {
    const root: Path
    const policies: Policies
    var seen: set<Path>

    constructor (root: Path, policies: Policies)
      ensures this.root == root && this.policies == policies && seen == {}
    {
      this.root, this.policies, seen := root, policies, {};
    }

    method TreeSources(source: Name, included: seq<Name>) returns (result: Result<seq<Path>>)
      ensures result == Files(source, included)
    {
      var sources: seq<Path> := [];
      for i := 0 to |included|
        invariant Files(source, included[..i]) == Ok(sources)
      {
        assert included[..i + 1][..i] == included[..i];
        if !IsPlain(included[i]) {
          FilesFail(source, included, i + 1);
          return Fail(PathInvalid);
        }
        sources := sources + [source.parts + included[i].parts];
      }
      assert included[..|included|] == included;
      return Ok(sources);
    }

    method SourcesOf(entry: Entry) returns (result: Result<seq<Path>>)
      ensures result == EntrySources(entry)
    {
      if !IsPlain(entry.source) {
        return Fail(PathInvalid);
      }
      match entry {
        case FileEntry(source, _, _) => result := Ok([source.parts]);
        case ArchiveEntry(source, _, _, _, _) => result := Ok([source.parts]);
        case TreeEntry(source, _, included, _) =>
          if included == [] {
            return Fail(TreeInvalid);
          }
          result := TreeSources(source, included);
        case UnknownEntry(_) => result := Fail(EntryInvalid);
      }
    }

    method PolicySources(at: Result<Path>) returns (result: Result<seq<Path>>)
      modifies this`seen
      ensures result == Listed(root, policies, at, old(seen))
      decreases policies.Keys - seen
    {
      hide Relative, EntrySources;
      if at.Fail? {
        return Fail(at.failure);
      }
      if at.value in seen {
        return Fail(PolicyCycle);
      }
      seen := seen + {at.value};
      if at.value !in policies {
        return Fail(PolicyInvalid);
      }
      var policy := policies[at.value];
      if !policy.schemaKnown {
        return Fail(SchemaInvalid);
      }
      var sources := [at.value];
      assert sources + [] == sources;
      if policy.base.Some? {
        var base := PolicySources(Relative(root, Parent(at.value), policy.base.value));
        if base.Fail? {
          return base;
        }
        sources := sources + base.value;
      }
      var own := EntriesOf(policy.entries);
      if own.Fail? {
        return own;
      }
      return Ok(sources + own.value);
    }

    method EntriesOf(entries: seq<Entry>) returns (result: Result<seq<Path>>)
      ensures result == EntriesSources(entries)
    {
      hide EntrySources;
      var sources: seq<Path> := [];
      for i := 0 to |entries|
        invariant EntriesSources(entries[..i]) == Ok(sources)
      {
        assert entries[..i + 1][..i] == entries[..i];
        var own := SourcesOf(entries[i]);
        if own.Fail? {
          EntriesFail(entries, i + 1);
          return own;
        }
        sources := sources + own.value;
      }
      assert entries[..|entries|] == entries;
      return Ok(sources);
    }
  }

  lemma {:induction false} FilesFail(source: Name, included: seq<Name>, n: nat)
    requires n <= |included| && Files(source, included[..n]).Fail?
    ensures Files(source, included) == Files(source, included[..n])
    decreases |included|
  {
    if n == |included| {
      assert included[..n] == included;
    } else {
      assert included[..|included| - 1][..n] == included[..n];
      FilesFail(source, included[..|included| - 1], n);
    }
  }

  lemma {:induction false} EntriesFail(entries: seq<Entry>, n: nat)
    requires n <= |entries| && EntriesSources(entries[..n]).Fail?
    ensures EntriesSources(entries) == EntriesSources(entries[..n])
    decreases |entries|
  {
    if n == |entries| {
      assert entries[..n] == entries;
    } else {
      assert entries[..|entries| - 1][..n] == entries[..n];
      EntriesFail(entries[..|entries| - 1], n);
    }
  }

  // ---- loading

  predicate HasGlob(parts: Path) {
    exists i :: 0 <= i < |parts| && IsGlob(parts[i])
  }

  predicate IsGlob(part: string) {
    '*' in part || '?' in part || '[' in part || ']' in part
  }

  // One call of the loader: it fails, it has a policy without a base, or it goes on to the base.
  datatype Call = Stops | Leaf | GoesTo(base: Path)

  function LoaderCall(policies: Policies, path: Path): Call {
    if path !in policies || !policies[path].schemaKnown then Stops
    else match policies[path].base
      case None => Leaf
      case Some(name) =>
        var base := Parent(path) + name.parts;
        if HasGlob(name.parts) || !IsPlain(name) || base == path || base !in policies then Stops else GoesTo(base)
  }

  function Merge(base: Policy, policy: Policy): Policy {
    base.(version := if policy.version.Some? then policy.version else base.version,
          entries := base.entries + policy.entries,
          generated := base.generated + policy.generated)
  }

  datatype Load = Running | Rejected | Loaded(policy: Policy)

  // What the loader has come to when `depth` nested calls are allowed.
  function LoadPolicy(policies: Policies, path: Path, depth: nat): Load
    decreases depth
  {
    if depth == 0 then Running
    else match LoaderCall(policies, path)
      case Stops => Rejected
      case Leaf => Loaded(policies[path])
      case GoesTo(base) =>
        match LoadPolicy(policies, base, depth - 1)
        case Loaded(policy) => Loaded(Merge(policy, policies[path]))
        case other => other
  }

  lemma {:induction false} LoadIsFinal(policies: Policies, path: Path, depth: nat, more: nat)
    requires !LoadPolicy(policies, path, depth).Running? && depth <= more
    ensures LoadPolicy(policies, path, more) == LoadPolicy(policies, path, depth)
    decreases depth
  {
    var call := LoaderCall(policies, path);
    if call.GoesTo? {
      LoadIsFinal(policies, call.base, depth - 1, more - 1);
    }
  }

  // ---- when loading ends

  predicate IsDescent(policies: Policies, walk: seq<Path>) {
    forall i :: 0 <= i < |walk| - 1 ==> LoaderCall(policies, walk[i]) == GoesTo(walk[i + 1])
  }

  predicate IsLoop(policies: Policies, path: Path, walk: seq<Path>, i: nat, j: nat) {
    IsDescent(policies, walk) && i < j < |walk| && walk[0] == path && walk[i] == walk[j]
  }

  ghost predicate Loops(policies: Policies, path: Path) {
    exists walk: seq<Path>, i: nat, j: nat :: IsLoop(policies, path, walk, i, j)
  }

  lemma {:induction false} DescentIsShallow(policies: Policies, walk: seq<Path>, depth: nat)
    requires walk != [] && IsDescent(policies, walk) && !LoadPolicy(policies, walk[0], depth).Running?
    ensures |walk| <= depth
    decreases |walk|
  {
    if |walk| > 1 {
      assert LoaderCall(policies, walk[0]) == GoesTo(walk[1]);
      DescentIsShallow(policies, walk[1..], depth - 1);
    }
  }

  // Going round once more makes the descent longer.
  lemma {:induction false} GoRound(policies: Policies, path: Path, walk: seq<Path>, i: nat, j: nat, length: nat)
    returns (longer: seq<Path>)
    requires IsLoop(policies, path, walk, i, j)
    ensures IsLoop(policies, path, longer, i, j) && |longer| > length
  {
    if length == 0 {
      longer := walk;
    } else {
      var once := GoRound(policies, path, walk, i, j, length - 1);
      longer := once[..j] + once[i..];
      forall k | 0 <= k < |longer| - 1
        ensures LoaderCall(policies, longer[k]) == GoesTo(longer[k + 1])
      {
        if k < j {
          assert longer[k] == once[k] && longer[k + 1] == once[k + 1];
        } else {
          assert longer[k] == once[k - j + i] && longer[k + 1] == once[k - j + i + 1];
        }
      }
    }
  }

  function Elements(walk: seq<Path>): set<Path> {
    set path | path in walk
  }

  lemma {:induction false} EndsWithoutLoop(policies: Policies, path: Path, trail: seq<Path>) returns (depth: nat)
    requires IsDescent(policies, trail + [path]) && path !in trail && !Loops(policies, (trail + [path])[0])
    ensures !LoadPolicy(policies, path, depth).Running?
    decreases policies.Keys - Elements(trail)
  {
    depth := 1;
    var call := LoaderCall(policies, path);
    if call.GoesTo? {
      var so := trail + [path];
      assert so[|trail|] == path && path in so;
      assert path in policies.Keys - Elements(trail) && path !in policies.Keys - Elements(so);
      var on := so + [call.base];
      assert IsDescent(policies, on);
      if call.base in so {
        var i :| 0 <= i < |so| && so[i] == call.base;
        assert IsLoop(policies, so[0], on, i, |so|);
        assert false;
      }
      var rest := EndsWithoutLoop(policies, call.base, so);
      depth := rest + 1;
    }
  }

  // The loader, which looks no further back than one policy, ends exactly when the chain has no loop.
  lemma LoadEndsExactly(policies: Policies, path: Path)
    ensures (exists depth :: !LoadPolicy(policies, path, depth).Running?) <==> !Loops(policies, path)
  {
    if Loops(policies, path) {
      var walk, i: nat, j: nat :| IsLoop(policies, path, walk, i, j);
      forall depth: nat
        ensures LoadPolicy(policies, path, depth).Running?
      {
        var longer := GoRound(policies, path, walk, i, j, depth);
        if !LoadPolicy(policies, path, depth).Running? {
          DescentIsShallow(policies, longer, depth);
          assert false;
        }
      }
    } else {
      assert [] + [path] == [path];
      var depth := EndsWithoutLoop(policies, path, []);
    }
  }

  // ---- what a loaded policy is

  // A chain of policies, each going on to the next, down to one without a base.
  predicate IsChain(policies: Policies, chain: seq<Path>) {
    chain != [] && IsDescent(policies, chain) && LoaderCall(policies, chain[|chain| - 1]).Leaf?
  }

  // The entries of a chain from its base up.
  function BaseFirst(policies: Policies, chain: seq<Path>): seq<Entry> {
    if chain == [] then []
    else BaseFirst(policies, chain[1..]) + (if chain[0] in policies then policies[chain[0]].entries else [])
  }

  // The version of the nearest policy that gives one.
  function NearestVersion(policies: Policies, chain: seq<Path>): Option<string> {
    if chain == [] then None
    else if chain[0] in policies && policies[chain[0]].version.Some? then policies[chain[0]].version
    else NearestVersion(policies, chain[1..])
  }

  ghost predicate GeneratedOnChain(policies: Policies, chain: seq<Path>, file: string) {
    exists i :: 0 <= i < |chain| && chain[i] in policies && file in policies[chain[i]].generated
  }

  // Loading a chain gives the entries of its policies, base first, the generated files of all of them
  // and the nearest version.
  lemma {:induction false} LoadedIsChain(policies: Policies, path: Path, depth: nat) returns (chain: seq<Path>)
    requires LoadPolicy(policies, path, depth).Loaded?
    ensures IsChain(policies, chain) && chain[0] == path
    ensures LoadPolicy(policies, path, depth).policy.entries == BaseFirst(policies, chain)
    ensures LoadPolicy(policies, path, depth).policy.version == NearestVersion(policies, chain)
    ensures forall file :: file in LoadPolicy(policies, path, depth).policy.generated <==>
                           GeneratedOnChain(policies, chain, file)
    decreases depth
  {
    match LoaderCall(policies, path) {
      case Leaf =>
        chain := [path];
        assert chain[1..] == [] && chain[0] == path;
      case GoesTo(base) =>
        var rest := LoadedIsChain(policies, base, depth - 1);
        chain := [path] + rest;
        assert chain[1..] == rest && chain[0] == path;
        GeneratedAbove(policies, path, rest);
        forall i | 0 <= i < |chain| - 1
          ensures LoaderCall(policies, chain[i]) == GoesTo(chain[i + 1])
        {
          if i > 0 {
            assert chain[i] == rest[i - 1] && chain[i + 1] == rest[i];
          }
        }
    }
  }

  lemma GeneratedAbove(policies: Policies, path: Path, rest: seq<Path>)
    requires path in policies
    ensures forall file :: GeneratedOnChain(policies, [path] + rest, file) <==>
                           file in policies[path].generated || GeneratedOnChain(policies, rest, file)
  {
    var chain := [path] + rest;
    forall file
      ensures GeneratedOnChain(policies, chain, file) <==>
              file in policies[path].generated || GeneratedOnChain(policies, rest, file)
    {
      if file in policies[path].generated {
        assert chain[0] == path;
      } else if GeneratedOnChain(policies, rest, file) {
        var i :| 0 <= i < |rest| && rest[i] in policies && file in policies[rest[i]].generated;
        assert chain[i + 1] == rest[i];
      }
    }
  }

  predicate StartsAt(chain: seq<Path>, path: Path) {
    chain != [] && chain[0] == path
  }

  // The policies a load goes through: each is known, its base is named explicitly, beside it or below,
  // and is the next, and the last has none.
  ghost predicate IsBaseChain(policies: Policies, chain: seq<Path>) {
    && chain != []
    && (forall i :: 0 <= i < |chain| ==> chain[i] in policies && policies[chain[i]].schemaKnown)
    && policies[chain[|chain| - 1]].base.None?
    && forall i :: 0 <= i < |chain| - 1 ==> IsBasedOn(policies, chain[i], chain[i + 1])
  }

  predicate IsBasedOn(policies: Policies, path: Path, base: Path)
    requires path in policies
  {
    policies[path].base.Some? &&
    var name := policies[path].base.value;
    !HasGlob(name.parts) && IsPlain(name) && base == Parent(path) + name.parts && base != path
  }

  lemma ChainExactly(policies: Policies, chain: seq<Path>)
    ensures IsChain(policies, chain) <==> IsBaseChain(policies, chain)
  {
    hide HasGlob, IsPlain;
    if IsChain(policies, chain) {
      forall i | 0 <= i < |chain|
        ensures chain[i] in policies && policies[chain[i]].schemaKnown
        ensures i < |chain| - 1 ==> IsBasedOn(policies, chain[i], chain[i + 1])
      {
        if i < |chain| - 1 {
          assert LoaderCall(policies, chain[i]) == GoesTo(chain[i + 1]);
        }
      }
    }
    if IsBaseChain(policies, chain) {
      forall i | 0 <= i < |chain| - 1
        ensures LoaderCall(policies, chain[i]) == GoesTo(chain[i + 1])
      {
        assert IsBasedOn(policies, chain[i], chain[i + 1]);
      }
    }
  }

  lemma {:induction false} ChainLoads(policies: Policies, chain: seq<Path>)
    requires IsChain(policies, chain)
    ensures LoadPolicy(policies, chain[0], |chain|).Loaded?
    decreases |chain|
  {
    hide LoaderCall;
    if |chain| > 1 {
      assert LoaderCall(policies, chain[0]) == GoesTo(chain[1]);
      assert forall i :: 0 <= i < |chain[1..]| ==> chain[1..][i] == chain[i + 1];
      ChainLoads(policies, chain[1..]);
    }
  }

  // A policy loads exactly when there is such a chain from it; what it loads as, LoadedIsChain says.
  lemma LoadsExactly(policies: Policies, path: Path)
    ensures (exists depth :: LoadPolicy(policies, path, depth).Loaded?) <==>
            exists chain :: IsBaseChain(policies, chain) && StartsAt(chain, path)
  {
    hide IsBaseChain, IsChain;
    if depth: nat :| LoadPolicy(policies, path, depth).Loaded? {
      var chain := LoadedIsChain(policies, path, depth);
      ChainExactly(policies, chain);
    }
    forall chain | IsBaseChain(policies, chain) && StartsAt(chain, path)
      ensures LoadPolicy(policies, path, |chain|).Loaded?
    {
      ChainExactly(policies, chain);
      ChainLoads(policies, chain);
    }
  }

  // ---- exactly which policies the walk accepts, and what it lists

  // An entry the walk can make sense of.
  ghost predicate IsListable(entry: Entry) {
    && !entry.UnknownEntry? && IsPlain(entry.source)
    && (entry.TreeEntry? ==> entry.included != [] && forall i :: 0 <= i < |entry.included| ==> IsPlain(entry.included[i]))
  }

  // What it lists for the entry: its source, or for a tree each file it includes.
  ghost predicate IsListedFor(entry: Entry, path: Path) {
    if entry.TreeEntry? then
      exists i :: 0 <= i < |entry.included| && path == entry.source.parts + entry.included[i].parts
    else path == entry.source.parts
  }

  ghost predicate AreListable(entries: seq<Entry>) {
    forall i :: 0 <= i < |entries| ==> IsListable(entries[i])
  }

  ghost predicate IsListedForSome(entries: seq<Entry>, path: Path) {
    exists i :: 0 <= i < |entries| && IsListedFor(entries[i], path)
  }

  // The policies from `path` down to one without a base: each is known, its entries make sense, and its
  // base resolves to the next, which has not come yet.
  ghost predicate IsTrail(root: Path, policies: Policies, trail: seq<Path>, seen: set<Path>) {
    && trail != [] && trail[0] in policies && trail[0] !in seen
    && policies[trail[0]].schemaKnown && AreListable(policies[trail[0]].entries)
    && match policies[trail[0]].base
       case None => |trail| == 1
       case Some(name) =>
         && |trail| > 1 && Relative(root, Parent(trail[0]), name) == Ok(trail[1])
         && IsTrail(root, policies, trail[1..], seen + {trail[0]})
  }

  ghost predicate IsOnTrail(policies: Policies, trail: seq<Path>, path: Path) {
    exists i :: 0 <= i < |trail| && trail[i] in policies &&
      (path == trail[i] || IsListedForSome(policies[trail[i]].entries, path))
  }

  lemma {:induction false} FilesExactly(source: Name, included: seq<Name>)
    ensures Files(source, included).Ok? <==> forall i :: 0 <= i < |included| ==> IsPlain(included[i])
    ensures Files(source, included).Ok? ==>
              forall path :: path in Files(source, included).value <==>
                exists i :: 0 <= i < |included| && path == source.parts + included[i].parts
    decreases |included|
  {
    hide IsPlain;
    if included != [] {
      var before, last := included[..|included| - 1], |included| - 1;
      FilesExactly(source, before);
      assert forall i :: 0 <= i < last ==> before[i] == included[i];
      if Files(source, included).Ok? {
        forall path
          ensures path in Files(source, included).value <==>
                  exists i :: 0 <= i < |included| && path == source.parts + included[i].parts
        {
          if path in Files(source, before).value {
            var i :| 0 <= i < |before| && path == source.parts + before[i].parts;
            assert path == source.parts + included[i].parts;
          }
          if i :| 0 <= i < |before| && path == source.parts + included[i].parts {
            assert path == source.parts + before[i].parts;
          }
        }
      }
    }
  }

  lemma EntryExactly(entry: Entry)
    ensures EntrySources(entry).Ok? <==> IsListable(entry)
    ensures EntrySources(entry).Ok? ==> forall path :: path in EntrySources(entry).value <==> IsListedFor(entry, path)
  {
    if entry.TreeEntry? {
      FilesExactly(entry.source, entry.included);
      hide Files;
    }
  }

  lemma {:induction false} EntriesExactly(entries: seq<Entry>)
    ensures EntriesSources(entries).Ok? <==> AreListable(entries)
    ensures EntriesSources(entries).Ok? ==>
              forall path :: path in EntriesSources(entries).value <==> IsListedForSome(entries, path)
    decreases |entries|
  {
    hide EntrySources, IsListable, IsListedFor;
    if entries != [] {
      var before, last := entries[..|entries| - 1], |entries| - 1;
      EntriesExactly(before);
      EntryExactly(entries[last]);
      assert forall i :: 0 <= i < last ==> before[i] == entries[i];
      if EntriesSources(entries).Ok? {
        forall path
          ensures IsListedForSome(entries, path) <==> IsListedForSome(before, path) || IsListedFor(entries[last], path)
        {
          if IsListedForSome(before, path) {
            var i :| 0 <= i < |before| && IsListedFor(before[i], path);
            assert IsListedFor(entries[i], path);
          }
        }
      }
    }
  }

  lemma TrailGoesOn(policies: Policies, trail: seq<Path>, path: Path)
    requires |trail| > 1 && trail[0] in policies
    ensures IsOnTrail(policies, trail, path) <==>
            path == trail[0] || IsListedForSome(policies[trail[0]].entries, path) || IsOnTrail(policies, trail[1..], path)
  {
    hide IsListedForSome;
    assert forall i :: 0 < i < |trail| ==> trail[1..][i - 1] == trail[i];
    if IsOnTrail(policies, trail[1..], path) {
      var i :| 0 <= i < |trail[1..]| && trail[1..][i] in policies &&
        (path == trail[1..][i] || IsListedForSome(policies[trail[1..][i]].entries, path));
      assert trail[i + 1] == trail[1..][i];
    }
  }

  // A trail is accepted, and what it passes is what is listed.
  lemma {:induction false} TrailAccepted(root: Path, policies: Policies, trail: seq<Path>, seen: set<Path>)
    requires IsTrail(root, policies, trail, seen)
    ensures var list := Listed(root, policies, Ok(trail[0]), seen);
            list.Ok? && forall path :: path in list.value <==> IsOnTrail(policies, trail, path)
    decreases |trail|
  {
    hide Relative, AreListable, IsListedForSome, EntriesSources;
    EntriesExactly(policies[trail[0]].entries);
    if |trail| > 1 {
      TrailAccepted(root, policies, trail[1..], seen + {trail[0]});
      forall path
        ensures IsOnTrail(policies, trail, path) <==>
                path == trail[0] || IsListedForSome(policies[trail[0]].entries, path) || IsOnTrail(policies, trail[1..], path)
      {
        TrailGoesOn(policies, trail, path);
      }
      hide IsOnTrail;
    }
  }

  lemma {:induction false} AcceptedHasTrail(root: Path, policies: Policies, path: Path, seen: set<Path>)
    returns (trail: seq<Path>)
    requires Listed(root, policies, Ok(path), seen).Ok?
    ensures trail != [] && trail[0] == path && IsTrail(root, policies, trail, seen)
    decreases policies.Keys - seen
  {
    hide Relative, AreListable, EntriesSources;
    var policy := policies[path];
    EntriesExactly(policy.entries);
    if policy.base.None? {
      trail := [path];
    } else {
      var base := Relative(root, Parent(path), policy.base.value);
      assert path in policies.Keys - seen && path !in policies.Keys - (seen + {path});
      var rest := AcceptedHasTrail(root, policies, base.value, seen + {path});
      trail := [path] + rest;
      assert trail[1..] == rest;
    }
  }

  // The walk accepts a policy exactly when there is such a trail from it, and then lists exactly the
  // policies on it and what their entries name.
  lemma ListedExactly(root: Path, policies: Policies, path: Path)
    ensures Listed(root, policies, Ok(path), {}).Ok? <==>
            exists trail :: IsTrail(root, policies, trail, {}) && StartsAt(trail, path)
    ensures forall trail :: IsTrail(root, policies, trail, {}) && StartsAt(trail, path) ==>
              forall file :: file in Listed(root, policies, Ok(path), {}).value <==> IsOnTrail(policies, trail, file)
  {
    hide Listed, IsTrail, IsOnTrail;
    if Listed(root, policies, Ok(path), {}).Ok? {
      var trail := AcceptedHasTrail(root, policies, path, {});
    }
    forall trail | IsTrail(root, policies, trail, {}) && StartsAt(trail, path)
      ensures Listed(root, policies, Ok(path), {}).Ok?
      ensures forall file :: file in Listed(root, policies, Ok(path), {}).value <==> IsOnTrail(policies, trail, file)
    {
      TrailAccepted(root, policies, trail, {});
    }
  }

  // ---- the list covers the loader

  ghost predicate Covers(sources: seq<Path>, entries: seq<Entry>) {
    forall i :: 0 <= i < |entries| ==> Covered(sources, entries[i])
  }

  ghost predicate Covered(sources: seq<Path>, entry: Entry) {
    EntrySources(entry).Ok? && forall path :: path in EntrySources(entry).value ==> path in sources
  }

  lemma {:induction false} EntriesCovered(entries: seq<Entry>)
    requires EntriesSources(entries).Ok?
    ensures Covers(EntriesSources(entries).value, entries)
    decreases |entries|
  {
    if entries != [] {
      var before := entries[..|entries| - 1];
      EntriesCovered(before);
      forall i | 0 <= i < |entries|
        ensures Covered(EntriesSources(entries).value, entries[i])
      {
        if i < |before| {
          assert entries[i] == before[i] && Covered(EntriesSources(before).value, before[i]);
        }
      }
    }
  }

  // Where the loader goes on to a base, the walk goes on to the same.
  lemma SameBase(root: Path, policies: Policies, path: Path)
    requires ".." !in root && ".." !in path && LoaderCall(policies, path).GoesTo?
    ensures var base := LoaderCall(policies, path).base;
            ".." !in base && Relative(root, Parent(path), policies[path].base.value) == Ok(base)
  {
    var name := policies[path].base.value;
    var base := Parent(path) + name.parts;
    var whole := root + Parent(path) + name.parts;
    assert ".." !in Parent(path);
    assert ".." !in whole;
    NormalKeepsPlain(whole);
    assert whole == root + base && whole[|root|..] == base;
  }

  // If the walk accepts a policy, loading it ends.
  lemma {:induction false} AcceptedEnds(root: Path, policies: Policies, path: Path, seen: set<Path>)
    returns (depth: nat)
    requires ".." !in root && ".." !in path && Listed(root, policies, Ok(path), seen).Ok?
    ensures !LoadPolicy(policies, path, depth).Running?
    decreases policies.Keys - seen
  {
    depth := 1;
    var call := LoaderCall(policies, path);
    if call.GoesTo? {
      SameBase(root, policies, path);
      assert path in policies.Keys - seen && path !in policies.Keys - (seen + {path});
      var rest := AcceptedEnds(root, policies, call.base, seen + {path});
      depth := rest + 1;
    }
  }

  lemma {:induction false} ChainCovered(root: Path, policies: Policies, chain: seq<Path>, seen: set<Path>)
    requires ".." !in root && IsChain(policies, chain) && ".." !in chain[0]
    requires Listed(root, policies, Ok(chain[0]), seen).Ok?
    ensures var sources := Listed(root, policies, Ok(chain[0]), seen).value;
            (forall path :: path in chain ==> path in sources) && Covers(sources, BaseFirst(policies, chain))
    decreases |chain|
  {
    var path := chain[0];
    var sources := Listed(root, policies, Ok(path), seen).value;
    EntriesCovered(policies[path].entries);
    assert forall p :: p in EntriesSources(policies[path].entries).value ==> p in sources;
    if |chain| > 1 {
      assert LoaderCall(policies, path) == GoesTo(chain[1]);
      SameBase(root, policies, path);
      ChainCovered(root, policies, chain[1..], seen + {path});
      var above := Listed(root, policies, Ok(chain[1]), seen + {path}).value;
      assert forall p :: p in above ==> p in sources;
      assert chain == [path] + chain[1..];
      CoversBoth(sources, above, BaseFirst(policies, chain[1..]), EntriesSources(policies[path].entries).value,
                 policies[path].entries);
    } else {
      assert BaseFirst(policies, chain[1..]) == [];
      CoversBoth(sources, [], [], EntriesSources(policies[path].entries).value, policies[path].entries);
    }
  }

  lemma CoversBoth(sources: seq<Path>, a: seq<Path>, first: seq<Entry>, b: seq<Path>, second: seq<Entry>)
    requires Covers(a, first) && Covers(b, second)
    requires forall p :: p in a || p in b ==> p in sources
    ensures Covers(sources, first + second)
  {
    hide EntrySources;
    forall i | 0 <= i < |first + second|
      ensures Covered(sources, (first + second)[i])
    {
      if i < |first| {
        assert Covered(a, first[i]);
      } else {
        assert Covered(b, second[i - |first|]);
      }
    }
  }

  // If the walk accepts a policy, loading it ends; and if it loads, the merged entries are those of a
  // chain of policies, base first, with every policy of the chain and every file the entries name in
  // the list.
  lemma ProvenanceCoversLoading(root: Path, policies: Policies, path: Path)
    requires ".." !in root && ".." !in path && Listed(root, policies, Ok(path), {}).Ok?
    ensures !Loops(policies, path)
    ensures forall depth :: LoadPolicy(policies, path, depth).Loaded? ==>
              var sources, policy := Listed(root, policies, Ok(path), {}).value, LoadPolicy(policies, path, depth).policy;
              && Covers(sources, policy.entries)
              && exists chain :: LoadedFrom(policies, path, chain, policy, sources)
  {
    var depth := AcceptedEnds(root, policies, path, {});
    LoadEndsExactly(policies, path);
    forall depth: nat | LoadPolicy(policies, path, depth).Loaded?
      ensures var sources, policy := Listed(root, policies, Ok(path), {}).value, LoadPolicy(policies, path, depth).policy;
              && Covers(sources, policy.entries)
              && exists chain :: LoadedFrom(policies, path, chain, policy, sources)
    {
      var chain := LoadedIsChain(policies, path, depth);
      ChainCovered(root, policies, chain, {});
      hide Listed, Covers, BaseFirst, LoadPolicy, IsChain;
      assert LoadedFrom(policies, path, chain, LoadPolicy(policies, path, depth).policy,
                        Listed(root, policies, Ok(path), {}).value);
    }
  }

  ghost predicate LoadedFrom(policies: Policies, path: Path, chain: seq<Path>, policy: Policy, sources: seq<Path>) {
    && IsChain(policies, chain) && chain[0] == path && policy.entries == BaseFirst(policies, chain)
    && (forall p :: p in chain ==> p in sources)
  }

  // Two policies based on each other: the loader never ends, and the walk refuses them.
  lemma TwoPolicyLoop(a: Policy, b: Policy)
    requires a.schemaKnown && a.base == Some(Name(false, ["b"])) && b.schemaKnown && b.base == Some(Name(false, ["a"]))
    ensures var policies := map[["p", "a"] := a, ["p", "b"] := b];
            && (forall depth :: LoadPolicy(policies, ["p", "a"], depth).Running?)
            && Listed([], policies, Ok(["p", "a"]), {}).Fail?
  {
    var policies := map[["p", "a"] := a, ["p", "b"] := b];
    assert !HasGlob(["a"]) && !HasGlob(["b"]);
    assert ["p", "a"][..1] == ["p"] && ["p", "b"][..1] == ["p"];
    assert ["p"] + ["b"] == ["p", "b"] && ["p"] + ["a"] == ["p", "a"];
    assert LoaderCall(policies, ["p", "a"]) == GoesTo(["p", "b"]);
    assert LoaderCall(policies, ["p", "b"]) == GoesTo(["p", "a"]);
    assert IsLoop(policies, ["p", "a"], [["p", "a"], ["p", "b"], ["p", "a"]], 0, 2);
    LoadEndsExactly(policies, ["p", "a"]);
    hide LoaderCall, LoadPolicy, Listed, Loops;
    if Listed([], policies, Ok(["p", "a"]), {}).Ok? {
      ProvenanceCoversLoading([], policies, ["p", "a"]);
      assert false;
    }
  }
}
