/** Assembling a delivery: the entries of a policy are copied, in order, from the repository and from
    archives in it to a new tree, and the tree is given a list of its own files. */
module Assembly {
  import opened Octets
  import opened Options
  import opened PolicyChain

  datatype Content = Content(data: seq<byte>, mode: nat)

  datatype MemberKind = PlainFile | Link | OtherKind

  // A member of an archive; `content` is missing where the archive cannot be read, and its mode is the
  // permission bits alone.
  datatype Member = Member(name: Name, kind: MemberKind, content: Option<Content>)

  // The repository: its regular files, its symbolic links, its directories, and what those of its
  // files that are archives hold.
  datatype Repository =
    Repository(files: map<Path, Content>, links: set<Path>, directories: set<Path>, archives: map<Path, seq<Member>>)

  datatype Stored = Copied(content: Content) | Allowlist(version: Option<string>, files: set<Path>, generated: set<string>)

  type Tree = map<Path, Stored>

  const ALLOWLIST: Path := ["release-allowlist.json"]

  // ---- placing a file

  // A directory of the tree is a proper prefix of the path of one of its files.
  ghost predicate IsDirectory(tree: Tree, path: Path) {
    exists file :: file in tree && path < file
  }

  ghost predicate Blocked(tree: Tree, path: Path) {
    exists file :: file in tree && file < path
  }

  // A file can go where nothing is in its way, or a file is that may be replaced.
  ghost predicate CanPut(tree: Tree, path: Path, replace: bool) {
    !Blocked(tree, path) && !IsDirectory(tree, path) && (path in tree ==> replace)
  }

  // A group of files fits a tree if each can go there and none is in another's way.
  ghost predicate Fits(tree: Tree, files: map<Path, Content>, replace: bool) {
    && (forall path :: path in files ==> CanPut(tree, path, replace))
    && (forall a, b :: a in files && b in files ==> !(a < b))
  }

  function Copies(files: map<Path, Content>): Tree {
    map path | path in files :: Copied(files[path])
  }

  // In whatever order the files of a group are placed, each fits exactly when the group does.
  lemma FitsNext(tree: Tree, placed: map<Path, Content>, all: map<Path, Content>, path: Path, replace: bool)
    requires Fits(tree, all, replace) && path in all && path !in placed
    requires forall p :: p in placed ==> p in all
    ensures CanPut(tree + Copies(placed), path, replace)
  {
  }

  lemma FitsMore(tree: Tree, placed: map<Path, Content>, path: Path, content: Content, replace: bool)
    requires Fits(tree, placed, replace) && path !in placed && CanPut(tree + Copies(placed), path, replace)
    ensures Fits(tree, placed[path := content], replace)
  {
    var more := tree + Copies(placed);
    assert CanPut(tree, path, replace) by {
      assert forall p :: p in tree ==> p in more;
    }
    forall p | p in placed
      ensures !(p < path) && !(path < p)
    {
      assert p in more;
    }
    hide CanPut;
  }

  lemma CopiesMore(tree: Tree, placed: map<Path, Content>, path: Path, content: Content)
    ensures (tree + Copies(placed))[path := Copied(content)] == tree + Copies(placed[path := content])
  {
  }

  // ---- what an entry asks for

  predicate HasLink(links: set<Path>, relative: Path) {
    exists i :: 0 < i <= |relative| && relative[..i] in links
  }

  predicate IsMetadataPart(part: string) {
    part == ".DS_Store" || "._" <= part
  }

  predicate IsMetadata(parts: Path) {
    exists i :: 0 <= i < |parts| && IsMetadataPart(parts[i])
  }

  predicate IsExplicit(name: Name) {
    !HasGlob(name.parts) && IsPlain(name)
  }

  // The paths an entry includes, if each is explicit, none is metadata and none comes twice.
  function Requested(included: seq<Name>): Option<set<Path>> {
    if included == [] then Some({})
    else
      var before, name := Requested(included[..|included| - 1]), included[|included| - 1];
      if before.None? || !IsExplicit(name) || name.parts in before.value || IsMetadata(name.parts) then None
      else Some(before.value + {name.parts})
  }

  // The files of a tree entry, by their target.
  function TreeFiles(repository: Repository, source: Path, target: Path, included: seq<Name>): Option<map<Path,
                     Content>> {
    if included == [] then Some(map[])
    else
      var before, path := TreeFiles(repository, source, target, included[..|included| - 1]),
                          source + included[|included| - 1].parts;
      if before.None? || HasLink(repository.links, path) || path !in repository.files then None
      else Some(before.value[target + included[|included| - 1].parts := repository.files[path]])
  }

  // The requested members of an archive, by their target: no member is a link or points outside, none
  // of those requested comes twice or cannot be read.
  function Scan(members: seq<Member>, root: Path, target: Path, requested: set<Path>): Option<map<Path, Content>> {
    if members == [] then Some(map[])
    else
      var before, member := Scan(members[..|members| - 1], root, target, requested), members[|members| - 1];
      if before.None? || member.kind.Link? || member.name.absolute || ".." in member.name.parts then None
      else if !member.kind.PlainFile? || !(root <= member.name.parts) || member.name.parts[|root|..] !in requested
      then before
      else
        var path := target + member.name.parts[|root|..];
        if path in before.value || member.content.None? then None
        else Some(before.value[path := member.content.value])
  }

  function EntryFiles(repository: Repository, entry: Entry): Option<map<Path, Content>> {
    if entry.UnknownEntry? || !IsPlain(entry.source) || HasLink(repository.links, entry.source.parts) ||
       !IsPlain(entry.target)
    then None
    else match entry
      case FileEntry(source, target, _) =>
        if source.parts in repository.files then Some(map[target.parts := repository.files[source.parts]]) else None
      case TreeEntry(source, target, included, _) =>
        if source.parts !in repository.directories || included == [] || Requested(included).None? then None
        else TreeFiles(repository, source.parts, target.parts, included)
      case ArchiveEntry(source, sourceRoot, target, included, _) =>
        if source.parts !in repository.files || source.parts !in repository.archives || sourceRoot.None? ||
           included == [] || Requested(included).None?
        then None
        else
          var requested := Requested(included).value;
          var found := Scan(repository.archives[source.parts], sourceRoot.value, target.parts, requested);
          if found.None? || (exists path :: path in requested && target.parts + path !in found.value) then None
          else found
  }

  predicate Replaces(entry: Entry) {
    !entry.UnknownEntry? && entry.replace
  }

  // The tree after some entries, if they all succeed.
  ghost function Built(repository: Repository, entries: seq<Entry>): Option<Tree> {
    if entries == [] then Some(map[])
    else
      var before, entry := Built(repository, entries[..|entries| - 1]), entries[|entries| - 1];
      var files := EntryFiles(repository, entry);
      if before.None? || files.None? || !Fits(before.value, files.value, Replaces(entry)) then None
      else Some(before.value + Copies(files.value))
  }

  ghost function Assembled(repository: Repository, policy: Policy): Option<Tree> {
    var built := Built(repository, policy.entries);
    if built.None? || IsDirectory(built.value, ALLOWLIST) then None
    else Some(built.value[ALLOWLIST :=
                            Allowlist(policy.version, built.value.Keys, policy.generated + {"release-allowlist.json"})])
  }

  // ---- the assembler's own code

  class Delivery {
    const repository: Repository
    var present: bool
    var tree: Tree
    var read: set<Path>

    // A delivery that does not exist has no files.
    ghost predicate Valid()
      reads this
    {
      present || tree == map[]
    }

    constructor (repository: Repository, existing: Option<Tree>)
      ensures Valid()
      ensures this.repository == repository && read == {}
      ensures present == existing.Some? && tree == (if existing.Some? then existing.value else map[])
    {
      this.repository := repository;
      present := existing.Some?;
      tree := if existing.Some? then existing.value else map[];
      read := {};
    }

    // Every prefix of the path is looked at, and none may be a symbolic link.
    method RepositorySource(relative: Path) returns (ok: bool)
      ensures ok <==> !HasLink(repository.links, relative)
    {
      for i := 0 to |relative|
        invariant forall k :: 0 < k <= i ==> relative[..k] !in repository.links
      {
        if relative[..i + 1] in repository.links {
          return false;
        }
      }
      return true;
    }

    // Making the parent directories fails on a file in the way; writing fails on a directory.
    method Put(path: Path, content: Content, replace: bool) returns (ok: bool)
      modifies this`tree
      ensures ok <==> CanPut(old(tree), path, replace)
      ensures tree == if ok then old(tree)[path := Copied(content)] else old(tree)
    {
      if (path in tree || exists file | file in tree.Keys :: path < file) && !replace {
        return false;
      }
      if exists file | file in tree.Keys :: file < path || path < file {
        return false;
      }
      tree := tree[path := Copied(content)];
      return true;
    }

    method CopyFile(source: Path, destination: Path, replace: bool) returns (ok: bool)
      modifies this`tree, this`read
      ensures ok <==>
              source !in repository.links && source in repository.files && CanPut(old(tree), destination, replace)
      ensures ok ==> tree == old(tree)[destination := Copied(repository.files[source])]
      ensures old(read) <= read <= old(read) + {source}
    {
      if source in repository.links || source !in repository.files {
        return false;
      }
      read := read + {source};
      ok := Put(destination, repository.files[source], replace);
    }

    // Requested, in a loop over a set of what has been seen.
    method RequestedPaths(included: seq<Name>) returns (requested: Option<set<Path>>)
      ensures requested == Requested(included)
    {
      var seen: set<Path> := {};
      for i := 0 to |included|
        invariant Requested(included[..i]) == Some(seen)
      {
        assert included[..i + 1][..i] == included[..i];
        if !IsExplicit(included[i]) || included[i].parts in seen || IsMetadata(included[i].parts) {
          RequestedStays(included, i + 1);
          return None;
        }
        seen := seen + {included[i].parts};
      }
      assert included[..|included|] == included;
      return Some(seen);
    }

    method CopyTree(source: Name, target: Name, included: seq<Name>, replace: bool) returns (ok: bool)
      modifies this`tree, this`read
      ensures var files := EntryFiles(repository, TreeEntry(source, target, included, replace));
              && (ok <==> files.Some? && Fits(old(tree), files.value, replace))
              && (ok ==> tree == old(tree) + Copies(files.value))
      ensures ReadsOnly(old(read), read, TreeEntry(source, target, included, replace))
    {
      if !IsPlain(source) {
        return false;
      }
      var linkFree := RepositorySource(source.parts);
      if !linkFree || !IsPlain(target) || source.parts !in repository.directories || included == [] {
        return false;
      }
      ok := CopyIncluded(source, target, included, replace);
    }

    method CopyIncluded(source: Name, target: Name, included: seq<Name>, replace: bool) returns (ok: bool)
      requires IsPlain(source) && included != []
      modifies this`tree, this`read
      ensures var files := TreeFiles(repository, source.parts, target.parts, included);
              && (ok <==> Requested(included).Some? && files.Some? && Fits(old(tree), files.value, replace))
              && (ok ==> tree == old(tree) + Copies(files.value))
      ensures ReadsOnly(old(read), read, TreeEntry(source, target, included, replace))
    {
      hide Fits, CanPut, Copies, HasLink, IsExplicit, IsMetadata, Names;
      var seen: set<Path> := {};
      ghost var placed: map<Path, Content> := map[];
      NothingPlaced(tree, replace);
      for i := 0 to |included|
        invariant Requested(included[..i]) == Some(seen)
        invariant TreeFiles(repository, source.parts, target.parts, included[..i]) == Some(placed)
        invariant forall path :: target.parts + path in placed ==> path in seen
        invariant tree == old(tree) + Copies(placed) && Fits(old(tree), placed, replace)
        invariant ReadsOnly(old(read), read, TreeEntry(source, target, included, replace))
      {
        assert included[..i + 1][..i] == included[..i];
        var relative := included[i].parts;
        RequestedStays(included, i + 1);
        TreeFilesStay(repository, source.parts, target.parts, included, i);
        TreeFilesStay(repository, source.parts, target.parts, included, i + 1);
        if !IsExplicit(included[i]) || relative in seen || IsMetadata(relative) {
          return false;
        }
        var linkFree := RepositorySource(source.parts + relative);
        if !linkFree {
          return false;
        }
        LinkFreeIsNoLink(repository.links, source.parts + relative);
        FileIncluded(source, target, included, replace, i);
        var path := target.parts + relative;
        ghost var before := tree;
        var copied := CopyFile(source.parts + relative, path, replace);
        if !copied {
          TreeStops(repository, source.parts, target.parts, included, i, placed, old(tree), replace);
          return false;
        }
        var content := repository.files[source.parts + relative];
        FitsMore(old(tree), placed, path, content, replace);
        CopiesMore(old(tree), placed, path, content);
        seen := seen + {relative};
        SameSuffix(target.parts, relative);
        placed := placed[path := content];
      }
      assert included[..|included|] == included;
      return true;
    }

    method CopyArchive(source: Name, sourceRoot: Option<Path>, target: Name, included: seq<Name>, replace: bool)
      returns (ok: bool)
      modifies this`tree, this`read
      ensures var files := EntryFiles(repository, ArchiveEntry(source, sourceRoot, target, included, replace));
              && (ok <==> files.Some? && Fits(old(tree), files.value, replace))
              && (ok ==> tree == old(tree) + Copies(files.value))
      ensures ReadsOnly(old(read), read, ArchiveEntry(source, sourceRoot, target, included, replace))
    {
      hide Fits, CanPut, Copies, HasLink, Scan, Requested;
      if !IsPlain(source) {
        return false;
      }
      var linkFree := RepositorySource(source.parts);
      if !linkFree || !IsPlain(target) || source.parts !in repository.files || sourceRoot.None? || included == [] {
        return false;
      }
      var requested := RequestedPaths(included);
      if requested.None? || source.parts !in repository.archives {
        return false;
      }
      read := read + {source.parts};
      var found;
      ghost var files;
      ok, found, files := CopyMembers(repository.archives[source.parts], sourceRoot.value, target.parts,
                                      requested.value, replace);
      if ok && exists path | path in requested.value :: path !in found {
        return false;
      }
    }

    method CopyMembers(members: seq<Member>, root: Path, target: Path, requested: set<Path>, replace: bool)
      returns (ok: bool, found: set<Path>, ghost placed: map<Path, Content>)
      modifies this`tree
      ensures var files := Scan(members, root, target, requested);
              && (ok <==> files.Some? && Fits(old(tree), files.value, replace))
              && (ok ==> tree == old(tree) + Copies(files.value) &&
                         forall path :: path in found <==> target + path in files.value)
    {
      hide Fits, CanPut, Copies;
      found, placed := {}, map[];
      NothingPlaced(tree, replace);
      for i := 0 to |members|
        invariant Scan(members[..i], root, target, requested) == Some(placed)
        invariant forall path :: path in found <==> target + path in placed
        invariant tree == old(tree) + Copies(placed) && Fits(old(tree), placed, replace)
      {
        assert members[..i + 1][..i] == members[..i];
        ScanStays(members, root, target, requested, i);
        ScanStays(members, root, target, requested, i + 1);
        var member := members[i];
        if member.kind.Link? || member.name.absolute || ".." in member.name.parts {
          return false, found, placed;
        }
        if !member.kind.PlainFile? || !(root <= member.name.parts) {
          continue;
        }
        var relative := member.name.parts[|root|..];
        if relative !in requested {
          continue;
        }
        if relative in found || member.content.None? {
          return false, found, placed;
        }
        var path := target + relative;
        var put := Put(path, member.content.value, replace);
        if !put {
          MemberStops(members, root, target, requested, i, placed, old(tree), replace);
          return false, found, placed;
        }
        FitsMore(old(tree), placed, path, member.content.value, replace);
        CopiesMore(old(tree), placed, path, member.content.value);
        SameSuffix(target, relative);
        placed := placed[path := member.content.value];
        found := found + {relative};
      }
      assert members[..|members|] == members;
      return true, found, placed;
    }

    method CopyEntry(entry: Entry) returns (ok: bool)
      modifies this`tree, this`read
      ensures var files := EntryFiles(repository, entry);
              && (ok <==> files.Some? && Fits(old(tree), files.value, Replaces(entry)))
              && (ok ==> tree == old(tree) + Copies(files.value))
      ensures ReadsOnly(old(read), read, entry)
    {
      hide Fits, CanPut, Copies, HasLink, Scan, Requested, TreeFiles;
      match entry {
        case FileEntry(source, target, replace) =>
          if !IsPlain(source) {
            return false;
          }
          var linkFree := RepositorySource(source.parts);
          if !linkFree || !IsPlain(target) {
            return false;
          }
          LinkFreeIsNoLink(repository.links, source.parts);
          ghost var before := tree;
          ok := CopyFile(source.parts, target.parts, replace);
          if source.parts in repository.files {
            OneFits(before, target.parts, repository.files[source.parts], replace);
          }
        case TreeEntry(source, target, included, replace) =>
          ok := CopyTree(source, target, included, replace);
        case ArchiveEntry(source, sourceRoot, target, included, replace) =>
          ok := CopyArchive(source, sourceRoot, target, included, replace);
        case UnknownEntry(_) =>
          ok := false;
      }
    }

    // The delivery exists afterwards exactly if it was built, or was there before; what a failed
    // assembly has copied is removed.  `depth` bounds the nesting of the policy.
    method Assemble(policies: Policies, allowlist: Path, depth: nat) returns (ok: bool)
      requires Valid()
      modifies this
      ensures var load := LoadPolicy(policies, allowlist, depth);
              ok <==> !old(present) && load.Loaded? && Assembled(repository, load.policy).Some?
      ensures Valid()
      ensures ok ==> present && Assembled(repository, LoadPolicy(policies, allowlist, depth).policy) == Some(tree)
      ensures var load := LoadPolicy(policies, allowlist, depth);
              ok <==> !old(present) && load.Loaded? && IsSound(repository, load.policy.entries) &&
                      forall path :: IsForSome(load.policy.entries, path) ==> !(ALLOWLIST < path)
      ensures ok ==> IsDelivery(repository, LoadPolicy(policies, allowlist, depth).policy, tree)
      ensures !ok ==> present == old(present) && tree == old(tree)
      ensures LoadPolicy(policies, allowlist, depth).Loaded? ==>
                forall path :: path in read ==>
                  path in old(read) || NamedBySome(LoadPolicy(policies, allowlist, depth).policy.entries, path)
      ensures !LoadPolicy(policies, allowlist, depth).Loaded? ==> read == old(read)
    {
      hide Fits, IsDirectory, Copies, EntryFiles, LoadPolicy, IsSound, IsForSome, IsDelivery;
      if present {
        return false;
      }
      var load := LoadPolicy(policies, allowlist, depth);
      if load.Loaded? {
        AssembledExactly(repository, load.policy);
      }
      if !load.Loaded? {
        return false;
      }
      present, tree := true, map[];
      var entries := load.policy.entries;
      for i := 0 to |entries|
        invariant Built(repository, entries[..i]) == Some(tree) && present
        invariant forall path :: path in read ==> path in old(read) || NamedBySome(entries, path)
      {
        assert entries[..i + 1][..i] == entries[..i];
        ghost var before := read;
        BuiltStays(repository, entries, i + 1);
        var copied := CopyEntry(entries[i]);
        ReadsNamed(before, read, entries, i);
        if !copied {
          present, tree := false, map[];
          return false;
        }
      }
      assert entries[..|entries|] == entries;
      if exists file | file in tree.Keys :: ALLOWLIST < file {
        assert IsDirectory(tree, ALLOWLIST) by { DirectoryExists(tree, ALLOWLIST); }
        present, tree := false, map[];
        return false;
      }
      assert !IsDirectory(tree, ALLOWLIST) by { DirectoryExists(tree, ALLOWLIST); }
      var files := tree.Keys;
      tree := tree[ALLOWLIST :=
                     Allowlist(load.policy.version, files, load.policy.generated + {"release-allowlist.json"})];
      return true;
    }
  }

  ghost predicate NamedBySome(entries: seq<Entry>, path: Path) {
    exists i :: 0 <= i < |entries| && Names(entries[i], path)
  }

  lemma ReadsNamed(before: set<Path>, after: set<Path>, entries: seq<Entry>, i: nat)
    requires i < |entries| && ReadsOnly(before, after, entries[i])
    ensures forall path :: path in after ==> path in before || NamedBySome(entries, path)
  {
    hide Names;
  }

  lemma DirectoryExists(tree: Tree, path: Path)
    ensures IsDirectory(tree, path) <==> exists file | file in tree.Keys :: path < file
  {
  }

  lemma OneFits(tree: Tree, path: Path, content: Content, replace: bool)
    ensures Fits(tree, map[path := content], replace) <==> CanPut(tree, path, replace)
    ensures tree[path := Copied(content)] == tree + Copies(map[path := content])
  {
    hide CanPut;
    var one := map[path := content];
    assert path in one;
  }

  lemma {:induction false} ScanStays(members: seq<Member>, root: Path, target: Path, requested: set<Path>, n: nat)
    requires n <= |members|
    ensures var some, all := Scan(members[..n], root, target, requested), Scan(members, root, target, requested);
            && (some.None? ==> all.None?)
            && (all.Some? ==> forall path :: path in some.value ==> path in all.value)
    decreases |members|
  {
    if n == |members| {
      assert members[..n] == members;
    } else {
      assert members[..|members| - 1][..n] == members[..n];
      ScanStays(members[..|members| - 1], root, target, requested, n);
    }
  }

  lemma MemberStops(members: seq<Member>, root: Path, target: Path, requested: set<Path>, i: nat,
                    placed: map<Path, Content>, tree: Tree, replace: bool)
    requires i < |members| && Scan(members[..i], root, target, requested) == Some(placed)
    requires members[i].kind.PlainFile? && root <= members[i].name.parts
    requires members[i].name.parts[|root|..] in requested
    requires target + members[i].name.parts[|root|..] !in placed
    requires !CanPut(tree + Copies(placed), target + members[i].name.parts[|root|..], replace)
    ensures var files := Scan(members, root, target, requested); files.None? || !Fits(tree, files.value, replace)
  {
    assert members[..i + 1][..i] == members[..i];
    ScanStays(members, root, target, requested, i);
    ScanStays(members, root, target, requested, i + 1);
    hide CanPut, Fits, Copies;
    var files := Scan(members, root, target, requested);
    if files.Some? && Fits(tree, files.value, replace) {
      FitsNext(tree, placed, files.value, target + members[i].name.parts[|root|..], replace);
      assert false;
    }
  }

  lemma {:induction false} BuiltStays(repository: Repository, entries: seq<Entry>, n: nat)
    requires n <= |entries|
    ensures Built(repository, entries[..n]).None? ==> Built(repository, entries).None?
    decreases |entries|
  {
    if n == |entries| {
      assert entries[..n] == entries;
    } else {
      assert entries[..|entries| - 1][..n] == entries[..n];
      BuiltStays(repository, entries[..|entries| - 1], n);
    }
  }

  // A file of the repository that an entry names well: its source, or one its tree includes.
  ghost predicate Names(entry: Entry, path: Path) {
    IsPlain(entry.source) &&
    match entry
    case FileEntry(source, _, _) => path == source.parts
    case ArchiveEntry(source, _, _, _, _) => path == source.parts
    case TreeEntry(source, _, included, _) =>
      exists i :: 0 <= i < |included| && IsExplicit(included[i]) && path == source.parts + included[i].parts
    case UnknownEntry(_) => false
  }

  ghost predicate ReadsOnly(before: set<Path>, after: set<Path>, entry: Entry) {
    forall path :: path in after ==> path in before || Names(entry, path)
  }

  lemma NothingPlaced(tree: Tree, replace: bool)
    ensures Fits(tree, map[], replace) && tree + Copies(map[]) == tree
  {
  }

  lemma LinkFreeIsNoLink(links: set<Path>, relative: Path)
    requires !HasLink(links, relative) && relative != []
    ensures relative !in links
  {
    assert relative[..|relative|] == relative;
  }

  lemma SameSuffix(target: Path, relative: Path)
    ensures forall path :: target + path == target + relative ==> path == relative
  {
    forall path | target + path == target + relative
      ensures path == relative
    {
      assert path == (target + path)[|target|..] && relative == (target + relative)[|target|..];
    }
  }

  lemma {:induction false} RequestedStays(included: seq<Name>, n: nat)
    requires n <= |included|
    ensures Requested(included[..n]).None? ==> Requested(included).None?
    decreases |included|
  {
    if n == |included| {
      assert included[..n] == included;
    } else {
      assert included[..|included| - 1][..n] == included[..n];
      RequestedStays(included[..|included| - 1], n);
    }
  }

  lemma {:induction false} TreeFilesStay(repository: Repository, source: Path, target: Path, included: seq<Name>,
                                         n: nat)
    requires n <= |included|
    ensures var some, all := TreeFiles(repository, source, target, included[..n]),
                             TreeFiles(repository, source, target, included);
            && (some.None? ==> all.None?)
            && (all.Some? ==> forall path :: path in some.value ==> path in all.value)
    decreases |included|
  {
    if n == |included| {
      assert included[..n] == included;
    } else {
      assert included[..|included| - 1][..n] == included[..n];
      TreeFilesStay(repository, source, target, included[..|included| - 1], n);
    }
  }

  lemma FileIncluded(source: Name, target: Name, included: seq<Name>, replace: bool, i: nat)
    requires i < |included| && IsPlain(source) && IsExplicit(included[i])
    ensures Names(TreeEntry(source, target, included, replace), source.parts + included[i].parts)
  {
  }

  lemma {:induction false} FilesHave(source: Name, included: seq<Name>, i: nat)
    requires i < |included|
    ensures Files(source, included).Ok? ==> source.parts + included[i].parts in Files(source, included).value
    decreases |included|
  {
    if i < |included| - 1 {
      FilesHave(source, included[..|included| - 1], i);
    }
  }

  // A file that cannot be placed now could not be placed with the whole entry.
  lemma TreeStops(repository: Repository, source: Path, target: Path, included: seq<Name>, i: nat,
                  placed: map<Path, Content>, tree: Tree, replace: bool)
    requires i < |included| && TreeFiles(repository, source, target, included[..i]) == Some(placed)
    requires target + included[i].parts !in placed
    requires !HasLink(repository.links, source + included[i].parts)
    requires source + included[i].parts !in repository.files ||
             !CanPut(tree + Copies(placed), target + included[i].parts, replace)
    ensures var files := TreeFiles(repository, source, target, included);
            files.None? || !Fits(tree, files.value, replace)
  {
    assert included[..i + 1][..i] == included[..i];
    TreeFilesStay(repository, source, target, included, i);
    TreeFilesStay(repository, source, target, included, i + 1);
    hide CanPut, Fits, HasLink, Copies;
    var files := TreeFiles(repository, source, target, included);
    if files.Some? && Fits(tree, files.value, replace) {
      FitsNext(tree, placed, files.value, target + included[i].parts, replace);
      assert false;
    }
  }

  // ---- what an assembled delivery is

  ghost predicate Asks(repository: Repository, entry: Entry, path: Path) {
    EntryFiles(repository, entry).Some? && path in EntryFiles(repository, entry).value
  }

  // No later entry asks for the path.
  ghost predicate IsLast(repository: Repository, entries: seq<Entry>, i: nat, path: Path) {
    && i < |entries| && Asks(repository, entries[i], path)
    && forall j :: i < j < |entries| ==> !Asks(repository, entries[j], path)
  }

  // The tree has exactly the paths the entries ask for, each with what the last entry asking for it
  // gives, and no file lies where another needs a directory.
  ghost predicate IsResult(repository: Repository, entries: seq<Entry>, tree: Tree) {
    && (forall path :: path in tree <==> exists i :: 0 <= i < |entries| && Asks(repository, entries[i], path))
    && (forall i: nat, path :: IsLast(repository, entries, i, path) ==>
          path in tree && tree[path] == Copied(EntryFiles(repository, entries[i]).value[path]))
    && (forall a, b :: a in tree && b in tree ==> !(a < b))
  }

  // An entry that does not replace asks for nothing an earlier one asked for.
  ghost predicate OverwritesOpenly(repository: Repository, entries: seq<Entry>) {
    forall i, j, path ::
      0 <= i < j < |entries| && Asks(repository, entries[i], path) && Asks(repository, entries[j], path) ==>
        Replaces(entries[j])
  }

  lemma OneMoreEntry(repository: Repository, before: seq<Entry>, entry: Entry, tree: Tree)
    requires IsResult(repository, before, tree) && OverwritesOpenly(repository, before)
    requires EntryFiles(repository, entry).Some?
    requires Fits(tree, EntryFiles(repository, entry).value, Replaces(entry))
    ensures OverwritesOpenly(repository, before + [entry])
  {
    hide EntryFiles;
    var entries := before + [entry];
    forall i, j, path | 0 <= i < j < |entries| && Asks(repository, entries[i], path) && Asks(repository, entries[j], path)
      ensures Replaces(entries[j])
    {
      assert entries[i] == before[i];
      if j == |before| {
        assert path in tree && CanPut(tree, path, Replaces(entry));
      } else {
        assert entries[j] == before[j];
      }
    }
  }

  lemma KeysGrow(repository: Repository, before: seq<Entry>, entry: Entry, tree: Tree)
    requires IsResult(repository, before, tree) && EntryFiles(repository, entry).Some?
    ensures var after := tree + Copies(EntryFiles(repository, entry).value);
            forall path :: path in after <==>
              exists i :: 0 <= i < |before + [entry]| && Asks(repository, (before + [entry])[i], path)
  {
    hide EntryFiles;
    var entries, after := before + [entry], tree + Copies(EntryFiles(repository, entry).value);
    forall path
      ensures path in after <==> exists i :: 0 <= i < |entries| && Asks(repository, entries[i], path)
    {
      if Asks(repository, entry, path) {
        assert entries[|before|] == entry;
      } else if path in tree {
        var i :| 0 <= i < |before| && Asks(repository, before[i], path);
        assert entries[i] == before[i];
      }
    }
  }

  lemma LastGrows(repository: Repository, before: seq<Entry>, entry: Entry, tree: Tree, i: nat, path: Path)
    requires IsResult(repository, before, tree) && EntryFiles(repository, entry).Some?
    requires IsLast(repository, before + [entry], i, path)
    ensures var after := tree + Copies(EntryFiles(repository, entry).value);
            path in after && after[path] == Copied(EntryFiles(repository, (before + [entry])[i]).value[path])
  {
    hide EntryFiles;
    var entries := before + [entry];
    assert entries[|before|] == entry;
    if i < |before| {
      assert !Asks(repository, entry, path) && entries[i] == before[i];
      assert forall j :: i < j < |before| ==> entries[j] == before[j];
      assert IsLast(repository, before, i, path);
    }
  }

  lemma ResultGrows(repository: Repository, before: seq<Entry>, entry: Entry, tree: Tree)
    requires IsResult(repository, before, tree) && EntryFiles(repository, entry).Some?
    requires Fits(tree, EntryFiles(repository, entry).value, Replaces(entry))
    ensures IsResult(repository, before + [entry], tree + Copies(EntryFiles(repository, entry).value))
  {
    var entries, files := before + [entry], EntryFiles(repository, entry).value;
    var after := tree + Copies(files);
    KeysGrow(repository, before, entry, tree);
    StaysFlat(tree, files, Replaces(entry));
    forall i: nat, path | IsLast(repository, entries, i, path)
      ensures path in after && after[path] == Copied(EntryFiles(repository, entries[i]).value[path])
    {
      LastGrows(repository, before, entry, tree, i, path);
    }
    hide EntryFiles, Fits, Copies, Asks;
  }

  // A successful build gives every requested path its last content, and overwrites only where an entry
  // says it replaces.
  lemma {:induction false} BuiltIsResult(repository: Repository, entries: seq<Entry>)
    requires Built(repository, entries).Some?
    ensures IsResult(repository, entries, Built(repository, entries).value) && OverwritesOpenly(repository, entries)
    decreases |entries|
  {
    if entries == [] {
    } else {
      hide EntryFiles, Fits, IsResult, OverwritesOpenly, Copies;
      var before, entry := entries[..|entries| - 1], entries[|entries| - 1];
      BuiltIsResult(repository, before);
      var tree := Built(repository, before).value;
      assert before + [entry] == entries;
      OneMoreEntry(repository, before, entry, tree);
      ResultGrows(repository, before, entry, tree);
    }
  }

  lemma StaysFlat(tree: Tree, files: map<Path, Content>, replace: bool)
    requires (forall a, b :: a in tree && b in tree ==> !(a < b)) && Fits(tree, files, replace)
    ensures forall a, b :: a in tree + Copies(files) && b in tree + Copies(files) ==> !(a < b)
  {
    forall a, b | a in tree + Copies(files) && b in tree + Copies(files)
      ensures !(a < b)
    {
      if a in files {
        assert CanPut(tree, a, replace);
      }
      if b in files {
        assert CanPut(tree, b, replace);
      }
    }
  }

  // ---- archives

  predicate IsMember(member: Member, root: Path, relative: Path) {
    member.kind.PlainFile? && member.name.parts == root + relative
  }

  // Exactly one member is the requested file.
  ghost predicate FoundOnce(members: seq<Member>, root: Path, relative: Path, content: Content) {
    exists i :: 0 <= i < |members| && IsMember(members[i], root, relative) && members[i].content == Some(content)
      && forall j :: 0 <= j < |members| && IsMember(members[j], root, relative) ==> j == i
  }

  ghost predicate Absent(members: seq<Member>, root: Path, relative: Path) {
    forall i :: 0 <= i < |members| ==> !IsMember(members[i], root, relative)
  }

  lemma OnceMore(before: seq<Member>, member: Member, root: Path, relative: Path)
    ensures IsMember(member, root, relative) && Absent(before, root, relative) && member.content.Some? ==>
              FoundOnce(before + [member], root, relative, member.content.value)
    ensures !IsMember(member, root, relative) ==>
              && (Absent(before, root, relative) ==> Absent(before + [member], root, relative))
              && (forall content :: FoundOnce(before, root, relative, content) ==>
                    FoundOnce(before + [member], root, relative, content))
  {
    hide IsMember;
    var members := before + [member];
    assert members[|before|] == member && forall i :: 0 <= i < |before| ==> members[i] == before[i];
  }

  // The scan of an archive finds what is asked for, each exactly once; what it does not find is not
  // there.
  lemma {:induction false} ScanFindsOnce(members: seq<Member>, root: Path, target: Path, requested: set<Path>,
                                         relative: Path)
    requires Scan(members, root, target, requested).Some? && relative in requested
    ensures var found := Scan(members, root, target, requested).value;
            if target + relative in found then FoundOnce(members, root, relative, found[target + relative])
            else Absent(members, root, relative)
    decreases |members|
  {
    if members != [] {
      var before, member := members[..|members| - 1], members[|members| - 1];
      ScanFindsOnce(before, root, target, requested, relative);
      assert before + [member] == members;
      OnceMore(before, member, root, relative);
      hide FoundOnce, Absent;
      if IsMember(member, root, relative) {
        assert member.name.parts[|root|..] == relative;
      } else {
        ScanPasses(members, root, target, requested, relative);
      }
    }
  }

  // A member that is not the requested file leaves it as it was.
  lemma ScanPasses(members: seq<Member>, root: Path, target: Path, requested: set<Path>, relative: Path)
    requires members != [] && !IsMember(members[|members| - 1], root, relative)
    requires Scan(members, root, target, requested).Some?
    ensures var earlier, found := Scan(members[..|members| - 1], root, target, requested).value,
                                  Scan(members, root, target, requested).value;
            && (target + relative in found <==> target + relative in earlier)
            && (target + relative in found ==> found[target + relative] == earlier[target + relative])
  {
    var member := members[|members| - 1];
    if member.kind.PlainFile? && root <= member.name.parts {
      SameSuffix(target, member.name.parts[|root|..]);
      assert member.name.parts == root + member.name.parts[|root|..];
    }
  }

  // Every file an archive entry includes is in its archive exactly once, and is what the entry gives.
  lemma ArchiveFindsAll(repository: Repository, entry: Entry, relative: Path)
    requires entry.ArchiveEntry? && EntryFiles(repository, entry).Some? && relative in Requested(entry.included).value
    ensures var files := EntryFiles(repository, entry).value;
            && entry.target.parts + relative in files
            && FoundOnce(repository.archives[entry.source.parts], entry.sourceRoot.value, relative,
                         files[entry.target.parts + relative])
  {
    ScanFindsOnce(repository.archives[entry.source.parts], entry.sourceRoot.value, entry.target.parts,
                  Requested(entry.included).value, relative);
    hide HasLink, Requested, Scan;
  }

  lemma {:induction false} ScanFindsOnly(members: seq<Member>, root: Path, target: Path, requested: set<Path>,
                                         path: Path)
    requires Scan(members, root, target, requested).Some? && path in Scan(members, root, target, requested).value
    ensures exists relative :: relative in requested && path == target + relative
    decreases |members|
  {
    if members != [] {
      var before, member := members[..|members| - 1], members[|members| - 1];
      if path in Scan(before, root, target, requested).value {
        ScanFindsOnly(before, root, target, requested, path);
      } else {
        assert member.name.parts[|root|..] in requested && path == target + member.name.parts[|root|..];
      }
    }
  }

  lemma {:induction false} TreeCopiesEach(repository: Repository, source: Path, target: Path, included: seq<Name>,
                                          path: Path)
    requires TreeFiles(repository, source, target, included).Some? && Requested(included).Some?
    ensures var files := TreeFiles(repository, source, target, included).value;
            && (path in files <==> exists relative :: relative in Requested(included).value && path == target + relative)
            && (forall relative :: relative in Requested(included).value ==>
                  source + relative in repository.files && target + relative in files
                  && files[target + relative] == repository.files[source + relative])
    decreases |included|
  {
    if included != [] {
      var before, last := included[..|included| - 1], included[|included| - 1].parts;
      TreeCopiesEach(repository, source, target, before, path);
      SameSuffix(target, last);
      hide HasLink, IsExplicit, IsMetadata;
    }
  }

  // An entry asks for exactly its target, or its target with each path it includes; a tree gives each
  // the file of the same path under its source.
  lemma EntryAsksExactly(repository: Repository, entry: Entry, path: Path)
    requires EntryFiles(repository, entry).Some?
    ensures Asks(repository, entry, path) <==>
            if entry.FileEntry? then path == entry.target.parts
            else exists relative :: relative in Requested(entry.included).value && path == entry.target.parts + relative
    ensures entry.TreeEntry? ==>
              forall relative :: relative in Requested(entry.included).value ==>
                && entry.source.parts + relative in repository.files
                && Asks(repository, entry, entry.target.parts + relative)
                && EntryFiles(repository, entry).value[entry.target.parts + relative] ==
                   repository.files[entry.source.parts + relative]
  {
    if entry.TreeEntry? {
      TreeCopiesEach(repository, entry.source.parts, entry.target.parts, entry.included, path);
    } else if entry.ArchiveEntry? {
      if Asks(repository, entry, path) {
        ScanFindsOnly(repository.archives[entry.source.parts], entry.sourceRoot.value, entry.target.parts,
                      Requested(entry.included).value, path);
      }
    }
    hide HasLink, Requested, Scan, TreeFiles;
  }

  // ---- what an entry asks for, said of the entry and the repository alone

  // Each included path is explicit, none is metadata, none comes twice, and there is at least one.
  ghost predicate IncludesWell(included: seq<Name>) {
    && included != []
    && (forall i :: 0 <= i < |included| ==> IsExplicit(included[i]) && !IsMetadata(included[i].parts))
    && forall i, j :: 0 <= i < j < |included| ==> included[i].parts != included[j].parts
  }

  ghost predicate Includes(included: seq<Name>, relative: Path) {
    exists i :: 0 <= i < |included| && included[i].parts == relative
  }

  predicate IsSafe(member: Member) {
    !member.kind.Link? && !member.name.absolute && ".." !in member.name.parts
  }

  // No member of the archive is a link or points outside it.
  predicate AllSafe(members: seq<Member>) {
    forall i :: 0 <= i < |members| ==> IsSafe(members[i])
  }

  // The entry is in order, whatever the tree it goes to.
  ghost predicate IsGood(repository: Repository, entry: Entry) {
    && !entry.UnknownEntry? && IsPlain(entry.source) && IsPlain(entry.target)
    && !HasLink(repository.links, entry.source.parts)
    && match entry
       case FileEntry(source, _, _) => source.parts in repository.files
       case TreeEntry(source, _, included, _) =>
         && source.parts in repository.directories && IncludesWell(included)
         && forall i :: 0 <= i < |included| ==> IsSource(repository, source.parts + included[i].parts)
       case ArchiveEntry(source, sourceRoot, _, included, _) =>
         && source.parts in repository.files && source.parts in repository.archives && sourceRoot.Some?
         && IncludesWell(included) && AllSafe(repository.archives[source.parts])
         && forall i :: 0 <= i < |included| ==>
              HasOnce(repository.archives[source.parts], sourceRoot.value, included[i].parts)
  }

  predicate IsSource(repository: Repository, path: Path) {
    path in repository.files && !HasLink(repository.links, path)
  }

  ghost predicate HasOnce(members: seq<Member>, root: Path, relative: Path) {
    exists content :: FoundOnce(members, root, relative, content)
  }

  // The paths of the delivery an entry is for.
  ghost predicate IsFor(entry: Entry, path: Path) {
    match entry
    case FileEntry(_, target, _) => path == target.parts
    case TreeEntry(_, target, included, _) => exists relative :: Includes(included, relative) && path == target.parts + relative
    case ArchiveEntry(_, _, target, included, _) =>
      exists relative :: Includes(included, relative) && path == target.parts + relative
    case UnknownEntry(_) => false
  }

  // What it gives each of them: the file of the repository it names, the file of the same path under the
  // source of a tree, or the one member of the archive.
  ghost predicate Gives(repository: Repository, entry: Entry, path: Path, content: Content) {
    match entry
    case FileEntry(source, target, _) =>
      path == target.parts && source.parts in repository.files && content == repository.files[source.parts]
    case TreeEntry(source, target, included, _) =>
      exists relative :: Includes(included, relative) && path == target.parts + relative &&
        source.parts + relative in repository.files && content == repository.files[source.parts + relative]
    case ArchiveEntry(source, sourceRoot, target, included, _) =>
      source.parts in repository.archives && sourceRoot.Some? &&
      exists relative :: Includes(included, relative) && path == target.parts + relative &&
        FoundOnce(repository.archives[source.parts], sourceRoot.value, relative, content)
    case UnknownEntry(_) => false
  }

  ghost predicate NoneTwice(included: seq<Name>) {
    && (forall i :: 0 <= i < |included| ==> IsExplicit(included[i]) && !IsMetadata(included[i].parts))
    && forall i, j :: 0 <= i < j < |included| ==> included[i].parts != included[j].parts
  }

  lemma {:induction false} RequestedExactly(included: seq<Name>)
    ensures Requested(included).Some? <==> NoneTwice(included)
    ensures Requested(included).Some? ==>
              forall relative :: relative in Requested(included).value <==> Includes(included, relative)
    decreases |included|
  {
    hide IsExplicit, IsMetadata;
    if included != [] {
      var before, last := included[..|included| - 1], |included| - 1;
      RequestedExactly(before);
      assert forall i :: 0 <= i < last ==> before[i] == included[i];
      assert included[last].parts == included[last].parts;
      if Requested(before).Some? {
        assert included[last].parts in Requested(before).value <==> Includes(before, included[last].parts);
        forall relative
          ensures Includes(included, relative) <==> Includes(before, relative) || relative == included[last].parts
        {
          if Includes(before, relative) {
            var i :| 0 <= i < |before| && before[i].parts == relative;
            assert included[i].parts == relative;
          }
        }
      }
    }
  }

  lemma {:induction false} TreeExactly(repository: Repository, source: Path, target: Path, included: seq<Name>)
    ensures TreeFiles(repository, source, target, included).Some? <==>
            forall i :: 0 <= i < |included| ==> IsSource(repository, source + included[i].parts)
    decreases |included|
  {
    hide HasLink;
    if included != [] {
      var before, last := included[..|included| - 1], |included| - 1;
      TreeExactly(repository, source, target, before);
      assert forall i :: 0 <= i < last ==> before[i] == included[i];
    }
  }

  // No two members are the file, and it can be read.
  ghost predicate AtMostOnce(members: seq<Member>, root: Path, relative: Path) {
    forall i :: 0 <= i < |members| && IsMember(members[i], root, relative) ==>
      members[i].content.Some? && forall j :: 0 <= j < i ==> !IsMember(members[j], root, relative)
  }

  lemma OneMoreMember(before: seq<Member>, member: Member, root: Path, relative: Path)
    ensures AtMostOnce(before + [member], root, relative) <==>
            && AtMostOnce(before, root, relative)
            && (IsMember(member, root, relative) ==> member.content.Some? && Absent(before, root, relative))
    ensures AllSafe(before + [member]) <==> AllSafe(before) && IsSafe(member)
  {
    hide IsMember, IsSafe;
    var members := before + [member];
    assert members[|before|] == member && forall i :: 0 <= i < |before| ==> members[i] == before[i];
  }

  lemma SuffixIsMember(member: Member, root: Path, relative: Path)
    ensures IsMember(member, root, relative) <==>
            member.kind.PlainFile? && root <= member.name.parts && member.name.parts[|root|..] == relative
  {
    if root <= member.name.parts {
      assert member.name.parts == root + member.name.parts[|root|..];
    }
  }

  lemma FoundIsThere(members: seq<Member>, root: Path, relative: Path, content: Content)
    requires FoundOnce(members, root, relative, content)
    ensures !Absent(members, root, relative)
  {
  }

  lemma {:induction false} ScanExactly(members: seq<Member>, root: Path, target: Path, requested: set<Path>)
    ensures Scan(members, root, target, requested).Some? <==>
            AllSafe(members) && forall relative :: relative in requested ==> AtMostOnce(members, root, relative)
    decreases |members|
  {
    if members != [] {
      var before, member := members[..|members| - 1], members[|members| - 1];
      assert before + [member] == members;
      ScanExactly(before, root, target, requested);
      hide AllSafe, AtMostOnce, IsMember, Absent, FoundOnce;
      forall relative
        ensures AtMostOnce(members, root, relative) <==>
                && AtMostOnce(before, root, relative)
                && (IsMember(member, root, relative) ==> member.content.Some? && Absent(before, root, relative))
        ensures AllSafe(members) <==> AllSafe(before) && IsSafe(member)
        ensures IsMember(member, root, relative) <==>
                member.kind.PlainFile? && root <= member.name.parts && member.name.parts[|root|..] == relative
      {
        OneMoreMember(before, member, root, relative);
        SuffixIsMember(member, root, relative);
      }
      if Scan(before, root, target, requested).Some? && root <= member.name.parts {
        var relative := member.name.parts[|root|..];
        if relative in requested {
          ScanFindsOnce(before, root, target, requested, relative);
          if target + relative in Scan(before, root, target, requested).value {
            FoundIsThere(before, root, relative, Scan(before, root, target, requested).value[target + relative]);
          }
        }
      }
    }
  }

  lemma OnceIsAtMost(members: seq<Member>, root: Path, relative: Path, content: Content)
    requires FoundOnce(members, root, relative, content)
    ensures AtMostOnce(members, root, relative)
  {
    hide IsMember;
  }

  // What an archive entry finds, if its archive is in order.
  lemma ArchiveExactly(members: seq<Member>, root: Path, target: Path, included: seq<Name>)
    requires Requested(included).Some?
    ensures var requested := Requested(included).value;
            var found := Scan(members, root, target, requested);
            (found.Some? && forall relative :: relative in requested ==> target + relative in found.value) <==>
            AllSafe(members) && forall i :: 0 <= i < |included| ==> HasOnce(members, root, included[i].parts)
  {
    hide AllSafe, AtMostOnce, FoundOnce, Scan, Requested, IsMember;
    var requested := Requested(included).value;
    var found := Scan(members, root, target, requested);
    RequestedExactly(included);
    ScanExactly(members, root, target, requested);
    if found.Some? {
      forall relative | relative in requested
        ensures target + relative in found.value <==> HasOnce(members, root, relative)
      {
        FoundIffOnce(members, root, target, requested, relative);
      }
      forall i | 0 <= i < |included|
        ensures included[i].parts in requested
      {
        assert Includes(included, included[i].parts);
      }
      forall relative | relative in requested && forall i :: 0 <= i < |included| ==> HasOnce(members, root, included[i].parts)
        ensures HasOnce(members, root, relative)
      {
        assert Includes(included, relative);
      }
    } else if AllSafe(members) && forall i :: 0 <= i < |included| ==> HasOnce(members, root, included[i].parts) {
      forall relative | relative in requested
        ensures AtMostOnce(members, root, relative)
      {
        assert Includes(included, relative);
        var i :| 0 <= i < |included| && included[i].parts == relative;
        assert HasOnce(members, root, included[i].parts);
        var content :| FoundOnce(members, root, relative, content);
        OnceIsAtMost(members, root, relative, content);
      }
      assert false;
    }
  }

  lemma FoundIffOnce(members: seq<Member>, root: Path, target: Path, requested: set<Path>, relative: Path)
    requires Scan(members, root, target, requested).Some? && relative in requested
    ensures var found := Scan(members, root, target, requested).value;
            && (target + relative in found <==> HasOnce(members, root, relative))
            && (target + relative in found ==> FoundOnce(members, root, relative, found[target + relative]))
  {
    ScanFindsOnce(members, root, target, requested, relative);
    hide Scan, FoundOnce, Absent;
    forall content | FoundOnce(members, root, relative, content)
      ensures !Absent(members, root, relative)
    {
      FoundIsThere(members, root, relative, content);
    }
  }

  // An entry succeeds on its own exactly when it is in order.
  lemma EntryGoodExactly(repository: Repository, entry: Entry)
    ensures EntryFiles(repository, entry).Some? <==> IsGood(repository, entry)
  {
    hide HasLink, TreeFiles, Scan, Requested, IsSource, AllSafe, HasOnce, IsExplicit, IsMetadata;
    match entry {
      case FileEntry(_, _, _) =>
      case TreeEntry(source, target, included, _) =>
        RequestedExactly(included);
        TreeExactly(repository, source.parts, target.parts, included);
      case ArchiveEntry(source, sourceRoot, target, included, _) =>
        RequestedExactly(included);
        if source.parts in repository.archives && sourceRoot.Some? && Requested(included).Some? {
          ArchiveExactly(repository.archives[source.parts], sourceRoot.value, target.parts, included);
        }
      case UnknownEntry(_) =>
    }
  }

  // What an entry in order asks for is what it is for, and what it gets is what it gives.
  lemma EntryGives(repository: Repository, entry: Entry, path: Path)
    requires EntryFiles(repository, entry).Some?
    ensures Asks(repository, entry, path) <==> IsFor(entry, path)
    ensures Asks(repository, entry, path) ==> Gives(repository, entry, path, EntryFiles(repository, entry).value[path])
  {
    hide HasLink, TreeFiles, Scan, Requested, FoundOnce, Includes;
    EntryAsksExactly(repository, entry, path);
    if !entry.FileEntry? {
      RequestedExactly(entry.included);
      if Asks(repository, entry, path) {
        var relative :| relative in Requested(entry.included).value && path == entry.target.parts + relative;
        if entry.ArchiveEntry? {
          ArchiveFindsAll(repository, entry, relative);
        }
      }
    }
  }

  // It gives a path one content only.
  lemma GivesOnce(repository: Repository, entry: Entry, path: Path, content: Content, content': Content)
    requires Gives(repository, entry, path, content) && Gives(repository, entry, path, content')
    ensures content == content'
  {
    hide Includes;
    match entry {
      case FileEntry(_, _, _) =>
      case TreeEntry(source, target, included, _) =>
        var relative :| path == target.parts + relative && source.parts + relative in repository.files
          && content == repository.files[source.parts + relative];
        SameSuffix(target.parts, relative);
      case ArchiveEntry(source, sourceRoot, target, included, _) =>
        var members, root := repository.archives[source.parts], sourceRoot.value;
        var relative :| path == target.parts + relative && FoundOnce(members, root, relative, content);
        SameSuffix(target.parts, relative);
        var i :| 0 <= i < |members| && IsMember(members[i], root, relative) && members[i].content == Some(content)
          && forall j :: 0 <= j < |members| && IsMember(members[j], root, relative) ==> j == i;
      case UnknownEntry(_) =>
    }
  }

  // ---- what a delivery is, said of its entries and the repository alone

  // No file an entry is for lies where one of these needs a directory, or the other way round.
  ghost predicate IsFlat(entries: seq<Entry>) {
    forall i, j, a, b :: 0 <= i < |entries| && 0 <= j < |entries| && IsFor(entries[i], a) && IsFor(entries[j], b) ==> !(a < b)
  }

  // An entry that does not replace is for nothing an earlier one was for.
  ghost predicate ReplacesOpenly(entries: seq<Entry>) {
    forall i, j, path :: 0 <= i < j < |entries| && IsFor(entries[i], path) && IsFor(entries[j], path) ==> Replaces(entries[j])
  }

  ghost predicate IsSound(repository: Repository, entries: seq<Entry>) {
    && (forall i :: 0 <= i < |entries| ==> IsGood(repository, entries[i]))
    && IsFlat(entries) && ReplacesOpenly(entries)
  }

  ghost predicate IsForSome(entries: seq<Entry>, path: Path) {
    exists i :: 0 <= i < |entries| && IsFor(entries[i], path)
  }

  // The i-th entry is the last that is for the path.
  ghost predicate LastFor(entries: seq<Entry>, i: nat, path: Path) {
    i < |entries| && IsFor(entries[i], path) && forall j :: i < j < |entries| ==> !IsFor(entries[j], path)
  }

  // The delivery has what the last entry for each path gives it, and the list of its files.
  ghost predicate IsDelivery(repository: Repository, policy: Policy, tree: Tree) {
    && (forall path :: path in tree <==> path == ALLOWLIST || IsForSome(policy.entries, path))
    && (forall i: nat, path :: LastFor(policy.entries, i, path) && path != ALLOWLIST ==>
          path in tree && tree[path].Copied? && Gives(repository, policy.entries[i], path, tree[path].content))
    && ALLOWLIST in tree && tree[ALLOWLIST].Allowlist?
    && tree[ALLOWLIST].version == policy.version
    && tree[ALLOWLIST].generated == policy.generated + {"release-allowlist.json"}
    && (forall path :: path in tree[ALLOWLIST].files <==> IsForSome(policy.entries, path))
  }

  lemma SoundBefore(repository: Repository, before: seq<Entry>, entry: Entry)
    requires IsSound(repository, before + [entry])
    ensures IsSound(repository, before) && IsGood(repository, entry)
    ensures forall a, b :: IsForSome(before, a) && IsFor(entry, b) ==> !(a < b) && !(b < a)
    ensures forall a, b :: IsFor(entry, a) && IsFor(entry, b) ==> !(a < b)
    ensures forall path :: IsForSome(before, path) && IsFor(entry, path) ==> Replaces(entry)
  {
    hide IsFor, IsGood;
    var entries := before + [entry];
    assert entries[|before|] == entry && forall i :: 0 <= i < |before| ==> entries[i] == before[i];
  }

  lemma SoundFits(repository: Repository, before: seq<Entry>, entry: Entry, tree: Tree)
    requires IsSound(repository, before + [entry]) && EntryFiles(repository, entry).Some?
    requires forall path :: path in tree <==> IsForSome(before, path)
    ensures Fits(tree, EntryFiles(repository, entry).value, Replaces(entry))
  {
    SoundBefore(repository, before, entry);
    hide EntryFiles, IsFor, IsSound, IsForSome, Replaces;
    forall path
      ensures Asks(repository, entry, path) <==> IsFor(entry, path)
    {
      EntryGives(repository, entry, path);
    }
    var files := EntryFiles(repository, entry).value;
    forall path | path in files
      ensures CanPut(tree, path, Replaces(entry))
    {
      assert Asks(repository, entry, path);
    }
    forall a, b | a in files && b in files
      ensures !(a < b)
    {
      assert Asks(repository, entry, a) && Asks(repository, entry, b);
    }
  }

  lemma AllGood(repository: Repository, entries: seq<Entry>)
    requires Built(repository, entries).Some?
    ensures forall i :: 0 <= i < |entries| ==> EntryFiles(repository, entries[i]).Some?
    decreases |entries|
  {
    hide EntryFiles, Fits, Copies;
    if entries != [] {
      AllGood(repository, entries[..|entries| - 1]);
      assert forall i :: 0 <= i < |entries| - 1 ==> entries[..|entries| - 1][i] == entries[i];
    }
  }

  // Where all entries succeed, what they ask for is what they are for.
  lemma AsksAreFor(repository: Repository, entries: seq<Entry>)
    requires forall i :: 0 <= i < |entries| ==> EntryFiles(repository, entries[i]).Some?
    ensures forall i, path :: 0 <= i < |entries| ==> (Asks(repository, entries[i], path) <==> IsFor(entries[i], path))
    ensures forall i :: 0 <= i < |entries| ==> IsGood(repository, entries[i])
  {
    hide EntryFiles, IsFor, Asks, IsGood;
    forall i, path | 0 <= i < |entries|
      ensures Asks(repository, entries[i], path) <==> IsFor(entries[i], path)
    {
      EntryGives(repository, entries[i], path);
    }
    forall i | 0 <= i < |entries|
      ensures IsGood(repository, entries[i])
    {
      EntryGoodExactly(repository, entries[i]);
    }
  }

  // The entries can all be copied, one after the other, exactly when each is in order, no file is in
  // another's way, and whatever is overwritten is by an entry that replaces.
  lemma {:induction false} BuildsExactly(repository: Repository, entries: seq<Entry>)
    ensures Built(repository, entries).Some? <==> IsSound(repository, entries)
    decreases |entries|
  {
    if Built(repository, entries).Some? {
      BuiltIsSound(repository, entries);
    } else if entries != [] && IsSound(repository, entries) {
      var before, entry := entries[..|entries| - 1], entries[|entries| - 1];
      assert entries == before + [entry];
      SoundBefore(repository, before, entry);
      BuildsExactly(repository, before);
      EntryGoodExactly(repository, entry);
      BuiltKeys(repository, before);
      SoundFits(repository, before, entry, Built(repository, before).value);
      hide EntryFiles, Fits, IsSound, Copies, IsGood;
      assert false;
    }
  }

  lemma BuiltKeys(repository: Repository, entries: seq<Entry>)
    requires Built(repository, entries).Some?
    ensures forall path :: path in Built(repository, entries).value <==> IsForSome(entries, path)
  {
    BuiltIsResult(repository, entries);
    AllGood(repository, entries);
    AsksAreFor(repository, entries);
    hide Built, EntryFiles, Asks, IsFor, OverwritesOpenly;
  }

  lemma BuiltIsSound(repository: Repository, entries: seq<Entry>)
    requires Built(repository, entries).Some?
    ensures IsSound(repository, entries)
  {
    BuiltIsResult(repository, entries);
    AllGood(repository, entries);
    AsksAreFor(repository, entries);
    hide Built, EntryFiles, Asks, IsFor, IsGood, Replaces;
    var tree := Built(repository, entries).value;
    forall i, j, a, b | 0 <= i < |entries| && 0 <= j < |entries| && IsFor(entries[i], a) && IsFor(entries[j], b)
      ensures !(a < b)
    {
      assert Asks(repository, entries[i], a) && Asks(repository, entries[j], b);
      assert a in tree && b in tree;
    }
  }

  // What is built: for each path, what the last entry for it gives.
  lemma BuiltGives(repository: Repository, entries: seq<Entry>, i: nat, path: Path)
    requires Built(repository, entries).Some? && LastFor(entries, i, path)
    ensures var tree := Built(repository, entries).value;
            path in tree && tree[path].Copied? && Gives(repository, entries[i], path, tree[path].content)
  {
    BuiltIsResult(repository, entries);
    AllGood(repository, entries);
    AsksAreFor(repository, entries);
    EntryGives(repository, entries[i], path);
    hide Built, EntryFiles, Asks, IsFor, Gives, OverwritesOpenly;
    assert IsLast(repository, entries, i, path);
  }

  // An assembly succeeds exactly when the entries are sound and leave room for the list, and then it is
  // the delivery they describe.
  lemma AssembledExactly(repository: Repository, policy: Policy)
    ensures Assembled(repository, policy).Some? <==>
            IsSound(repository, policy.entries) && forall path :: IsForSome(policy.entries, path) ==> !(ALLOWLIST < path)
    ensures Assembled(repository, policy).Some? ==> IsDelivery(repository, policy, Assembled(repository, policy).value)
  {
    BuildsExactly(repository, policy.entries);
    var built := Built(repository, policy.entries);
    if built.Some? {
      BuiltKeys(repository, policy.entries);
      forall i: nat, path | LastFor(policy.entries, i, path)
        ensures path in built.value && built.value[path].Copied?
                && Gives(repository, policy.entries[i], path, built.value[path].content)
      {
        BuiltGives(repository, policy.entries, i, path);
      }
    }
    hide Built, IsSound, IsForSome, LastFor, Gives;
  }

  // ---- the list of the delivery's files

  // The list has exactly the files of the tree but itself, and itself exactly if an entry asks for it;
  // in that one case, and no other, a requested file does not keep its content.
  lemma AllowlistIsExact(repository: Repository, policy: Policy)
    requires Assembled(repository, policy).Some?
    ensures var tree := Assembled(repository, policy).value;
            && ALLOWLIST in tree && tree[ALLOWLIST].Allowlist?
            && tree[ALLOWLIST].files + {ALLOWLIST} == tree.Keys
            && (forall path :: path in tree[ALLOWLIST].files <==>
                  exists i :: 0 <= i < |policy.entries| && Asks(repository, policy.entries[i], path))
            && (forall i: nat, path :: IsLast(repository, policy.entries, i, path) ==>
                  (tree[path] == Copied(EntryFiles(repository, policy.entries[i]).value[path]) <==> path != ALLOWLIST))
    ensures OverwritesOpenly(repository, policy.entries)
  {
    BuiltIsResult(repository, policy.entries);
    hide Built, EntryFiles, IsDirectory, OverwritesOpenly;
  }

  // A delivery assembled from a chain of policies: its files are those the entries of the whole chain are
  // for, and its list has the nearest version and the generated files of all.
  lemma DeliveryOfChain(repository: Repository, policies: Policies, path: Path, depth: nat) returns (chain: seq<Path>)
    requires LoadPolicy(policies, path, depth).Loaded?
    requires Assembled(repository, LoadPolicy(policies, path, depth).policy).Some?
    ensures IsChain(policies, chain) && chain[0] == path
    ensures var tree := Assembled(repository, LoadPolicy(policies, path, depth).policy).value;
      && ALLOWLIST in tree && tree[ALLOWLIST].Allowlist?
      && tree[ALLOWLIST].version == NearestVersion(policies, chain)
      && (forall file :: file in tree[ALLOWLIST].generated <==>
            file == "release-allowlist.json" || GeneratedOnChain(policies, chain, file))
      && (forall file :: file in tree[ALLOWLIST].files <==> IsForSome(BaseFirst(policies, chain), file))
      && (forall file :: file in tree <==> file == ALLOWLIST || IsForSome(BaseFirst(policies, chain), file))
  {
    chain := LoadedIsChain(policies, path, depth);
    hide LoadPolicy, IsChain, Assembled, IsForSome, LastFor, Gives, IsSound;
    AssembledExactly(repository, LoadPolicy(policies, path, depth).policy);
  }

  // ---- provenance

  lemma NamesSources(entry: Entry, path: Path)
    requires Names(entry, path) && EntrySources(entry).Ok?
    ensures path in EntrySources(entry).value
  {
    if entry.TreeEntry? {
      var i :| 0 <= i < |entry.included| && path == entry.source.parts + entry.included[i].parts;
      FilesHave(entry.source, entry.included, i);
    }
  }

  // What the assembler reads is in any list that covers the entries.
  lemma NamedIsListed(sources: seq<Path>, entries: seq<Entry>, path: Path)
    requires Covers(sources, entries) && NamedBySome(entries, path)
    ensures path in sources
  {
    hide EntrySources, Names;
    var i :| 0 <= i < |entries| && Names(entries[i], path);
    assert Covered(sources, entries[i]);
    NamesSources(entries[i], path);
  }

  // An assembly of a policy the provenance walk has accepted reads nothing but what the walk has
  // listed.
  method AssembleListed(delivery: Delivery, root: Path, policies: Policies, allowlist: Path, depth: nat)
    returns (ok: bool)
    requires delivery.Valid() && delivery.read == {}
    requires ".." !in root && ".." !in allowlist && Listed(root, policies, Ok(allowlist), {}).Ok?
    modifies delivery
    ensures forall path :: path in delivery.read ==> path in Listed(root, policies, Ok(allowlist), {}).value
  {
    hide Listed, LoadPolicy;
    ok := delivery.Assemble(policies, allowlist, depth);
    ProvenanceCoversLoading(root, policies, allowlist);
    ghost var sources := Listed(root, policies, Ok(allowlist), {}).value;
    forall path | path in delivery.read
      ensures path in sources
    {
      NamedIsListed(sources, LoadPolicy(policies, allowlist, depth).policy.entries, path);
    }
  }
}
