// What a run request may name, and the files that are written for it
// (src/deepintshield/agentic/managed_remote.py, `_relative_path`, `_parse_order` and `_stage`).

module Staging {
  import opened Common
  import Utf8

  const MAX_FILES := 64
  const MAX_PATH_CHARACTERS := 512

  // Permission bits: rwxr-xr-x, r--r--r--, r-------- and rwx------.
  const FOLDER_MODE := 0x1ed
  const SOURCE_MODE := 0x124
  const CONFIG_MODE := 0x100
  const PRIVATE_MODE := 0x1c0

  // ---------------------------------------------------------------------------------------------
  // Names and their components
  // ---------------------------------------------------------------------------------------------

  type Path = seq<string>

  /** Cut at every slash. */
  function Split(name: string): (parts: Path)
    ensures |parts| > 0
    ensures forall part <- parts :: '/' !in part
  {
    if name == "" then [""]
    else
      var rest := Split(name[1..]);
      if name[0] == '/' then [""] + rest else [[name[0]] + rest[0]] + rest[1..]
  }

  function Join(parts: Path): string
    requires |parts| > 0
  {
    if |parts| == 1 then parts[0] else parts[0] + "/" + Join(parts[1..])
  }

  lemma {:induction false} JoinOfSplit(name: string)
    ensures Join(Split(name)) == name
  {
    if name != "" {
      var rest := Split(name[1..]);
      JoinOfSplit(name[1..]);
      if name[0] == '/' {
        assert Split(name)[1..] == rest;
      } else {
        assert Split(name)[1..] == rest[1..];
        assert name == [name[0]] + name[1..];
      }
    }
  }

  /** A component without a slash stays whole in front of a slash. */
  lemma {:induction false} SplitAtSlash(part: string, rest: string)
    requires '/' !in part
    ensures Split(part) == [part]
    ensures Split(part + "/" + rest) == [part] + Split(rest)
  {
    if part == "" {
      assert "" + "/" + rest == "/" + rest;
      assert ("/" + rest)[1..] == rest;
    } else {
      SplitAtSlash(part[1..], rest);
      assert (part + "/" + rest)[1..] == part[1..] + "/" + rest;
      assert part == [part[0]] + part[1..];
    }
  }

  lemma {:induction false} SplitOfJoin(parts: Path)
    requires |parts| > 0 && forall part <- parts :: '/' !in part
    ensures Split(Join(parts)) == parts
  {
    if |parts| == 1 {
      SplitAtSlash(parts[0], "");
    } else {
      SplitAtSlash(parts[0], Join(parts[1..]));
      SplitOfJoin(parts[1..]);
    }
  }

  // ---------------------------------------------------------------------------------------------
  // The part of the contract that is about files
  // ---------------------------------------------------------------------------------------------

  predicate Plain(part: string) {
    part != "" && part != "." && part != ".."
  }

  predicate RelativePath(name: string) {
    && 0 < |name| <= MAX_PATH_CHARACTERS
    && '\\' !in name && '\0' !in name
    && forall part <- Split(name) :: Plain(part)
  }

  /** A file is also a directory of another one. */
  predicate Inside(files: map<string, string>, name: string) {
    exists other <- files :: Split(other) < Split(name)
  }

  predicate EndsPy(name: string) {
    |name| >= 3 && name[|name| - 3..] == ".py"
  }

  /** What the contract with the gateway allows. */
  predicate Allowed(files: map<string, string>, entrypoint: string) {
    && 1 <= |files| <= MAX_FILES
    && EndsPy(entrypoint) && entrypoint in files
    && (forall name <- files :: RelativePath(name))
    && (forall name <- files :: !Inside(files, name))
  }

  /** The directories of a name are looked up by their own joined names. */
  lemma LookUp(files: map<string, string>, name: string, depth: nat)
    requires 1 <= depth < |Split(name)|
    ensures Join(Split(name)[..depth]) in files ==> Inside(files, name)
  {
    var front := Split(name)[..depth];
    SplitOfJoin(front);
    assert front < Split(name);
  }

  lemma NotInside(files: map<string, string>, name: string)
    requires forall depth | 1 <= depth < |Split(name)| :: Join(Split(name)[..depth]) !in files
    ensures !Inside(files, name)
  {
    forall other <- files
      ensures !(Split(other) < Split(name))
    {
      JoinOfSplit(other);
      var depth := |Split(other)|;
      if depth < |Split(name)| {
        var front := Split(name)[..depth];
        assert Split(other) < Split(name) ==> Split(other) == front;
        assert Join(front) !in files;
      }
    }
  }

  /** `_parse_order`, its checks of the files: every name and every prefix of it is looked up. */
  method ParseFiles(files: map<string, string>, entrypoint: string) returns (order: Option<map<string, Bytes>>)
    ensures order.Some? <==> Allowed(files, entrypoint)
    ensures order.Some? ==> order.value == map name | name in files :: Utf8.Encode(files[name])
  {
    hide Inside, Join, Split, RelativePath;
    if !(1 <= |files| <= MAX_FILES) || !EndsPy(entrypoint) || entrypoint !in files {
      return None;
    }
    order := Encoded(files);
    if order.Some? {
      assert order.value.Keys == files.Keys;
      var clash := Clashes(files, order.value);
      if clash {
        order := None;
      }
    }
  }

  /** Each name is checked and each source is encoded. */
  method Encoded(files: map<string, string>) returns (order: Option<map<string, Bytes>>)
    ensures order.Some? <==> forall name <- files :: RelativePath(name)
    ensures order.Some? ==> order.value == map name | name in files :: Utf8.Encode(files[name])
  {
    hide RelativePath;
    var encoded: map<string, Bytes> := map[];
    var left := files.Keys;
    while left != {}
      invariant left <= files.Keys
      invariant encoded == map name | name in files && name !in left :: Utf8.Encode(files[name])
      invariant forall name <- files | name !in left :: RelativePath(name)
      decreases left
    {
      var name :| name in left;
      if !RelativePath(name) {
        return None;
      }
      encoded := encoded[name := Utf8.Encode(files[name])];
      left := left - {name};
    }
    order := Some(encoded);
  }

  /** Whether a directory of some name is itself a file. */
  method Clashes(files: map<string, string>, encoded: map<string, Bytes>) returns (clash: bool)
    requires encoded.Keys == files.Keys
    ensures clash <==> exists name <- files :: Inside(files, name)
  {
    hide Inside, Join, Split;
    var left := files.Keys;
    while left != {}
      invariant left <= files.Keys
      invariant forall name <- files | name !in left :: !Inside(files, name)
      decreases left
    {
      var name :| name in left;
      var parts := Split(name);
      for depth := 1 to |parts|
        invariant forall d | 1 <= d < depth :: Join(parts[..d]) !in files
      {
        if Join(parts[..depth]) in encoded {
          LookUp(files, name, depth);
          return true;
        }
      }
      NotInside(files, name);
      left := left - {name};
    }
    clash := false;
  }

  // ---------------------------------------------------------------------------------------------
  // The tree a request stands for
  // ---------------------------------------------------------------------------------------------

  type Owner = (nat, nat)

  datatype Entry =
    | Folder(mode: nat, owner: Option<Owner>)
    | File(data: Bytes, mode: nat, owner: Option<Owner>)

  function Leaf(data: Bytes, mode: nat): Entry {
    File(data, mode, None)
  }

  function At(entries: map<Path, Entry>, p: Path): Option<Entry> {
    if p in entries then Some(entries[p]) else None
  }

  /** What the files `done`, and the directories on the way to `part`, put at a path below the bundle. */
  ghost function InBundle(files: map<string, Bytes>, done: set<string>, part: Path, q: Path): Option<Entry>
    requires done <= files.Keys
  {
    if q != [] && Join(q) in done && Split(Join(q)) == q then Some(Leaf(files[Join(q)], SOURCE_MODE))
    else if q <= part || exists name <- done :: q < Split(name) then Some(Folder(FOLDER_MODE, None))
    else None
  }

  ghost function Staged(files: map<string, Bytes>, done: set<string>, part: Path, p: Path): Option<Entry>
    requires done <= files.Keys
  {
    if p == [] then Some(Folder(PRIVATE_MODE, None))
    else if p[0] == "bundle" then InBundle(files, done, part, p[1..])
    else None
  }

  /** The finished directory: the bundle, the launcher's configuration and two private directories. */
  ghost function Wanted(files: map<string, Bytes>, config: Bytes, p: Path): Option<Entry> {
    if p == ["config.json"] then Some(Leaf(config, CONFIG_MODE))
    else if p == ["home"] || p == ["tmp"] then Some(Folder(PRIVATE_MODE, None))
    else Staged(files, files.Keys, [], p)
  }

  function Owned(e: Option<Entry>, owner: Option<Owner>): Option<Entry> {
    if e.None? || owner.None? then e else Some(e.value.(owner := owner))
  }

  /** Exactly the tree of a request, everything in it given to `owner`. */
  ghost predicate Exact(entries: map<Path, Entry>, files: map<string, Bytes>, config: Bytes, owner: Option<Owner>) {
    forall p: Path :: At(entries, p) == Owned(Wanted(files, config, p), owner)
  }

  /** The names of a request, as the contract leaves them. */
  ghost predicate Apart(files: map<string, Bytes>) {
    && (forall name <- files, part <- Split(name) :: Plain(part))
    && forall name <- files, other <- files :: !(Split(other) < Split(name))
  }

  /** The bundle so far: some files with their directories, and the way to the next. */
  ghost predicate Partly(entries: map<Path, Entry>, files: map<string, Bytes>, done: set<string>, part: Path)
    requires done <= files.Keys
  {
    forall p: Path :: At(entries, p) == Staged(files, done, part, p)
  }

  /** A directory on the way to a file is never a file. */
  lemma OnTheWay(files: map<string, Bytes>, done: set<string>, name: string, q: Path)
    requires Apart(files) && done <= files.Keys && name in files && q < Split(name)
    ensures !(q != [] && Join(q) in done && Split(Join(q)) == q)
  {
  }

  /** A longer way has one more directory in the bundle. */
  lemma OneLonger(files: map<string, Bytes>, done: set<string>, name: string, depth: nat, q: Path)
    requires Apart(files) && done <= files.Keys && name in files && depth + 1 < |Split(name)|
    ensures var before, part := Split(name)[..depth], Split(name)[..depth + 1];
      InBundle(files, done, part, q)
      == if q == part then Some(Folder(FOLDER_MODE, None)) else InBundle(files, done, before, q)
  {
    var before, part := Split(name)[..depth], Split(name)[..depth + 1];
    OnTheWay(files, done, name, part);
    assert q <= part <==> q <= before || q == part;
  }

  /** The directories of the way so far are there. */
  lemma DirectoryThere(
      entries: map<Path, Entry>, files: map<string, Bytes>, done: set<string>, name: string, way: Path, q: Path)
    requires Apart(files) && done <= files.Keys && name in files && way < Split(name) && q <= way
    requires Partly(entries, files, done, way)
    ensures At(entries, ["bundle"] + q) == Some(Folder(FOLDER_MODE, None))
  {
    OnTheWay(files, done, name, q);
    assert (["bundle"] + q)[1..] == q;
    assert Staged(files, done, way, ["bundle"] + q) == Some(Folder(FOLDER_MODE, None));
  }

  lemma DirectoryWanted(files: map<string, Bytes>, name: string, q: Path)
    requires Apart(files) && name in files && q < Split(name)
    ensures Staged(files, files.Keys, [], ["bundle"] + q).Some?
  {
    OnTheWay(files, files.Keys, name, q);
    assert (["bundle"] + q)[1..] == q;
  }

  /** The next directory on the way is there already or can be made; with it the way is longer. */
  lemma FolderStep(entries: map<Path, Entry>, files: map<string, Bytes>, done: set<string>, name: string, depth: nat)
    requires Apart(files) && done <= files.Keys && name in files && depth + 1 < |Split(name)|
    requires Partly(entries, files, done, Split(name)[..depth])
    ensures var part := Split(name)[..depth + 1];
      var directory := ["bundle"] + part;
      && At(entries, directory[..depth + 1]) == Some(Folder(FOLDER_MODE, None))
      && (directory in entries ==> Partly(entries, files, done, part))
      && (directory !in entries ==> Partly(entries[directory := Folder(FOLDER_MODE, None)], files, done, part))
      && Staged(files, files.Keys, [], directory).Some?
  {
    var before, part := Split(name)[..depth], Split(name)[..depth + 1];
    var directory := ["bundle"] + part;
    assert directory[..depth + 1] == ["bundle"] + before;
    DirectoryThere(entries, files, done, name, before, before);
    DirectoryWanted(files, name, part);
    assert InBundle(files, done, before, part) in {None, Some(Folder(FOLDER_MODE, None))} by {
      OnTheWay(files, done, name, part);
    }
    hide InBundle, Partly, Staged, At, Apart;
    forall q: Path
      ensures InBundle(files, done, part, q) ==
        if q == part then Some(Folder(FOLDER_MODE, None)) else InBundle(files, done, before, q)
    {
      OneLonger(files, done, name, depth, q);
    }
    LongerWay(entries, files, done, before, part);
  }

  lemma LongerWay(entries: map<Path, Entry>, files: map<string, Bytes>, done: set<string>, before: Path, part: Path)
    requires done <= files.Keys && Partly(entries, files, done, before)
    requires forall q: Path ::
      InBundle(files, done, part, q)
      == if q == part then Some(Folder(FOLDER_MODE, None)) else InBundle(files, done, before, q)
    requires InBundle(files, done, before, part) in {None, Some(Folder(FOLDER_MODE, None))}
    ensures var directory := ["bundle"] + part;
      && (directory in entries ==> Partly(entries, files, done, part))
      && (directory !in entries ==> Partly(entries[directory := Folder(FOLDER_MODE, None)], files, done, part))
  {
    hide InBundle;
    var directory := ["bundle"] + part;
    assert directory[1..] == part;
    forall p: Path
      ensures Staged(files, done, part, p) ==
        if p == directory then Some(Folder(FOLDER_MODE, None)) else At(entries, p)
    {
      assert At(entries, p) == Staged(files, done, before, p);
      assert p != [] && p[0] == "bundle" && p[1..] == part ==> p == directory;
    }
    assert At(entries, directory) == Staged(files, done, before, directory);
  }

  /** The place of the next file is free, its directory is there, and with it one more file is done. */
  lemma FileStep(entries: map<Path, Entry>, files: map<string, Bytes>, done: set<string>, name: string)
    requires Apart(files) && done <= files.Keys && name in files && name !in done
    requires Partly(entries, files, done, Split(name)[..|Split(name)| - 1])
    ensures var target := ["bundle"] + Split(name);
      && target !in entries && At(entries, target[..|target| - 1]) == Some(Folder(FOLDER_MODE, None))
      && Partly(entries[target := Leaf(files[name], SOURCE_MODE)], files, done + {name}, [])
      && Staged(files, files.Keys, [], target).Some?
  {
    var parts := Split(name);
    var part, target := parts[..|parts| - 1], ["bundle"] + parts;
    JoinOfSplit(name);
    OnTheWay(files, done, name, part);
    assert target[1..] == parts && target[..|target| - 1] == ["bundle"] + part;
    assert (["bundle"] + part)[1..] == part;
    assert At(entries, target) == Staged(files, done, part, target);
    forall q: Path
      ensures InBundle(files, done + {name}, [], q) ==
        if q == parts then Some(Leaf(files[name], SOURCE_MODE)) else InBundle(files, done, part, q)
    {
      assert q <= part <==> q < parts;
      if q < parts {
        OnTheWay(files, done, name, q);
      }
    }
    MoreDone(entries, files, done, name, part);
  }

  lemma MoreDone(entries: map<Path, Entry>, files: map<string, Bytes>, done: set<string>, name: string, part: Path)
    requires done <= files.Keys && name in files && Partly(entries, files, done, part)
    requires forall q: Path ::
      InBundle(files, done + {name}, [], q)
      == if q == Split(name) then Some(Leaf(files[name], SOURCE_MODE)) else InBundle(files, done, part, q)
    ensures Partly(entries[["bundle"] + Split(name) := Leaf(files[name], SOURCE_MODE)], files, done + {name}, [])
  {
    hide InBundle, Split, Leaf;
    var parts, target := Split(name), ["bundle"] + Split(name);
    assert target[1..] == parts;
    forall p: Path
      ensures At(entries[target := Leaf(files[name], SOURCE_MODE)], p) == Staged(files, done + {name}, [], p)
    {
      assert At(entries, p) == Staged(files, done, part, p);
      assert p != [] && p[0] == "bundle" && p[1..] == parts ==> p == target;
    }
  }

  // ---------------------------------------------------------------------------------------------
  // Staging
  // ---------------------------------------------------------------------------------------------

  /** A fresh private directory, the empty path; `refused` and `unowned` are what the system fails. */
  class Disk {
    const refused: set<Path>
    const unowned: set<Path>
    var entries: map<Path, Entry>

    predicate Room(p: Path)
      requires p != []
      reads this
    {
      p !in entries && At(entries, p[..|p| - 1]).Some? && entries[p[..|p| - 1]].Folder?
    }

    constructor (refused: set<Path>, unowned: set<Path>)
      ensures this.refused == refused && this.unowned == unowned
      ensures entries == map[[] := Folder(PRIVATE_MODE, None)]
    {
      this.refused, this.unowned, entries := refused, unowned, map[[] := Folder(PRIVATE_MODE, None)];
    }

    /** mkdir, or a file opened with O_EXCL: nothing may be there yet, and its directory must be. */
    method Make(p: Path, e: Entry) returns (ok: bool)
      requires p != []
      modifies this
      ensures ok <==> p !in refused && old(Room(p))
      ensures entries == if ok then old(entries)[p := e] else old(entries)
    {
      ok := p !in refused && Room(p);
      if ok {
        entries := entries[p := e];
      }
    }

    method Give(p: Path, owner: Owner) returns (ok: bool)
      requires p in entries
      modifies this
      ensures ok <==> p !in unowned
      ensures entries == if ok then old(entries)[p := old(entries[p]).(owner := Some(owner))] else old(entries)
    {
      ok := p !in unowned;
      if ok {
        entries := entries[p := entries[p].(owner := Some(owner))];
      }
    }
  }

  /** What `os.path.abspath` makes of components. */
  function Normal(p: Path): Path {
    if p == [] then []
    else
      var front, last := Normal(p[..|p| - 1]), p[|p| - 1];
      if last == "" || last == "." then front
      else if last == ".." then if front == [] then [] else front[..|front| - 1]
      else front + [last]
  }

  lemma {:induction false} NormalOfPlain(p: Path)
    requires forall part <- p :: Plain(part)
    ensures Normal(p) == p
  {
    if p != [] {
      NormalOfPlain(p[..|p| - 1]);
      assert p == p[..|p| - 1] + [p[|p| - 1]] && Plain(p[|p| - 1]);
    }
  }

  ghost predicate Lists(created: seq<Path>, entries: map<Path, Entry>) {
    forall p: Path :: p in created <==> p in entries
  }

  predicate Spared(entries: map<Path, Entry>, refused: set<Path>) {
    forall p <- entries | p != [] :: p !in refused
  }

  /** No path of the request's tree is one the system fails. */
  ghost predicate Granted(disk: Disk, files: map<string, Bytes>, config: Bytes, owner: Option<Owner>) {
    && (forall p <- disk.refused | p != [] :: Wanted(files, config, p).None?)
    && (owner.Some? ==> forall p <- disk.unowned :: Wanted(files, config, p).None?)
  }

  /** The directories of one file, made where they are missing, and the file. */
  method Place(disk: Disk, created: seq<Path>, files: map<string, Bytes>, ghost done: set<string>, name: string)
    returns (ok: bool, created': seq<Path>)
    requires Apart(files) && done <= files.Keys && name in files && name !in done
    requires Partly(disk.entries, files, done, []) && Lists(created, disk.entries)
    requires Spared(disk.entries, disk.refused)
    modifies disk
    ensures ok ==> Partly(disk.entries, files, done + {name}, []) && Lists(created', disk.entries)
    ensures Spared(disk.entries, disk.refused)
    ensures !ok ==> exists p <- disk.refused :: p != [] && Staged(files, files.Keys, [], p).Some?
  {
    hide Partly, Apart, Lists, Staged;
    var parts := Split(name);
    var directory: Path := ["bundle"];
    created' := created;
    for depth := 0 to |parts| - 1
      invariant directory == ["bundle"] + parts[..depth]
      invariant Partly(disk.entries, files, done, parts[..depth]) && Lists(created', disk.entries)
      invariant Spared(disk.entries, disk.refused)
    {
      FolderStep(disk.entries, files, done, name, depth);
      directory := directory + [parts[depth]];
      assert directory == ["bundle"] + parts[..depth + 1];
      assert directory[..|directory| - 1] == directory[..depth + 1];
      Listed(created', disk.entries, directory, Folder(FOLDER_MODE, None));
      if directory !in created' {
        ok := disk.Make(directory, Folder(FOLDER_MODE, None));
        if !ok {
          return;
        }
        created' := created' + [directory];
      }
    }
    var target := directory + [parts[|parts| - 1]];
    assert target == ["bundle"] + parts;
    FileStep(disk.entries, files, done, name);
    Clean(files, name);
    if !(["bundle"] <= Normal(target)) {
      return false, created';
    }
    Listed(created', disk.entries, target, Leaf(files[name], SOURCE_MODE));
    ok := disk.Make(target, Leaf(files[name], SOURCE_MODE));
    created' := created' + [target];
  }

  lemma Listed(created: seq<Path>, entries: map<Path, Entry>, p: Path, e: Entry)
    requires Lists(created, entries)
    ensures p in created <==> p in entries
    ensures Lists(created + [p], entries[p := e])
  {
  }

  lemma Clean(files: map<string, Bytes>, name: string)
    requires Apart(files) && name in files
    ensures Normal(["bundle"] + Split(name)) == ["bundle"] + Split(name)
  {
    NormalOfPlain(["bundle"] + Split(name));
  }

  lemma Finished(entries: map<Path, Entry>, files: map<string, Bytes>, config: Bytes)
    requires Partly(entries, files, files.Keys, [])
    ensures ["config.json"] !in entries && ["home"] !in entries && ["tmp"] !in entries
    ensures At(entries, []) == Some(Folder(PRIVATE_MODE, None))
    ensures Exact(entries[["config.json"] := Leaf(config, CONFIG_MODE)][["home"] := Folder(PRIVATE_MODE, None)]
      [["tmp"] := Folder(PRIVATE_MODE, None)], files, config, None)
  {
    hide InBundle;
    assert At(entries, []) == Staged(files, files.Keys, [], []);
    forall p: Path | p in {["config.json"], ["home"], ["tmp"]}
      ensures p !in entries
    {
      assert At(entries, p) == Staged(files, files.Keys, [], p);
    }
    var after := entries[["config.json"] := Leaf(config, CONFIG_MODE)][["home"] := Folder(PRIVATE_MODE, None)]
      [["tmp"] := Folder(PRIVATE_MODE, None)];
    forall p: Path
      ensures At(after, p) == Owned(Wanted(files, config, p), None)
    {
      assert At(entries, p) == Staged(files, files.Keys, [], p);
    }
  }

  /** The bundle starts with its own directory. */
  lemma Started(entries: map<Path, Entry>, files: map<string, Bytes>)
    requires entries == map[[] := Folder(PRIVATE_MODE, None)][["bundle"] := Folder(FOLDER_MODE, None)]
    ensures Partly(entries, files, {}, [])
    ensures Lists([[], ["bundle"]], entries)
    ensures files != map[] ==> Staged(files, files.Keys, [], ["bundle"]).Some?
  {
    forall p: Path
      ensures At(entries, p) == Staged(files, {}, [], p)
    {
      assert p != [] && p[0] == "bundle" && p[1..] == [] ==> p == ["bundle"];
    }
  }

  ghost predicate GivenUpTo(entries: map<Path, Entry>, before: map<Path, Entry>, done: seq<Path>, owner: Owner) {
    && entries.Keys == before.Keys
    && forall p <- entries :: entries[p] == if p in done then before[p].(owner := Some(owner)) else before[p]
  }

  lemma AllGiven(entries: map<Path, Entry>, before: map<Path, Entry>, created: seq<Path>, owner: Owner,
      files: map<string, Bytes>, config: Bytes)
    requires GivenUpTo(entries, before, created, owner) && Lists(created, before) && Exact(before, files, config, None)
    ensures Exact(entries, files, config, Some(owner))
  {
  }

  /** The files beside the bundle. */
  method Furnish(disk: Disk, created: seq<Path>, files: map<string, Bytes>, config: Bytes)
    returns (ok: bool, created': seq<Path>)
    requires Partly(disk.entries, files, files.Keys, []) && Lists(created, disk.entries)
    requires Spared(disk.entries, disk.refused)
    modifies disk
    ensures ok ==> Exact(disk.entries, files, config, None) && Lists(created', disk.entries)
    ensures Spared(disk.entries, disk.refused)
    ensures ok <==> disk.refused !! {["config.json"], ["home"], ["tmp"]}
  {
    hide Partly, Lists, Exact, Leaf;
    Finished(disk.entries, files, config);
    created' := created;
    Listed(created', disk.entries, ["config.json"], Leaf(config, CONFIG_MODE));
    ok := disk.Make(["config.json"], Leaf(config, CONFIG_MODE));
    if !ok {
      return;
    }
    created' := created' + [["config.json"]];
    Listed(created', disk.entries, ["home"], Folder(PRIVATE_MODE, None));
    ok := disk.Make(["home"], Folder(PRIVATE_MODE, None));
    if !ok {
      return;
    }
    created' := created' + [["home"]];
    Listed(created', disk.entries, ["tmp"], Folder(PRIVATE_MODE, None));
    ok := disk.Make(["tmp"], Folder(PRIVATE_MODE, None));
    created' := created' + [["tmp"]];
  }

  /** Everything that was made is given to the program's user. */
  method GiveAll(disk: Disk, created: seq<Path>, owner: Owner, ghost files: map<string, Bytes>, ghost config: Bytes)
    returns (ok: bool)
    requires Exact(disk.entries, files, config, None) && Lists(created, disk.entries)
    modifies disk
    ensures ok ==> Exact(disk.entries, files, config, Some(owner))
    ensures ok ==> forall p <- disk.entries :: p !in disk.unowned
    ensures disk.entries.Keys == old(disk.entries.Keys)
    ensures !ok ==> exists p <- disk.unowned :: Wanted(files, config, p).Some?
  {
    hide Exact;
    ghost var before := disk.entries;
    for i := 0 to |created|
      invariant GivenUpTo(disk.entries, before, created[..i], owner)
      invariant forall p <- created[..i] :: p !in disk.unowned
    {
      assert created[i] in created;
      ok := disk.Give(created[i], owner);
      if !ok {
        IsWanted(before, files, config, created[i]);
        return;
      }
      assert created[..i + 1] == created[..i] + [created[i]];
    }
    assert created[..|created|] == created;
    AllGiven(disk.entries, before, created, owner, files, config);
    ok := true;
  }

  lemma IsWanted(entries: map<Path, Entry>, files: map<string, Bytes>, config: Bytes, p: Path)
    requires Exact(entries, files, config, None) && p in entries
    ensures Wanted(files, config, p).Some?
  {
  }

  /**
   * `_stage`: an allowed request never gets in its own way, so its tree is made, exactly, unless the
   * system fails one of its paths.
   */
  method Stage(disk: Disk, files: map<string, Bytes>, config: Bytes, owner: Option<Owner>) returns (ok: bool)
    requires Apart(files) && files != map[]
    requires disk.entries == map[[] := Folder(PRIVATE_MODE, None)]
    modifies disk
    ensures ok <==> Granted(disk, files, config, owner)
    ensures ok ==> Exact(disk.entries, files, config, owner)
  {
    hide Partly, Lists, Exact, Apart;
    Started(disk.entries[["bundle"] := Folder(FOLDER_MODE, None)], files);
    var created: seq<Path> := [[], ["bundle"]];
    ok := disk.Make(["bundle"], Folder(FOLDER_MODE, None));
    if !ok {
      return;
    }
    var left := files.Keys;
    assert files.Keys - left == {};
    while left != {}
      invariant left <= files.Keys
      invariant Partly(disk.entries, files, files.Keys - left, []) && Lists(created, disk.entries)
      invariant Spared(disk.entries, disk.refused)
      decreases left
    {
      var name :| name in left;
      ok, created := Place(disk, created, files, files.Keys - left, name);
      if !ok {
        return;
      }
      assert files.Keys - left + {name} == files.Keys - (left - {name});
      left := left - {name};
    }
    assert files.Keys - left == files.Keys;
    ok, created := Furnish(disk, created, files, config);
    if !ok {
      return;
    }
    if owner.Some? {
      ok := GiveAll(disk, created, owner.value, files, config);
    }
    if ok {
      AllGranted(disk, files, config, owner);
    }
  }

  lemma AllGranted(disk: Disk, files: map<string, Bytes>, config: Bytes, owner: Option<Owner>)
    requires Exact(disk.entries, files, config, owner) && Spared(disk.entries, disk.refused)
    requires owner.Some? ==> forall p <- disk.entries :: p !in disk.unowned
    ensures Granted(disk, files, config, owner)
  {
  }

  /** What the contract allows is what staging needs; and the bytes written are the sources sent. */
  lemma AllowedIsApart(files: map<string, string>, entrypoint: string, encoded: map<string, Bytes>)
    requires Allowed(files, entrypoint) && encoded == map name | name in files :: Utf8.Encode(files[name])
    ensures Apart(encoded) && encoded != map[]
    ensures forall name <- encoded :: Utf8.Decode(encoded[name]) == Some(files[name])
  {
    assert entrypoint in encoded;
    forall name <- encoded
      ensures Utf8.Decode(encoded[name]) == Some(files[name])
    {
      Utf8.DecodeOfEncode(files[name]);
    }
    forall name <- encoded
      ensures !Inside(files, name)
    {
    }
  }
}
