// Packaging the entry script and the local files it imports
// (src/deepintshield/agentic/managed_execution.py, `package_script`).

module Packager {
  import opened Common
  import opened Utf8
  import opened Handoff

  /** Relative to the entry script's directory. */
  type Path = seq<string>

  datatype Entry = File(raw: Bytes) | Directory | Special

  /**
   * One import, in source order. `Relative` counts the leading dots; `optional` is the name of a
   * `from` import, which may be an attribute; `Refused` stands for computed imports and code loaders.
   */
  datatype Need =
    | Absolute(parts: seq<string>, optional: bool)
    | Relative(level: nat, parts: seq<string>, optional: bool)
    | Refused

  /**
   * The surroundings of a script. `entries`: what exists, links followed; `links`: the symbolic
   * links, dangling or not; `scan`: a file's imports, None if it does not parse; `identifier`: the
   * names Python accepts; `pins`: the pinned distributions of an external module, None if unknown.
   */
  datatype Project = Project(
    entry: string, entries: map<Path, Entry>, links: set<Path>, linkedRoot: bool,
    scan: (Path, string) -> Option<seq<Need>>, identifier: string -> bool,
    distributions: set<string>, stdlib: set<string>, pins: string -> Option<set<string>>)

  /** A refusal after which the program may still run here. */
  predicate Keepable(code: string) {
    code in LOCAL_CODES
  }

  datatype Outcome<T> = Ok(value: T) | Err(code: string)

  const UNSUPPORTED := "managed_execution_bundle_unsupported"
  const MISSING := "managed_execution_dependency_missing"
  const TOO_LARGE := "managed_execution_bundle_too_large"
  const MAX_REQUIREMENTS := 64

  // ---------------------------------------------------------------------------------------------
  // Resolving one import
  // ---------------------------------------------------------------------------------------------

  /** What an import adds: files to read, external modules, directories without `__init__.py`. */
  datatype Found = Found(queue: set<Path>, external: set<string>, namespaces: set<Path>)

  const NOTHING := Found({}, {}, {})

  function Union(a: Found, b: Found): Found {
    Found(a.queue + b.queue, a.external + b.external, a.namespaces + b.namespaces)
  }

  predicate Present(pr: Project, p: Path) {
    p in pr.entries || p in pr.links
  }

  function Initializers(pr: Project, parts: seq<string>): set<Path> {
    set i | 1 <= i < |parts| && Present(pr, parts[..i] + ["__init__.py"]) :: parts[..i] + ["__init__.py"]
  }

  predicate IsDirectory(pr: Project, p: Path) {
    p in pr.entries && pr.entries[p].Directory?
  }

  function Resolve(pr: Project, parts: seq<string>, optional: bool): Outcome<Found> {
    if parts == [] || exists part <- parts :: !pr.identifier(part) then Err(UNSUPPORTED)
    else
      var n := |parts| - 1;
      var target, package := parts[..n] + [parts[n] + ".py"], parts + ["__init__.py"];
      var initializers := Initializers(pr, parts);
      if Present(pr, target) then Ok(Found({target} + initializers, {}, {}))
      else if Present(pr, package) then Ok(Found({package} + initializers, {}, {}))
      else if IsDirectory(pr, parts) then
        if parts in pr.links then Err(UNSUPPORTED)
        else if parts[0] in pr.distributions || parts[0] in pr.stdlib then Ok(Found({}, {parts[0]}, {}))
        else Ok(Found(initializers, {}, {parts}))
      else if optional then Ok(NOTHING)
      else if [parts[0]] !in pr.entries && [parts[0] + ".py"] !in pr.entries then Ok(Found({}, {parts[0]}, {}))
      else Err(MISSING)
  }

  /** The dotted name an import means in the file at `path`. */
  function Named(path: Path, need: Need): Option<seq<string>>
    requires path != []
  {
    match need
    case Absolute(parts, _) => Some(parts)
    case Relative(level, parts, _) =>
      var parents := path[..|path| - 1];
      if level == 0 || level > |parents| then None else Some(parents[..|parents| - level + 1] + parts)
    case Refused => None
  }

  function Follow(pr: Project, path: Path, need: Need): Outcome<Found>
    requires path != []
  {
    var name := Named(path, need);
    if name.None? then Err(UNSUPPORTED) else Resolve(pr, name.value, need.optional)
  }

  function FollowAll(pr: Project, path: Path, needs: seq<Need>): Outcome<Found>
    requires path != []
  {
    if needs == [] then Ok(NOTHING)
    else
      var before := FollowAll(pr, path, needs[..|needs| - 1]);
      var last := Follow(pr, path, needs[|needs| - 1]);
      if before.Err? then before
      else if last.Err? then last
      else Ok(Union(before.value, last.value))
  }

  // ---------------------------------------------------------------------------------------------
  // Reading one file
  // ---------------------------------------------------------------------------------------------

  predicate Readable(pr: Project, p: Path) {
    && p != [] && !pr.linkedRoot
    && (forall part <- p :: part !in {"", ".", ".."})
    && (forall i | 1 <= i <= |p| :: p[..i] !in pr.links)
    && p in pr.entries && pr.entries[p].File?
  }

  function SizeOf(pr: Project, p: Path): nat {
    if p in pr.entries && pr.entries[p].File? then |pr.entries[p].raw| else 0
  }

  /** The source of a file and what it imports, whatever the limits. */
  function Visit(pr: Project, p: Path): Outcome<(string, Found)> {
    if !Readable(pr, p) then Err(UNSUPPORTED)
    else
      var source := Decode(pr.entries[p].raw);
      if source.None? then Err(UNSUPPORTED)
      else
        var needs := pr.scan(p, source.value);
        if needs.None? then Err(UNSUPPORTED)
        else
          var found := FollowAll(pr, p, needs.value);
          if found.Err? then Err(found.code) else Ok((source.value, found.value))
  }

  // ---------------------------------------------------------------------------------------------
  // Reference: the least closed set of files
  // ---------------------------------------------------------------------------------------------

  function Start(pr: Project): Path {
    [pr.entry]
  }

  /** Holds the entry script, and with a file everything that the file imports. */
  predicate Closed(pr: Project, files: set<Path>) {
    && Start(pr) in files
    && forall p <- files :: Visit(pr, p).Ok? && Visit(pr, p).value.1.queue <= files
  }

  ghost predicate IsClosure(pr: Project, files: set<Path>) {
    && Closed(pr, files)
    && forall other: set<Path> | Closed(pr, other) :: files <= other
  }

  function Externals(pr: Project, files: set<Path>): set<string> {
    set p, x | p in files && Visit(pr, p).Ok? && x in Visit(pr, p).value.1.external :: x
  }

  function Namespaces(pr: Project, files: set<Path>): set<Path> {
    set p, x | p in files && Visit(pr, p).Ok? && x in Visit(pr, p).value.1.namespaces :: x
  }

  ghost function Total(pr: Project, files: set<Path>): nat {
    if files == {} then 0
    else
      var p :| p in files;
      SizeOf(pr, p) + Total(pr, files - {p})
  }

  predicate Below(p: Path, directory: Path) {
    |directory| < |p| && p[..|directory|] == directory
  }

  /** Every directory imported as a namespace has a packaged file below it. */
  predicate Inhabited(files: set<Path>, namespaces: set<Path>) {
    forall d <- namespaces :: exists p <- files :: Below(p, d)
  }

  predicate Pinnable(pr: Project, external: set<string>) {
    forall m <- external :: m in pr.stdlib || pr.pins(m).Some?
  }

  function Requirements(pr: Project, external: set<string>): set<string> {
    set m, pin | m in external && m !in pr.stdlib && pr.pins(m).Some? && pin in pr.pins(m).value :: pin
  }

  predicate HasPySuffix(name: string) {
    |name| > 3 && name[|name| - 3..] == ".py"
  }

  /** What makes a set of files a package within the limits. */
  ghost predicate Packable(pr: Project, fileLimit: nat, byteLimit: nat, files: set<Path>) {
    && HasPySuffix(pr.entry)
    && IsClosure(pr, files)
    && |files| <= fileLimit && Total(pr, files) <= byteLimit
    && Inhabited(files, Namespaces(pr, files))
    && Pinnable(pr, Externals(pr, files))
    && |Requirements(pr, Externals(pr, files))| <= MAX_REQUIREMENTS
  }

  ghost predicate Hopeless(pr: Project, fileLimit: nat, byteLimit: nat) {
    forall files :: !Packable(pr, fileLimit, byteLimit, files)
  }

  datatype Package = Package(files: map<Path, string>, requirements: set<string>)

  ghost predicate IsPackage(pr: Project, fileLimit: nat, byteLimit: nat, package: Package) {
    && Packable(pr, fileLimit, byteLimit, package.files.Keys)
    && (forall p <- package.files :: Decode(pr.entries[p].raw) == Some(package.files[p]))
    && package.requirements == Requirements(pr, Externals(pr, package.files.Keys))
  }

  /** There is at most one package, so the order of the visits does not show in the result. */
  lemma PackageIsUnique(pr: Project, fileLimit: nat, byteLimit: nat, a: Package, b: Package)
    requires IsPackage(pr, fileLimit, byteLimit, a) && IsPackage(pr, fileLimit, byteLimit, b)
    ensures a == b
  {
    assert a.files.Keys == b.files.Keys;
    assert forall p <- a.files :: Some(a.files[p]) == Some(b.files[p]);
  }

  // ---------------------------------------------------------------------------------------------
  // Facts about totals and paths
  // ---------------------------------------------------------------------------------------------

  lemma {:induction false} TotalWithout(pr: Project, files: set<Path>, p: Path)
    requires p in files
    ensures Total(pr, files) == SizeOf(pr, p) + Total(pr, files - {p})
    decreases |files|
  {
    var q :| q in files && Total(pr, files) == SizeOf(pr, q) + Total(pr, files - {q});
    if q != p {
      TotalWithout(pr, files - {q}, p);
      TotalWithout(pr, files - {p}, q);
      assert files - {q} - {p} == files - {p} - {q};
    }
  }

  lemma {:induction false} TotalGrows(pr: Project, few: set<Path>, many: set<Path>)
    requires few <= many
    ensures |few| <= |many| && Total(pr, few) <= Total(pr, many)
    decreases |many|
  {
    if few != {} {
      var p :| p in few;
      TotalWithout(pr, few, p);
      TotalWithout(pr, many, p);
      TotalGrows(pr, few - {p}, many - {p});
    }
  }

  /** Every file that can be asked for is there: the worklist has a finite universe. */
  function Universe(pr: Project): set<Path> {
    pr.entries.Keys + pr.links + {Start(pr)}
  }

  /** How many files there can still be to take. */
  function Remaining(pr: Project, files: map<Path, string>): nat {
    |Universe(pr) - files.Keys|
  }

  lemma {:induction false} QueuedIsPresent(pr: Project, path: Path, needs: seq<Need>)
    requires path != []
    ensures var r := FollowAll(pr, path, needs); r.Ok? ==> r.value.queue <= Universe(pr)
    ensures var r := FollowAll(pr, path, needs); r.Err? ==> Keepable(r.code)
  {
    if needs != [] {
      QueuedIsPresent(pr, path, needs[..|needs| - 1]);
    }
  }

  // ---------------------------------------------------------------------------------------------
  // The worklist
  // ---------------------------------------------------------------------------------------------

  /** Resolve a file's imports one after the other, into the three sets. */
  method FollowImports(pr: Project, path: Path, needs: seq<Need>, queued: set<Path>, external: set<string>,
      namespaces: set<Path>)
    returns (r: Outcome<Found>)
    requires path != []
    ensures var all := FollowAll(pr, path, needs);
      r == if all.Err? then all else Ok(Union(Found(queued, external, namespaces), all.value))
  {
    var found := Found(queued, external, namespaces);
    for i := 0 to |needs|
      invariant FollowAll(pr, path, needs[..i]).Ok?
      invariant found == Union(Found(queued, external, namespaces), FollowAll(pr, path, needs[..i]).value)
    {
      assert needs[..i + 1][..i] == needs[..i];
      var one := Follow(pr, path, needs[i]);
      if one.Err? {
        FailsEarly(pr, path, needs, i + 1);
        return one;
      }
      found := Union(found, one.value);
    }
    assert needs[..|needs|] == needs;
    return Ok(found);
  }

  lemma {:induction false} FailsEarly(pr: Project, path: Path, needs: seq<Need>, i: nat)
    requires path != [] && i <= |needs| && FollowAll(pr, path, needs[..i]).Err?
    ensures FollowAll(pr, path, needs) == FollowAll(pr, path, needs[..i])
    decreases |needs|
  {
    if i == |needs| {
      assert needs[..i] == needs;
    } else {
      assert needs[..|needs| - 1][..i] == needs[..i];
      FailsEarly(pr, path, needs[..|needs| - 1], i);
    }
  }

  /** Each file was visited, and what it queues is known. */
  ghost predicate Visited(pr: Project, files: map<Path, string>, known: set<Path>) {
    forall p <- files ::
      Visit(pr, p).Ok? && Visit(pr, p).value.0 == files[p] && Visit(pr, p).value.1.queue <= known
  }

  /** Every closed set has these paths. */
  ghost predicate Needed(pr: Project, known: set<Path>) {
    forall other: set<Path> | Closed(pr, other) :: known <= other
  }

  /** What the loop has done: files visited, their imports in the sets, nothing outside the closure. */
  ghost predicate Progress(pr: Project, files: map<Path, string>, found: Found) {
    && Start(pr) in files.Keys + found.queue
    && Visited(pr, files, files.Keys + found.queue)
    && Needed(pr, files.Keys + found.queue)
    && found.external == Externals(pr, files.Keys)
    && found.namespaces == Namespaces(pr, files.Keys)
    && found.queue <= Universe(pr) && files.Keys <= Universe(pr)
  }

  lemma NoSuffix(pr: Project, fileLimit: nat, byteLimit: nat)
    requires !HasPySuffix(pr.entry)
    ensures Keepable(UNSUPPORTED) && Hopeless(pr, fileLimit, byteLimit)
  {
  }

  lemma LocalCodes()
    ensures Keepable(TOO_LARGE)
  {
  }

  lemma Nothing(pr: Project)
    ensures NoRepeats([]) && Counted(pr, map[], 0, [])
  {
  }

  lemma ProgressStart(pr: Project)
    ensures Progress(pr, map[], Found({Start(pr)}, {}, {}))
  {
  }

  /** A queued file that was already taken. */
  lemma ProgressAgain(pr: Project, files: map<Path, string>, found: Found, path: Path)
    requires Progress(pr, files, found) && path in found.queue && path in files
    ensures Progress(pr, files, found.(queue := found.queue - {path}))
  {
  }

  predicate NoRepeats(paths: seq<Path>) {
    forall i, j | 0 <= i < j < |paths| :: paths[i] != paths[j]
  }

  /** The list has exactly the given elements, each once. */
  predicate Once(paths: seq<Path>, elements: set<Path>) {
    NoRepeats(paths) && elements == set p | p in paths
  }

  /** The counters beside the sets: bytes used, and the files opened, each once. */
  ghost predicate Counted(pr: Project, files: map<Path, string>, used: nat, visited: seq<Path>) {
    && used == Total(pr, files.Keys)
    && Once(visited, files.Keys)
  }

  lemma CountedFacts(pr: Project, files: map<Path, string>, used: nat, visited: seq<Path>)
    requires Counted(pr, files, used, visited)
    ensures used == Total(pr, files.Keys) && Once(visited, files.Keys) && NoRepeats(visited)
  {
  }

  lemma OnceStep(visited: seq<Path>, files: set<Path>, path: Path)
    requires Once(visited, files) && path !in files
    ensures Once(visited + [path], files + {path})
  {
  }

  lemma Shrinks(all: set<Path>, some: set<Path>, path: Path)
    requires path in all && path !in some
    ensures |all - (some + {path})| < |all - some|
  {
    assert all - (some + {path}) == all - some - {path};
  }

  lemma QueuedIsInUniverse(pr: Project, files: map<Path, string>, found: Found, path: Path)
    requires Progress(pr, files, found) && path in found.queue
    ensures path in Universe(pr)
  {
  }

  lemma RemainingStep(pr: Project, files: map<Path, string>, found: Found, path: Path, source: string)
    requires Progress(pr, files, found) && path !in files && path in found.queue
    ensures Remaining(pr, files[path := source]) < Remaining(pr, files)
  {
    hide Progress, Universe;
    QueuedIsInUniverse(pr, files, found, path);
    assert files[path := source].Keys == files.Keys + {path};
    Shrinks(Universe(pr), files.Keys, path);
  }

  lemma CountedStep(pr: Project, files: map<Path, string>, used: nat, visited: seq<Path>, path: Path, source: string)
    requires Counted(pr, files, used, visited) && path !in files
    ensures Counted(pr, files[path := source], used + SizeOf(pr, path), visited + [path])
  {
    hide Once, Total, SizeOf;
    var files' := files[path := source];
    assert files'.Keys == files.Keys + {path} && files'.Keys - {path} == files.Keys;
    TotalWithout(pr, files'.Keys, path);
    OnceStep(visited, files.Keys, path);
  }

  lemma ExternalsGrow(pr: Project, files: set<Path>, path: Path)
    requires Visit(pr, path).Ok?
    ensures Externals(pr, files + {path}) == Externals(pr, files) + Visit(pr, path).value.1.external
  {
    hide Visit;
  }

  lemma NamespacesGrow(pr: Project, files: set<Path>, path: Path)
    requires Visit(pr, path).Ok?
    ensures Namespaces(pr, files + {path}) == Namespaces(pr, files) + Visit(pr, path).value.1.namespaces
  {
    hide Visit;
  }

  /** What a visited file queues is in every closed set with it, and there is. */
  lemma QueuedIsNeeded(pr: Project, path: Path)
    requires Visit(pr, path).Ok?
    ensures Visit(pr, path).value.1.queue <= Universe(pr)
    ensures forall other: set<Path> | Closed(pr, other) && path in other :: Visit(pr, path).value.1.queue <= other
  {
    QueuedIsPresent(pr, path, pr.scan(path, Visit(pr, path).value.0).value);
    hide Follow, FollowAll, Resolve;
  }

  /** One more file, and its imports. */
  lemma ProgressStep(pr: Project, files: map<Path, string>, found: Found, path: Path)
    requires Progress(pr, files, found) && path in found.queue && path !in files && Visit(pr, path).Ok?
    ensures var v := Visit(pr, path).value;
      Progress(pr, files[path := v.0], Union(found.(queue := found.queue - {path}), v.1))
  {
    var v := Visit(pr, path).value;
    assert files[path := v.0].Keys == files.Keys + {path};
    QueuedIsNeeded(pr, path);
    ExternalsGrow(pr, files.Keys, path);
    NamespacesGrow(pr, files.Keys, path);
    var known := files.Keys + found.queue;
    VisitedGrow(pr, files, known, path);
    NeededGrow(pr, known, path);
    var files' := files[path := v.0];
    var found' := Union(found.(queue := found.queue - {path}), v.1);
    assert files'.Keys + found'.queue == known + v.1.queue;
    hide Visit, Externals, Namespaces, Visited, Needed, Universe;
  }

  lemma VisitedGrow(pr: Project, files: map<Path, string>, known: set<Path>, path: Path)
    requires Visited(pr, files, known) && path !in files && Visit(pr, path).Ok?
    ensures var v := Visit(pr, path).value; Visited(pr, files[path := v.0], known + v.1.queue)
  {
    hide Visit;
  }

  lemma NeededGrow(pr: Project, known: set<Path>, path: Path)
    requires Needed(pr, known) && path in known && Visit(pr, path).Ok?
    ensures Needed(pr, known + Visit(pr, path).value.1.queue)
  {
    QueuedIsNeeded(pr, path);
    hide Visit, Closed;
  }

  /** A file that cannot be visited, or is one too many, leaves no package at all. */
  lemma NoPackage(pr: Project, fileLimit: nat, byteLimit: nat, files: map<Path, string>, found: Found,
      used: nat, visited: seq<Path>, path: Path)
    requires Progress(pr, files, found) && Counted(pr, files, used, visited) && path in found.queue && path !in files
    requires Visit(pr, path).Err? || |files| >= fileLimit || used + SizeOf(pr, path) > byteLimit
    ensures Hopeless(pr, fileLimit, byteLimit)
  {
    forall other: set<Path> | Closed(pr, other)
      ensures |other| > |files| && Total(pr, other) >= Total(pr, files.Keys) + SizeOf(pr, path)
    {
      var more := files.Keys + {path};
      TotalGrows(pr, more, other);
      TotalWithout(pr, more, path);
      assert more - {path} == files.Keys && |files.Keys| == |files|;
    }
  }

  /** `_read_python`: the text of a file of at most `remaining` bytes. */
  method ReadPython(pr: Project, path: Path, remaining: nat) returns (r: Outcome<string>)
    ensures r.Ok? ==> Readable(pr, path) && SizeOf(pr, path) <= remaining
    ensures r.Ok? ==> Decode(pr.entries[path].raw) == Some(r.value) && |Encode(r.value)| <= remaining
    ensures r.Err? ==> Keepable(r.code) && (Visit(pr, path).Err? || SizeOf(pr, path) > remaining)
  {
    if !Readable(pr, path) {
      return Err(UNSUPPORTED);
    }
    var raw := pr.entries[path].raw;
    if |raw| > remaining {
      return Err(TOO_LARGE);
    }
    var source := Decode(raw);
    if source.None? {
      return Err(UNSUPPORTED);
    }
    EncodeOfDecode(raw);
    return Ok(source.value);
  }

  /** The body of the worklist loop for one new file: read it, parse it, and queue its imports. */
  method TakeFile(pr: Project, path: Path, found: Found, remaining: nat) returns (r: Outcome<(string, Found)>)
    ensures r.Ok? ==> Visit(pr, path).Ok? && SizeOf(pr, path) <= remaining
    ensures r.Ok? ==> r.value == (Visit(pr, path).value.0, Union(found, Visit(pr, path).value.1))
    ensures r.Err? ==> Keepable(r.code) && (Visit(pr, path).Err? || SizeOf(pr, path) > remaining)
  {
    var source := ReadPython(pr, path, remaining);
    if source.Err? {
      return Err(source.code);
    }
    var needs := pr.scan(path, source.value);
    if needs.None? {
      return Err(UNSUPPORTED);
    }
    var all := FollowImports(pr, path, needs.value, found.queue, found.external, found.namespaces);
    if all.Err? {
      QueuedIsPresent(pr, path, needs.value);
      return Err(all.code);
    }
    return Ok((source.value, all.value));
  }

  /** The checks after the worklist: namespaces have files, external modules have pins, not too many. */
  method Pin(pr: Project, files: set<Path>, external: set<string>, namespaces: set<Path>)
    returns (r: Outcome<set<string>>)
    ensures r.Ok? <==>
      Inhabited(files, namespaces) && Pinnable(pr, external) && |Requirements(pr, external)| <= MAX_REQUIREMENTS
    ensures if r.Ok? then r.value == Requirements(pr, external) else Keepable(r.code)
  {
    if exists d <- namespaces :: forall p <- files :: !Below(p, d) {
      return Err(MISSING);
    }
    if exists m <- external :: m !in pr.stdlib && pr.pins(m).None? {
      return Err(MISSING);
    }
    var pins := Requirements(pr, external);
    if |pins| > MAX_REQUIREMENTS {
      return Err(TOO_LARGE);
    }
    return Ok(pins);
  }

  /** An empty worklist: the files are the closure. */
  lemma ProgressDone(pr: Project, files: map<Path, string>, found: Found)
    requires Progress(pr, files, found) && found.queue == {}
    ensures found.external == Externals(pr, files.Keys) && found.namespaces == Namespaces(pr, files.Keys)
    ensures IsClosure(pr, files.Keys)
    ensures forall p <- files :: Decode(pr.entries[p].raw) == Some(files[p])
  {
  }

  lemma ClosureIsUnique(pr: Project, fileLimit: nat, byteLimit: nat, files: set<Path>)
    requires IsClosure(pr, files) && !Packable(pr, fileLimit, byteLimit, files)
    ensures Hopeless(pr, fileLimit, byteLimit)
  {
    forall other | Packable(pr, fileLimit, byteLimit, other)
      ensures other == files
    {
    }
  }

  /** The worklist between two turns, within the limits. */
  ghost predicate Going(pr: Project, fileLimit: nat, byteLimit: nat, files: map<Path, string>, found: Found, used: nat,
      visited: seq<Path>)
  {
    && Progress(pr, files, found) && Counted(pr, files, used, visited)
    && |files| <= fileLimit && used <= byteLimit
  }

  /** A new file: it is taken, or there is no package. */
  method TakeNext(pr: Project, fileLimit: nat, byteLimit: nat, files: map<Path, string>, found: Found, used: nat,
      ghost visited: seq<Path>, path: Path)
    returns (r: Outcome<(map<Path, string>, Found, nat)>)
    requires Going(pr, fileLimit, byteLimit, files, found, used, visited) && path in found.queue && path !in files
    ensures r.Ok? ==>
      var (files', found', used') := r.value;
      && Going(pr, fileLimit, byteLimit, files', found', used', visited + [path])
      && Remaining(pr, files') < Remaining(pr, files)
    ensures r.Err? ==> Keepable(r.code) && Hopeless(pr, fileLimit, byteLimit)
  {
    hide Visit, Total, Decode, Progress, Counted, Remaining, Union, SizeOf, Hopeless, Keepable;
    if |files| >= fileLimit {
      NoPackage(pr, fileLimit, byteLimit, files, found, used, visited, path);
      LocalCodes();
      return Err(TOO_LARGE);
    }
    var remaining: nat := byteLimit - used;
    var size := SizeOf(pr, path);
    var taken := TakeFile(pr, path, found.(queue := found.queue - {path}), remaining);
    if taken.Err? {
      NoPackage(pr, fileLimit, byteLimit, files, found, used, visited, path);
      return Err(taken.code);
    }
    var (source, more) := taken.value;
    ProgressStep(pr, files, found, path);
    CountedStep(pr, files, used, visited, path, source);
    RemainingStep(pr, files, found, path, source);
    r := Ok((files[path := source], more, used + size));
  }

  /**
   * The worklist loop. The next file is any queued one, so what follows holds for the order the
   * client takes and for every other. `visited` are the files that were opened.
   */
  method Collect(pr: Project, fileLimit: nat, byteLimit: nat)
    returns (r: Outcome<(map<Path, string>, Found)>, ghost visited: seq<Path>)
    ensures r.Ok? ==>
      var (files, found) := r.value;
      && Progress(pr, files, found) && found.queue == {}
      && |files| <= fileLimit && Total(pr, files.Keys) <= byteLimit
      && Once(visited, files.Keys)
    ensures r.Err? ==> Keepable(r.code) && Hopeless(pr, fileLimit, byteLimit)
    ensures NoRepeats(visited)
  {
    hide Visit, Total, Decode, Progress, Counted, NoRepeats, Once, Remaining, Union, SizeOf, Hopeless, Keepable;
    visited := [];
    Nothing(pr);
    var files: map<Path, string> := map[];
    var found := Found({Start(pr)}, {}, {});
    var used: nat := 0;
    ProgressStart(pr);
    while found.queue != {}
      invariant Going(pr, fileLimit, byteLimit, files, found, used, visited)
      decreases Remaining(pr, files), |found.queue|
    {
      var path :| path in found.queue;
      if path in files {
        ProgressAgain(pr, files, found, path);
        found := found.(queue := found.queue - {path});
      } else {
        CountedFacts(pr, files, used, visited);
        var taken := TakeNext(pr, fileLimit, byteLimit, files, found, used, visited, path);
        if taken.Err? {
          return Err(taken.code), visited;
        }
        files, found, used := taken.value.0, taken.value.1, taken.value.2;
        visited := visited + [path];
      }
    }
    CountedFacts(pr, files, used, visited);
    return Ok((files, found)), visited;
  }

  /**
   * `package_script`: a package if and only if there is one within the limits, and every file of it
   * is opened exactly once.
   */
  method PackageScript(pr: Project, fileLimit: nat, byteLimit: nat)
    returns (r: Outcome<Package>, ghost visited: seq<Path>)
    ensures r.Ok? ==> IsPackage(pr, fileLimit, byteLimit, r.value) && Once(visited, r.value.files.Keys)
    ensures r.Err? ==> Keepable(r.code) && Hopeless(pr, fileLimit, byteLimit)
    ensures NoRepeats(visited)
  {
    hide Visit, Total, Externals, Namespaces, Requirements, Inhabited, Pinnable, Decode, Progress, Closed, IsClosure;
    hide NoRepeats, Once, Hopeless, Keepable;
    if !HasPySuffix(pr.entry) {
      NoSuffix(pr, fileLimit, byteLimit);
      Nothing(pr);
      return Err(UNSUPPORTED), [];
    }
    var collected;
    collected, visited := Collect(pr, fileLimit, byteLimit);
    if collected.Err? {
      return Err(collected.code), visited;
    }
    var (files, found) := collected.value;
    ProgressDone(pr, files, found);
    var pins := Pin(pr, files.Keys, found.external, found.namespaces);
    if pins.Err? {
      ClosureIsUnique(pr, fileLimit, byteLimit, files.Keys);
      return Err(pins.code), visited;
    }
    return Ok(Package(files, pins.value)), visited;
  }
}
