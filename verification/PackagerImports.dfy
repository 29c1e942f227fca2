// What an import needs, told by what exists beside the entry script, and what that makes of a package
// (src/deepintshield/agentic/managed_execution.py, `package_script`).

module PackagerImports {
  import opened Common
  import opened Utf8
  import opened Packager

  // ---------------------------------------------------------------------------------------------
  // What a dotted name stands for
  // ---------------------------------------------------------------------------------------------

  /** There is a file of that path, or a link, dangling or not. */
  predicate Exists(pr: Project, q: Path) {
    q in pr.entries || q in pr.links
  }

  predicate WellNamed(pr: Project, parts: seq<string>) {
    parts != [] && forall part <- parts :: pr.identifier(part)
  }

  function ModuleFile(parts: seq<string>): Path
    requires parts != []
  {
    parts[|parts| - 1 := parts[|parts| - 1] + ".py"]
  }

  function PackageFile(parts: seq<string>): Path {
    parts + ["__init__.py"]
  }

  /** A module of that name wins over a package, and a package over a directory. */
  predicate OfModule(pr: Project, parts: seq<string>) {
    parts != [] && Exists(pr, ModuleFile(parts))
  }

  predicate OfPackage(pr: Project, parts: seq<string>) {
    parts != [] && !OfModule(pr, parts) && Exists(pr, PackageFile(parts))
  }

  predicate OfFolder(pr: Project, parts: seq<string>) {
    && parts != [] && !OfModule(pr, parts) && !OfPackage(pr, parts)
    && parts in pr.entries && pr.entries[parts] == Directory
  }

  predicate OfNothing(pr: Project, parts: seq<string>) {
    parts != [] && !OfModule(pr, parts) && !OfPackage(pr, parts) && !OfFolder(pr, parts)
  }

  /** The top-level name is one of an installed distribution or of the standard library. */
  predicate Installed(pr: Project, parts: seq<string>) {
    parts != [] && (parts[0] in pr.distributions || parts[0] in pr.stdlib)
  }

  /** Nothing beside the script has the top-level name. */
  predicate NothingLocal(pr: Project, parts: seq<string>) {
    parts != [] && [parts[0]] !in pr.entries && [parts[0] + ".py"] !in pr.entries
  }

  /** The import can be taken. */
  predicate Good(pr: Project, parts: seq<string>, optional: bool) {
    && WellNamed(pr, parts)
    && (OfFolder(pr, parts) ==> parts !in pr.links)
    && (OfNothing(pr, parts) ==> optional || NothingLocal(pr, parts))
  }

  predicate IsNamespace(pr: Project, parts: seq<string>) {
    OfFolder(pr, parts) && !Installed(pr, parts)
  }

  predicate IsExternal(pr: Project, parts: seq<string>, optional: bool) {
    (OfFolder(pr, parts) && Installed(pr, parts)) || (OfNothing(pr, parts) && !optional)
  }

  /** The name stands for something beside the script. */
  predicate IsLocal(pr: Project, parts: seq<string>) {
    OfModule(pr, parts) || OfPackage(pr, parts) || IsNamespace(pr, parts)
  }

  /** The `__init__.py` of a package around the name. */
  predicate Around(pr: Project, parts: seq<string>, q: Path) {
    exists i | 1 <= i < |parts| :: q == PackageFile(parts[..i]) && Exists(pr, q)
  }

  /** The file comes with an import of the name. */
  predicate Brings(pr: Project, parts: seq<string>, q: Path) {
    || (OfModule(pr, parts) && q == ModuleFile(parts))
    || (OfPackage(pr, parts) && q == PackageFile(parts))
    || (IsLocal(pr, parts) && Around(pr, parts, q))
  }

  lemma InitializersAreAround(pr: Project, parts: seq<string>, q: Path)
    ensures q in Initializers(pr, parts) <==> Around(pr, parts, q)
  {
    if q in Initializers(pr, parts) {
      var i :| 1 <= i < |parts| && q == parts[..i] + ["__init__.py"] && Present(pr, q);
      assert q == PackageFile(parts[..i]);
    }
  }

  /** Resolving a name gives what the name stands for. */
  lemma ResolveSays(pr: Project, parts: seq<string>, optional: bool)
    ensures var r := Resolve(pr, parts, optional);
      && (r.Ok? <==> Good(pr, parts, optional))
      && (r.Err? ==> r.code == if !WellNamed(pr, parts) || OfFolder(pr, parts) then UNSUPPORTED else MISSING)
  {
    hide Initializers;
    if parts != [] {
      var n := |parts| - 1;
      assert ModuleFile(parts) == parts[..n] + [parts[n] + ".py"];
    }
  }

  lemma ResolveBrings(pr: Project, parts: seq<string>, optional: bool, q: Path)
    requires Resolve(pr, parts, optional).Ok?
    ensures q in Resolve(pr, parts, optional).value.queue <==> Brings(pr, parts, q)
    ensures q in Resolve(pr, parts, optional).value.namespaces <==> IsNamespace(pr, parts) && q == parts
  {
    InitializersAreAround(pr, parts, q);
    hide Initializers, Around;
    var n := |parts| - 1;
    assert ModuleFile(parts) == parts[..n] + [parts[n] + ".py"];
  }

  lemma ResolveLeaves(pr: Project, parts: seq<string>, optional: bool, x: string)
    requires Resolve(pr, parts, optional).Ok?
    ensures parts != []
    ensures x in Resolve(pr, parts, optional).value.external <==> IsExternal(pr, parts, optional) && x == parts[0]
  {
    hide Initializers;
    var n := |parts| - 1;
    assert ModuleFile(parts) == parts[..n] + [parts[n] + ".py"];
  }

  // ---------------------------------------------------------------------------------------------
  // The imports of a file
  // ---------------------------------------------------------------------------------------------

  /** The name an import means in a file: as it stands, or below a directory around the file. */
  predicate Means(path: Path, need: Need, parts: seq<string>) {
    match need
    case Absolute(name, _) => parts == name
    case Relative(level, name, _) => 1 <= level < |path| && parts == path[..|path| - level] + name
    case Refused => false
  }

  predicate IsOptional(need: Need) {
    !need.Refused? && need.optional
  }

  /** The imports of a file that can be read and parsed. */
  function NeedsOf(pr: Project, p: Path): Option<seq<Need>> {
    if Readable(pr, p) && Decode(pr.entries[p].raw).Some? then pr.scan(p, Decode(pr.entries[p].raw).value) else None
  }

  ghost predicate Imports(pr: Project, p: Path, parts: seq<string>, optional: bool) {
    NeedsOf(pr, p).Some? && exists need <- NeedsOf(pr, p).value :: Means(p, need, parts) && optional == IsOptional(need)
  }

  /** An import means some name that can be taken. */
  ghost predicate Takes(pr: Project, p: Path, need: Need) {
    exists parts :: Means(p, need, parts) && Good(pr, parts, IsOptional(need))
  }

  /** A file that can be packaged. */
  ghost predicate Sound(pr: Project, p: Path) {
    NeedsOf(pr, p).Some? && forall need <- NeedsOf(pr, p).value :: Takes(pr, p, need)
  }

  lemma NameSays(pr: Project, path: Path, need: Need, parts: seq<string>)
    requires path != []
    ensures Means(path, need, parts) <==> Named(path, need) == Some(parts)
  {
    if need.Relative? && 1 <= need.level < |path| {
      assert path[..|path| - 1][..|path| - need.level] == path[..|path| - need.level];
    }
  }

  lemma FollowSays(pr: Project, path: Path, need: Need)
    requires path != []
    ensures Follow(pr, path, need).Ok? <==> Takes(pr, path, need)
    ensures Follow(pr, path, need).Ok? ==>
      var name := Named(path, need).value;
      Follow(pr, path, need) == Resolve(pr, name, IsOptional(need)) && Means(path, need, name)
  {
    hide Resolve, Named, Means, Good;
    forall parts
      ensures Means(path, need, parts) <==> Named(path, need) == Some(parts)
    {
      NameSays(pr, path, need, parts);
    }
    forall parts
      ensures Resolve(pr, parts, IsOptional(need)).Ok? <==> Good(pr, parts, IsOptional(need))
    {
      ResolveSays(pr, parts, IsOptional(need));
    }
    assert need.Refused? ==> Named(path, need).None? by {
      RefusedIsUnnamed(path, need);
    }
  }

  lemma RefusedIsUnnamed(path: Path, need: Need)
    requires path != []
    ensures need.Refused? ==> Named(path, need).None?
  {
  }

  /** Some import of the list brings a file, an external module, a namespace. */
  predicate SomeBrings(pr: Project, path: Path, needs: seq<Need>, q: Path)
    requires path != []
  {
    exists need <- needs :: Follow(pr, path, need).Ok? && q in Follow(pr, path, need).value.queue
  }

  predicate SomeLeaves(pr: Project, path: Path, needs: seq<Need>, x: string)
    requires path != []
  {
    exists need <- needs :: Follow(pr, path, need).Ok? && x in Follow(pr, path, need).value.external
  }

  predicate SomeSpans(pr: Project, path: Path, needs: seq<Need>, q: Path)
    requires path != []
  {
    exists need <- needs :: Follow(pr, path, need).Ok? && q in Follow(pr, path, need).value.namespaces
  }

  lemma {:induction false} FollowAllSays(pr: Project, path: Path, needs: seq<Need>)
    requires path != []
    ensures FollowAll(pr, path, needs).Ok? <==> forall need <- needs :: Follow(pr, path, need).Ok?
    ensures FollowAll(pr, path, needs).Ok? ==>
      var all := FollowAll(pr, path, needs).value;
      && (forall q :: q in all.queue <==> SomeBrings(pr, path, needs, q))
      && (forall x :: x in all.external <==> SomeLeaves(pr, path, needs, x))
      && (forall q :: q in all.namespaces <==> SomeSpans(pr, path, needs, q))
  {
    hide Follow;
    if needs != [] {
      var most, last := needs[..|needs| - 1], needs[|needs| - 1];
      FollowAllSays(pr, path, most);
      assert needs == most + [last];
      assert forall need :: need in needs <==> need in most || need == last;
    }
  }

  // ---------------------------------------------------------------------------------------------
  // What a file needs
  // ---------------------------------------------------------------------------------------------

  /** A file that comes with an import of a file. */
  ghost predicate Wants(pr: Project, p: Path, q: Path) {
    exists parts, optional :: Imports(pr, p, parts, optional) && Brings(pr, parts, q)
  }

  /** An external top-level name, or a namespace, that comes with one. */
  ghost predicate Leaves(pr: Project, p: Path, x: string) {
    exists parts, optional ::
      Imports(pr, p, parts, optional) && IsExternal(pr, parts, optional) && parts != [] && x == parts[0]
  }

  ghost predicate Spans(pr: Project, p: Path, q: Path) {
    exists optional :: Imports(pr, p, q, optional) && IsNamespace(pr, q)
  }

  lemma VisitSays(pr: Project, p: Path)
    ensures Visit(pr, p).Ok? <==> Sound(pr, p)
    ensures Visit(pr, p).Ok? ==>
      && Visit(pr, p).value == (Decode(pr.entries[p].raw).value, FollowAll(pr, p, NeedsOf(pr, p).value).value)
      && FollowAll(pr, p, NeedsOf(pr, p).value).Ok?
  {
    hide FollowAll, Decode;
    if NeedsOf(pr, p).Some? {
      FollowAllSays(pr, p, NeedsOf(pr, p).value);
      hide Takes, Follow;
      forall need <- NeedsOf(pr, p).value
        ensures Follow(pr, p, need).Ok? <==> Takes(pr, p, need)
      {
        FollowSays(pr, p, need);
      }
    }
  }

  /** An import of a sound file, and the name that it means. */
  lemma ImportFollows(pr: Project, p: Path, need: Need, parts: seq<string>)
    requires Sound(pr, p) && need in NeedsOf(pr, p).value && Means(p, need, parts)
    ensures p != [] && Follow(pr, p, need).Ok? && Follow(pr, p, need) == Resolve(pr, parts, IsOptional(need))
  {
    hide Follow, Resolve, Means;
    assert Takes(pr, p, need);
    FollowSays(pr, p, need);
    NameSays(pr, p, need, parts);
  }

  lemma NeedMeans(pr: Project, p: Path, need: Need) returns (parts: seq<string>)
    requires Sound(pr, p) && need in NeedsOf(pr, p).value
    ensures Means(p, need, parts) && Imports(pr, p, parts, IsOptional(need))
  {
    hide Means;
    assert Takes(pr, p, need);
    parts :| Means(p, need, parts) && Good(pr, parts, IsOptional(need));
  }

  lemma QueueSays(pr: Project, p: Path, q: Path)
    requires Sound(pr, p)
    ensures Visit(pr, p).Ok? && (q in Visit(pr, p).value.1.queue <==> Wants(pr, p, q))
  {
    hide Visit, FollowAll, Follow, Resolve, Means, Sound, Good, Brings, NeedsOf, Readable;
    VisitSays(pr, p);
    assert p != [] && NeedsOf(pr, p).Some? by {
      SoundIsParsed(pr, p);
    }
    var needs := NeedsOf(pr, p).value;
    FollowAllSays(pr, p, needs);
    if SomeBrings(pr, p, needs, q) {
      var need :| need in needs && Follow(pr, p, need).Ok? && q in Follow(pr, p, need).value.queue;
      var parts := NeedMeans(pr, p, need);
      ImportFollows(pr, p, need, parts);
      ResolveBrings(pr, parts, IsOptional(need), q);
    }
    if Wants(pr, p, q) {
      var parts, optional :| Imports(pr, p, parts, optional) && Brings(pr, parts, q);
      var need :| need in needs && Means(p, need, parts) && optional == IsOptional(need);
      ImportFollows(pr, p, need, parts);
      ResolveBrings(pr, parts, optional, q);
    }
  }

  lemma SoundIsParsed(pr: Project, p: Path)
    requires Sound(pr, p)
    ensures p != [] && NeedsOf(pr, p).Some?
  {
  }

  lemma ExternalSays(pr: Project, p: Path, x: string)
    requires Sound(pr, p)
    ensures Visit(pr, p).Ok? && (x in Visit(pr, p).value.1.external <==> Leaves(pr, p, x))
  {
    hide Visit, FollowAll, Follow, Resolve, Means, Sound, Good, IsExternal, NeedsOf, Readable;
    VisitSays(pr, p);
    assert p != [] && NeedsOf(pr, p).Some? by {
      SoundIsParsed(pr, p);
    }
    var needs := NeedsOf(pr, p).value;
    FollowAllSays(pr, p, needs);
    if SomeLeaves(pr, p, needs, x) {
      var need :| need in needs && Follow(pr, p, need).Ok? && x in Follow(pr, p, need).value.external;
      var parts := NeedMeans(pr, p, need);
      ImportFollows(pr, p, need, parts);
      ResolveLeaves(pr, parts, IsOptional(need), x);
    }
    if Leaves(pr, p, x) {
      var parts, optional :|
        Imports(pr, p, parts, optional) && IsExternal(pr, parts, optional) && parts != [] && x == parts[0];
      var need :| need in needs && Means(p, need, parts) && optional == IsOptional(need);
      ImportFollows(pr, p, need, parts);
      ResolveLeaves(pr, parts, optional, x);
    }
  }

  lemma NamespaceSays(pr: Project, p: Path, q: Path)
    requires Sound(pr, p)
    ensures Visit(pr, p).Ok? && (q in Visit(pr, p).value.1.namespaces <==> Spans(pr, p, q))
  {
    hide Visit, FollowAll, Follow, Resolve, Means, Sound, Good, IsNamespace, NeedsOf, Readable;
    VisitSays(pr, p);
    assert p != [] && NeedsOf(pr, p).Some? by {
      SoundIsParsed(pr, p);
    }
    var needs := NeedsOf(pr, p).value;
    FollowAllSays(pr, p, needs);
    if SomeSpans(pr, p, needs, q) {
      var need :| need in needs && Follow(pr, p, need).Ok? && q in Follow(pr, p, need).value.namespaces;
      var parts := NeedMeans(pr, p, need);
      ImportFollows(pr, p, need, parts);
      ResolveBrings(pr, parts, IsOptional(need), q);
    }
    if Spans(pr, p, q) {
      var optional :| Imports(pr, p, q, optional) && IsNamespace(pr, q);
      var need :| need in needs && Means(p, need, q) && optional == IsOptional(need);
      ImportFollows(pr, p, need, q);
      ResolveBrings(pr, q, optional, q);
    }
  }

  // ---------------------------------------------------------------------------------------------
  // Packages
  // ---------------------------------------------------------------------------------------------

  /** The entry script and sound files, with every file that one of them wants. */
  ghost predicate SelfContained(pr: Project, files: set<Path>) {
    && Start(pr) in files
    && (forall p <- files :: Sound(pr, p))
    && forall p, q | p in files && Wants(pr, p, q) :: q in files
  }

  lemma ClosedSays(pr: Project, files: set<Path>)
    ensures Closed(pr, files) <==> SelfContained(pr, files)
  {
    hide Visit, Sound, Wants;
    forall p <- files
      ensures Visit(pr, p).Ok? <==> Sound(pr, p)
    {
      VisitSays(pr, p);
    }
    forall p, q | p in files && Sound(pr, p)
      ensures Visit(pr, p).Ok? && (q in Visit(pr, p).value.1.queue <==> Wants(pr, p, q))
    {
      QueueSays(pr, p, q);
    }
  }

  /** The files of a closure are the entry script and what some of them want. */
  lemma ClosureIsWanted(pr: Project, files: set<Path>, q: Path)
    requires IsClosure(pr, files) && q in files && q != Start(pr)
    ensures exists p <- files :: Wants(pr, p, q)
  {
    hide Closed, Sound, Wants;
    ClosedSays(pr, files);
    if forall p <- files :: !Wants(pr, p, q) {
      var fewer := files - {q};
      assert !(files <= fewer);
      assert SelfContained(pr, fewer);
      ClosedSays(pr, fewer);
    }
  }

  /** What an import of a packaged file has to find in the package. */
  ghost predicate Served(pr: Project, package: Package, parts: seq<string>, optional: bool) {
    && Good(pr, parts, optional)
    && (OfModule(pr, parts) ==> ModuleFile(parts) in package.files)
    && (OfPackage(pr, parts) ==> PackageFile(parts) in package.files)
    && (IsNamespace(pr, parts) ==> exists q <- package.files :: Below(q, parts))
    && (IsLocal(pr, parts) ==>
      forall i | 1 <= i < |parts| && Exists(pr, PackageFile(parts[..i])) :: PackageFile(parts[..i]) in package.files)
    && (IsExternal(pr, parts, optional) ==>
      || parts[0] in pr.stdlib
      || (pr.pins(parts[0]).Some? && pr.pins(parts[0]).value <= package.requirements))
  }

  /** Every import of a packaged file finds in the package what it stands for. */
  lemma ImportsAreServed(pr: Project, fileLimit: nat, byteLimit: nat, package: Package, p: Path,
      parts: seq<string>, optional: bool)
    requires IsPackage(pr, fileLimit, byteLimit, package) && p in package.files && Imports(pr, p, parts, optional)
    ensures Served(pr, package, parts, optional)
  {
    var files := package.files.Keys;
    hide Closed, Sound, Imports, Inhabited, Externals, Namespaces, Requirements, Pinnable, Good, OfModule, OfPackage;
    hide OfFolder, OfNothing, Exists, Decode;
    ClosedSays(pr, files);
    ImportIsGood(pr, p, parts, optional);
    forall q | Brings(pr, parts, q)
      ensures q in package.files
    {
      assert Wants(pr, p, q);
    }
    forall i | 1 <= i < |parts| && IsLocal(pr, parts) && Exists(pr, PackageFile(parts[..i]))
      ensures PackageFile(parts[..i]) in package.files
    {
      assert Around(pr, parts, PackageFile(parts[..i]));
      assert Brings(pr, parts, PackageFile(parts[..i]));
    }
    if IsNamespace(pr, parts) {
      assert Spans(pr, p, parts);
      NamespaceIsInhabited(pr, files, p, parts);
    }
    if IsExternal(pr, parts, optional) {
      assert parts != [] by {
        ExternalIsNamed(pr, parts, optional);
      }
      assert Leaves(pr, p, parts[0]);
      ExternalIsPinned(pr, files, p, parts[0]);
    }
  }

  lemma ExternalIsNamed(pr: Project, parts: seq<string>, optional: bool)
    requires IsExternal(pr, parts, optional)
    ensures parts != []
  {
  }

  lemma ImportIsGood(pr: Project, p: Path, parts: seq<string>, optional: bool)
    requires Sound(pr, p) && Imports(pr, p, parts, optional)
    ensures Good(pr, parts, optional)
  {
    hide Good, Resolve, Follow, Means;
    var need :| need in NeedsOf(pr, p).value && Means(p, need, parts) && optional == IsOptional(need);
    ImportFollows(pr, p, need, parts);
    ResolveSays(pr, parts, optional);
  }

  lemma NamespaceIsInhabited(pr: Project, files: set<Path>, p: Path, q: Path)
    requires p in files && Sound(pr, p) && Spans(pr, p, q) && Inhabited(files, Namespaces(pr, files))
    ensures exists f <- files :: Below(f, q)
  {
    hide Visit, Sound, Spans, Below;
    NamespaceSays(pr, p, q);
    assert q in Namespaces(pr, files);
  }

  lemma ExternalIsPinned(pr: Project, files: set<Path>, p: Path, x: string)
    requires p in files && Sound(pr, p) && Leaves(pr, p, x) && Pinnable(pr, Externals(pr, files))
    ensures x in pr.stdlib
      || (pr.pins(x).Some? && pr.pins(x).value <= Requirements(pr, Externals(pr, files)))
  {
    hide Visit, Sound, Leaves;
    ExternalSays(pr, p, x);
    assert x in Externals(pr, files);
  }

  /** Nothing else is packaged: a file is the entry script, or comes with an import of a packaged file. */
  lemma FilesAreImported(pr: Project, fileLimit: nat, byteLimit: nat, package: Package, q: Path)
    requires IsPackage(pr, fileLimit, byteLimit, package) && q in package.files
    ensures q == Start(pr) || exists p, parts, optional ::
      p in package.files && Imports(pr, p, parts, optional) && Brings(pr, parts, q)
  {
    hide Closed, Imports, Brings, Inhabited, Externals, Namespaces, Requirements, Pinnable, Decode;
    if q != Start(pr) {
      ClosureIsWanted(pr, package.files.Keys, q);
    }
  }

  /** And a pin is one of an external module that a packaged file imports. */
  lemma PinsAreImported(pr: Project, fileLimit: nat, byteLimit: nat, package: Package, pin: string)
    requires IsPackage(pr, fileLimit, byteLimit, package) && pin in package.requirements
    ensures exists p, parts, optional ::
      && p in package.files && Imports(pr, p, parts, optional) && IsExternal(pr, parts, optional)
      && parts[0] !in pr.stdlib && pr.pins(parts[0]).Some? && pin in pr.pins(parts[0]).value
  {
    var files := package.files.Keys;
    hide Closed, Imports, Inhabited, Namespaces, Pinnable, Decode, Visit, Sound, IsExternal;
    var x :| x in Externals(pr, files) && x !in pr.stdlib && pr.pins(x).Some? && pin in pr.pins(x).value;
    var p :| p in files && Visit(pr, p).Ok? && x in Visit(pr, p).value.1.external;
    VisitSays(pr, p);
    ExternalSays(pr, p, x);
  }

  /** A packaged file is a regular file beside the script, reached over no link, and its text is what is sent. */
  lemma FilesAreRegular(pr: Project, fileLimit: nat, byteLimit: nat, package: Package, p: Path)
    requires IsPackage(pr, fileLimit, byteLimit, package) && p in package.files
    ensures p in pr.entries && pr.entries[p].File? && !pr.linkedRoot
    ensures forall i | 1 <= i <= |p| :: p[..i] !in pr.links
    ensures "" !in p && "." !in p && ".." !in p
    ensures Encode(package.files[p]) == pr.entries[p].raw
  {
    hide Decode, Encode, FollowAll, Inhabited, Pinnable, Requirements, Externals, Namespaces;
    assert Visit(pr, p).Ok?;
    EncodeOfDecode(pr.entries[p].raw);
  }
}
