// Removing a run's directory without recursion, with one directory open at a time
// (src/deepintshield/agentic/managed_remote.py, `_remove_remaining` and `_empty`).

module RemoveTree {
  import opened Common

  /** The names from the run's directory down; that directory itself is the empty path. */
  type Path = seq<string>

  /**
   * What the walk finds. `all`: the entries; `dirs`: the directories among them. What fails, each
   * alone: `stuck`: the removal; `untold`: telling whether it is a directory; `closed`: entering it.
   * What fails the walk: `unread`: listing a directory; `unknown`: asking which directory is open;
   * `upless`: opening the one above it.
   */
  datatype Plan = Plan(
    all: set<Path>, dirs: set<Path>, stuck: set<Path>, untold: set<Path>, closed: set<Path>,
    unread: set<Path>, unknown: set<Path>, upless: set<Path>)

  function Parent(p: Path): Path
    requires p != []
  {
    p[..|p| - 1]
  }

  predicate HasChild(entries: set<Path>, directory: Path) {
    exists p <- entries :: p != [] && Parent(p) == directory
  }

  /** A tree: the root is a directory, and everything else lies in one. */
  predicate Tree(t: Plan) {
    && [] in t.all && [] in t.dirs
    && forall p <- t.all | p != [] :: Parent(p) in t.all && Parent(p) in t.dirs
  }

  // ---------------------------------------------------------------------------------------------
  // Reference: what cannot go
  // ---------------------------------------------------------------------------------------------

  /** Entries that stay where they are seen. */
  function Stuck(t: Plan): set<Path> {
    t.stuck + t.untold
  }

  /** The directories that are seen as such. */
  function Folders(t: Plan): set<Path> {
    t.dirs - t.untold
  }

  predicate Shut(t: Plan, d: Path) {
    d in t.all && d in t.dirs && (d in t.closed || d in t.untold)
  }

  /** Below a closed directory, or one itself. */
  predicate Sealed(t: Plan, p: Path) {
    exists d <- t.all :: d <= p && Shut(t, d)
  }

  /** It, or something below it, cannot be removed or not be entered. */
  predicate Held(t: Plan, p: Path) {
    exists q <- t.all :: p <= q && (q in Stuck(t) || Shut(t, q))
  }

  predicate Stays(t: Plan, p: Path) {
    Held(t, p) || Sealed(t, p)
  }

  lemma {:induction false} AncestorsExist(t: Plan, p: Path, a: Path)
    requires Tree(t) && p in t.all && a <= p
    ensures a in t.all && (a != p ==> a in t.dirs)
    decreases |p|
  {
    if a != p {
      AncestorsExist(t, Parent(p), a);
    }
  }

  /**
   * Deletion by recursion: a directory outside of closed ones stays exactly when its own removal
   * fails or some child of it stays.
   */
  lemma StaysByRecursion(t: Plan, p: Path)
    requires Tree(t) && p in t.all && p in t.dirs && !Sealed(t, p)
    ensures Stays(t, p) <==> p in t.stuck || exists c <- t.all :: c != [] && Parent(c) == p && Stays(t, c)
  {
    if Held(t, p) && p !in t.stuck {
      var q :| q in t.all && p <= q && (q in Stuck(t) || Shut(t, q));
      assert q != p;
      var c := q[..|p| + 1];
      AncestorsExist(t, q, c);
      assert c <= q && Held(t, c) && Parent(c) == p;
    }
    if c :| c in t.all && c != [] && Parent(c) == p && Stays(t, c) {
      ChildHolds(t, p, c);
    }
  }

  lemma Above(d: Path, c: Path)
    requires c != []
    ensures d <= c <==> d == c || d <= Parent(c)
  {
  }

  lemma ChildHolds(t: Plan, p: Path, c: Path)
    requires c in t.all && c != [] && Parent(c) == p && Stays(t, c) && !Sealed(t, p)
    ensures Held(t, p)
  {
  }

  /** A file outside of closed directories stays exactly when it cannot be told or removed. */
  lemma FileStays(t: Plan, p: Path)
    requires Tree(t) && p in t.all && p !in t.dirs && !Sealed(t, p)
    ensures Stays(t, p) <==> p in Stuck(t)
    ensures forall q <- t.all | p <= q :: q == p
  {
    forall q <- t.all | p <= q
      ensures q == p
    {
      AncestorsExist(t, q, p);
    }
  }

  // ---------------------------------------------------------------------------------------------
  // The invariant, over the open directory and the set of directories that wait
  // ---------------------------------------------------------------------------------------------

  predicate Waits(waiting: set<Path>, p: Path) {
    exists d <- waiting :: d <= p
  }

  /** The way to the open directory was entered; what waits are directories off that way. */
  predicate Entered(t: Plan, here: Path, waiting: set<Path>) {
    && here in t.all && here in t.dirs && !Sealed(t, here)
    && forall d <- waiting :: d in t.all && d in Folders(t) && d != [] && Parent(d) <= here && !(d <= here)
  }

  /** What waits, and the way to the open directory, is untouched; of the rest there is what stays. */
  predicate Right(t: Plan, entries: set<Path>, here: Path, waiting: set<Path>, p: Path) {
    if Waits(waiting, p) || p <= here then p in entries else p in entries <==> Stays(t, p)
  }

  predicate Half(t: Plan, entries: set<Path>, here: Path, waiting: set<Path>) {
    entries <= t.all && forall p <- t.all :: Right(t, entries, here, waiting, p)
  }

  /** Nothing waits below or above a directory that waits. */
  lemma WaitingApart(t: Plan, here: Path, waiting: set<Path>, c: Path, p: Path)
    requires Entered(t, here, waiting) && c in waiting
    ensures Waits(waiting - {c}, p) <==> Waits(waiting, p) && !(c <= p)
  {
    forall d <- waiting | d <= p && c <= p
      ensures d == c
    {
      Above(d, c);
      Above(c, d);
      assert d <= c || c <= d;
    }
    if Waits(waiting, p) && !(c <= p) {
      var d :| d in waiting && d <= p;
      assert d in waiting - {c};
    }
  }

  /** A directory that cannot be entered stays, and everything in it. */
  lemma SkipKeeps(t: Plan, entries: set<Path>, here: Path, waiting: set<Path>, c: Path)
    requires Entered(t, here, waiting) && Half(t, entries, here, waiting)
    requires c in waiting && c in t.closed
    ensures Entered(t, here, waiting - {c}) && Half(t, entries, here, waiting - {c})
  {
    forall p <- t.all
      ensures Right(t, entries, here, waiting - {c}, p)
    {
      assert Right(t, entries, here, waiting, p);
      WaitingApart(t, here, waiting, c, p);
      if c <= p {
        assert Shut(t, c) && Sealed(t, p) && Waits(waiting, p);
      }
    }
  }

  function Children(entries: set<Path>, c: Path): set<Path> {
    set p | p in entries && p != [] && Parent(p) == c
  }

  /** Entering a directory: its files go if they can, its directories wait. */
  lemma EnterKeeps(t: Plan, entries: set<Path>, here: Path, waiting: set<Path>, c: Path, entries': set<Path>)
    requires Tree(t) && Entered(t, here, waiting) && Half(t, entries, here, waiting)
    requires c in waiting && c !in t.closed && Parent(c) == here
    requires entries' == entries - (set p | p in Children(entries, c) && p !in t.dirs && p !in Stuck(t))
    ensures var waiting' := waiting - {c} + (Children(entries, c) * Folders(t));
      Entered(t, c, waiting') && Half(t, entries', c, waiting')
  {
    var below := Children(entries, c) * Folders(t);
    var waiting' := waiting - {c} + below;
    forall d <- t.all | d <= c
      ensures d == c || d <= here
    {
      Above(d, c);
    }
    assert !Sealed(t, c);
    forall q <- t.all | c <= q
      ensures q in entries
    {
      assert Right(t, entries, here, waiting, q) && Waits(waiting, q);
    }
    forall d <- below
      ensures c <= d && !(d <= c)
    {
    }
    forall p <- t.all
      ensures Right(t, entries', c, waiting', p)
    {
      assert Right(t, entries, here, waiting, p);
      WaitingApart(t, here, waiting, c, p);
      Above(p, c);
      assert Waits(waiting', p) <==> Waits(waiting - {c}, p) || Waits(below, p);
      if c <= p && c != p {
        EnterBelow(t, entries, c, p);
        assert p in entries' <==> p in entries && !Goes(t, c, p);
      } else if p != c {
        assert !Waits(below, p);
        assert p !in Children(entries, c);
      }
    }
    forall d <- waiting
      ensures d == c || (Parent(d) <= c && !(d <= c))
    {
      Above(d, c);
      assert here <= c;
    }
  }

  /** The child of `c` on the way to something below it. */
  lemma OnTheWay(t: Plan, c: Path, p: Path) returns (x: Path)
    requires Tree(t) && p in t.all && c <= p && c != p
    ensures x in t.all && x != [] && Parent(x) == c && c <= x <= p
    ensures (x == p || x in t.dirs) && (Parent(p) == c ==> x == p)
  {
    x := p[..|c| + 1];
    AncestorsExist(t, p, x);
  }

  /** What happens to a path when the directory `c` is entered. */
  predicate Goes(t: Plan, c: Path, p: Path) {
    p != [] && Parent(p) == c && p !in t.dirs && p !in Stuck(t)
  }

  /** Below the directory just entered, what does not wait with a directory there stays exactly when it must. */
  lemma EnterBelow(t: Plan, entries: set<Path>, c: Path, p: Path)
    requires Tree(t) && !Sealed(t, c) && forall q <- t.all | c <= q :: q in entries
    requires p in t.all && c <= p && c != p
    ensures Waits(Children(entries, c) * Folders(t), p) ==> !Goes(t, c, p)
    ensures !Waits(Children(entries, c) * Folders(t), p) ==> (Stays(t, p) <==> !Goes(t, c, p))
  {
    hide Held, Sealed, Tree;
    var x := OnTheWay(t, c, p);
    if x in Folders(t) {
      assert x in Children(entries, c) * Folders(t);
    } else {
      forall d <- Children(entries, c) * Folders(t)
        ensures !(d <= p)
      {
        Above(d, p);
        Above(x, p);
        SameChild(c, x, d, p);
      }
      if x in t.dirs {
        UntoldSeals(t, x, p);
      } else {
        FileBelow(t, c, p);
      }
    }
  }

  /** Two children of one directory on the way to one path are the same. */
  lemma SameChild(c: Path, x: Path, d: Path, p: Path)
    requires x != [] && d != [] && Parent(x) == c && Parent(d) == c && x <= p
    ensures d <= p ==> d == x
  {
  }

  lemma UntoldSeals(t: Plan, x: Path, p: Path)
    requires x in t.all && x in t.dirs && x in t.untold && x <= p
    ensures Sealed(t, p)
  {
  }

  lemma FileBelow(t: Plan, c: Path, p: Path)
    requires Tree(t) && p in t.all && p != [] && Parent(p) == c && p !in t.dirs && !Sealed(t, c)
    ensures Stays(t, p) <==> p in Stuck(t)
  {
    forall d <- t.all | d <= p && Shut(t, d)
      ensures d <= c
    {
      Above(d, p);
    }
    FileStays(t, p);
  }

  /** Leaving a directory in which nothing waits any more: it goes if it is empty and can. */
  lemma LeaveKeeps(t: Plan, entries: set<Path>, here: Path, waiting: set<Path>, entries': set<Path>)
    requires Tree(t) && Entered(t, here, waiting) && Half(t, entries, here, waiting) && here != []
    requires forall d <- waiting :: Parent(d) != here
    requires entries' == if here in t.stuck || HasChild(entries, here) then entries else entries - {here}
    ensures Entered(t, Parent(here), waiting) && Half(t, entries', Parent(here), waiting)
  {
    var up := Parent(here);
    assert forall d <- t.all | d <= up :: d <= here;
    HereStays(t, entries, here, waiting);
    forall d <- waiting
      ensures Parent(d) <= up && !(d <= up)
    {
      assert Parent(d) <= here && Parent(d) != here;
      assert d <= up ==> d <= here;
    }
    forall p <- t.all
      ensures Right(t, entries', up, waiting, p)
    {
      assert Right(t, entries, here, waiting, p);
      Above(p, here);
    }
  }

  /** Below the open directory, with nothing waiting in it, only what stays is left. */
  lemma HereStays(t: Plan, entries: set<Path>, here: Path, waiting: set<Path>)
    requires Tree(t) && Entered(t, here, waiting) && Half(t, entries, here, waiting)
    requires forall d <- waiting :: Parent(d) != here
    ensures Stays(t, here) <==> here in t.stuck || HasChild(entries, here)
  {
    StaysByRecursion(t, here);
    forall c <- t.all | c != [] && Parent(c) == here
      ensures c in entries <==> Stays(t, c)
    {
      assert Right(t, entries, here, waiting, c);
      forall d <- waiting
        ensures !(d <= c)
      {
        Above(d, c);
      }
    }
  }

  // ---------------------------------------------------------------------------------------------
  // What fails the walk
  // ---------------------------------------------------------------------------------------------

  predicate HasFolder(t: Plan, d: Path) {
    exists c <- Children(t.all, d) :: c in Folders(t)
  }

  /** A directory that the walk, once in it, cannot list, cannot ask for, or cannot leave. */
  predicate Breaks(t: Plan, d: Path) {
    d in t.unread || (d != [] && d in t.upless) || (d in t.unknown && HasFolder(t, d))
  }

  /** A directory outside of closed ones. */
  predicate Open(t: Plan, d: Path) {
    d in t.all && d in t.dirs && !Sealed(t, d)
  }

  /** Some directory that the walk comes to is such a one. */
  predicate Stops(t: Plan) {
    exists d <- t.all :: Open(t, d) && Breaks(t, d)
  }

  /** So far nothing failed: in what is done, and on the way to the open directory. */
  predicate Unbroken(t: Plan, here: Path, waiting: set<Path>, d: Path) {
    if Waits(waiting, d) then true
    else if d <= here then
      d !in t.unread && (d in t.unknown ==> Children(t.all, d) * Folders(t) <= waiting)
    else !Breaks(t, d)
  }

  ghost predicate Whole(t: Plan, here: Path, waiting: set<Path>) {
    forall d <- t.all | Open(t, d) :: Unbroken(t, here, waiting, d)
  }

  lemma WholeAtStart(t: Plan)
    requires Tree(t) && [] !in t.closed && [] !in t.untold && [] !in t.unread
    ensures Whole(t, [], Children(t.all, []) * Folders(t))
  {
    forall d <- t.all | Open(t, d)
      ensures Unbroken(t, [], Children(t.all, []) * Folders(t), d)
    {
      if d != [] {
        OpenWaits(t, [], d);
      }
    }
  }

  /** An open directory below another is waiting with one of the other's folders. */
  lemma OpenWaits(t: Plan, c: Path, d: Path)
    requires Tree(t) && Open(t, d) && c <= d && c != d
    ensures Waits(Children(t.all, c) * Folders(t), d)
  {
    hide Sealed;
    var x := OnTheWay(t, c, d);
    if x in t.untold {
      UntoldSeals(t, x, d);
    }
    assert x in Children(t.all, c) * Folders(t);
  }

  lemma WholeAfterSkip(t: Plan, here: Path, waiting: set<Path>, c: Path)
    requires Whole(t, here, waiting) && Entered(t, here, waiting) && c in waiting && c in t.closed
    requires here !in t.unknown && Parent(c) == here
    ensures Whole(t, here, waiting - {c})
  {
    forall d <- t.all | Open(t, d)
      ensures Unbroken(t, here, waiting - {c}, d)
    {
      assert Unbroken(t, here, waiting, d);
      WaitingApart(t, here, waiting, c, d);
      assert !(c <= d) by {
        assert c <= d ==> Shut(t, c) && Sealed(t, d);
      }
      if d != here {
        NoFolderOf(t, d, here, waiting, c);
      }
    }
  }

  /** The folder that is taken is not one of any other directory. */
  lemma NoFolderOf(t: Plan, d: Path, here: Path, waiting: set<Path>, c: Path)
    requires c != [] && Parent(c) == here && d != here
    ensures Children(t.all, d) * Folders(t) <= waiting ==> Children(t.all, d) * Folders(t) <= waiting - {c}
  {
  }

  lemma WholeAfterEnter(t: Plan, here: Path, waiting: set<Path>, c: Path)
    requires Tree(t) && Whole(t, here, waiting) && Entered(t, here, waiting) && c in waiting
    requires here !in t.unknown && Parent(c) == here && c !in t.unread
    ensures Whole(t, c, waiting - {c} + Children(t.all, c) * Folders(t))
  {
    var below := Children(t.all, c) * Folders(t);
    var waiting' := waiting - {c} + below;
    forall d <- t.all | Open(t, d)
      ensures Unbroken(t, c, waiting', d)
    {
      assert Unbroken(t, here, waiting, d);
      WaitingApart(t, here, waiting, c, d);
      Above(d, c);
      assert Waits(waiting', d) <==> Waits(waiting - {c}, d) || Waits(below, d);
      if c <= d && c != d {
        OpenWaits(t, c, d);
      } else if d != c && d != here {
        NoFolderOf(t, d, here, waiting, c);
      }
    }
  }

  lemma WholeAfterLeave(t: Plan, here: Path, waiting: set<Path>)
    requires Whole(t, here, waiting) && here != [] && here !in t.upless
    requires forall d <- waiting :: d != [] && Parent(d) != here
    ensures Whole(t, Parent(here), waiting)
  {
    forall d <- t.all | Open(t, d)
      ensures Unbroken(t, Parent(here), waiting, d)
    {
      assert Unbroken(t, here, waiting, d);
      Above(d, here);
      if d == here {
        NoFolders(t, here, waiting);
      }
    }
  }

  lemma NoFolders(t: Plan, here: Path, waiting: set<Path>)
    requires forall d <- waiting :: d != [] && Parent(d) != here
    ensures Children(t.all, here) * Folders(t) <= waiting ==> !HasFolder(t, here)
  {
  }

  lemma WholeAtEnd(t: Plan)
    requires Whole(t, [], {})
    ensures !Stops(t)
  {
    forall d <- t.all | Open(t, d)
      ensures !Breaks(t, d)
    {
      assert Unbroken(t, [], {}, d);
      NoFolders(t, d, {});
    }
  }

  /**
   * What is there when the walk is left before its end: the directory it was in and those above it, all
   * that waited, and of the rest what must stay.
   */
  ghost predicate LeftAt(t: Plan, entries: set<Path>, here: Path, waiting: set<Path>) {
    Entered(t, here, waiting) && Half(t, entries, here, waiting)
  }

  ghost predicate Abandoned(t: Plan, entries: set<Path>) {
    entries == t.all || exists here: Path, waiting: set<Path> :: LeftAt(t, entries, here, waiting)
  }

  predicate Exact(t: Plan, entries: set<Path>) {
    entries <= t.all && forall p <- t.all :: p in entries <==> Stays(t, p)
  }

  /** Then the directory itself is there, so nothing less is left than should be. */
  lemma RootIsThere(t: Plan, entries: set<Path>)
    requires Tree(t) && Abandoned(t, entries)
    ensures [] in entries && entries <= t.all && forall p <- t.all | Stays(t, p) :: p in entries
  {
  }

  // ---------------------------------------------------------------------------------------------
  // The walk
  // ---------------------------------------------------------------------------------------------

  /** The disk during the walk; nothing else touches it. */
  class Disk {
    const plan: Plan
    var entries: set<Path>

    constructor (plan: Plan)
      ensures this.plan == plan && entries == plan.all
    {
      this.plan := plan;
      entries := plan.all;
    }

    /** Remove a file or an empty directory; an error is not one. */
    method Remove(p: Path)
      modifies this
      ensures entries == if p in plan.stuck || HasChild(old(entries), p) then old(entries) else old(entries) - {p}
    {
      if p !in plan.stuck && !HasChild(entries, p) {
        entries := entries - {p};
      }
    }
  }

  predicate Distinct(names: seq<string>) {
    forall i, j | 0 <= i < j < |names| :: names[i] != names[j]
  }

  function Named(directory: Path, names: seq<string>): set<Path> {
    set name | name in names :: directory + [name]
  }

  /**
   * `_empty`: unlink everything in the open directory except its directories, and return their names;
   * an entry that cannot be told or removed is passed over. Only listing the directory can fail.
   */
  method Empty(disk: Disk, directory: Path) returns (folders: Option<seq<string>>)
    requires forall p <- Children(disk.entries, directory) | p !in disk.plan.dirs :: !HasChild(disk.entries, p)
    modifies disk
    ensures folders.None? <==> directory in disk.plan.unread
    ensures folders.None? ==> disk.entries == old(disk.entries)
    ensures folders.Some? ==>
      && Distinct(folders.value)
      && Named(directory, folders.value) == Children(old(disk.entries), directory) * Folders(disk.plan)
      && disk.entries == old(disk.entries)
        - (set p | p in Children(old(disk.entries), directory) && p !in disk.plan.dirs && p !in Stuck(disk.plan))
  {
    if directory in disk.plan.unread {
      return None;
    }
    var names: seq<string> := [];
    ghost var plan := disk.plan;
    var listing := Children(disk.entries, directory);
    ghost var seen: set<Path> := {};
    while listing != {}
      invariant seen + listing == Children(old(disk.entries), directory) && seen !! listing
      invariant Distinct(names) && Named(directory, names) == seen * Folders(plan)
      invariant disk.entries == old(disk.entries) - (set p | p in seen && p !in plan.dirs && p !in Stuck(plan))
      decreases listing
    {
      var p :| p in listing;
      listing := listing - {p};
      assert p == directory + [p[|p| - 1]];
      if p in disk.plan.untold {
        assert p in Stuck(plan);
      } else if p in disk.plan.dirs {
        NamedGrows(directory, names, p[|p| - 1]);
        names := names + [p[|p| - 1]];
      } else {
        assert !HasChild(disk.entries, p);
        disk.Remove(p);
      }
      seen := seen + {p};
    }
    folders := Some(names);
  }

  lemma NamedGrows(directory: Path, names: seq<string>, name: string)
    ensures Named(directory, names + [name]) == Named(directory, names) + {directory + [name]}
    ensures directory + [name] in Named(directory, names) <==> name in names
  {
    forall x <- names
      ensures directory + [x] == directory + [name] ==> x == name
    {
      assert (directory + [x])[|directory|] == x && (directory + [name])[|directory|] == name;
    }
  }

  /** One directory above the open one: the name it was left by, and what is still to be entered there. */
  datatype Level = Level(name: string, folders: seq<string>)

  function Here(trail: seq<Level>): (p: Path)
    ensures |p| == |trail|
  {
    if trail == [] then [] else Here(trail[..|trail| - 1]) + [trail[|trail| - 1].name]
  }

  /** All directories that wait above the open one. */
  function Upper(trail: seq<Level>): set<Path> {
    if trail == [] then {}
    else
      var up := trail[..|trail| - 1];
      Named(Here(up), trail[|trail| - 1].folders) + Upper(up)
  }

  /** All directories that wait. */
  function Waiting(trail: seq<Level>, folders: seq<string>): set<Path> {
    Named(Here(trail), folders) + Upper(trail)
  }

  predicate AllDistinct(trail: seq<Level>, folders: seq<string>) {
    Distinct(folders) && forall l <- trail :: Distinct(l.folders)
  }

  lemma {:induction false} UpperIsHigher(trail: seq<Level>)
    ensures forall d <- Upper(trail) :: 0 < |d| <= |trail|
  {
    if trail != [] {
      UpperIsHigher(trail[..|trail| - 1]);
    }
  }

  /** The last folder of the list is one directory that waits, and no other entry of the list. */
  lemma PopFolder(trail: seq<Level>, folders: seq<string>)
    requires folders != [] && Distinct(folders)
    ensures var c := Here(trail) + [folders[|folders| - 1]];
      c in Waiting(trail, folders) && Waiting(trail, folders) - {c} == Waiting(trail, folders[..|folders| - 1])
  {
    hide Named, Upper, Here;
    var name, rest := folders[|folders| - 1], folders[..|folders| - 1];
    assert folders == rest + [name] && name !in rest;
    NamedGrows(Here(trail), rest, name);
    UpperIsHigher(trail);
  }

  /** Entering: the rest of the list goes on the trail, and the new list waits as well. */
  lemma PushLevel(trail: seq<Level>, rest: seq<string>, name: string, folders: seq<string>)
    ensures var trail' := trail + [Level(name, rest)];
      && Here(trail') == Here(trail) + [name]
      && Waiting(trail', folders) == Named(Here(trail'), folders) + Waiting(trail, rest)
  {
  }

  /** Nothing waits in the open directory once its list is empty. */
  lemma NothingHere(trail: seq<Level>)
    ensures forall d <- Waiting(trail, []) :: d != [] && Parent(d) != Here(trail)
    ensures trail != [] ==>
      var last := trail[|trail| - 1];
      var up := trail[..|trail| - 1];
      Waiting(trail, []) == Waiting(up, last.folders) && Here(up) == Parent(Here(trail)) && Here(trail) != []
  {
    assert Named(Here(trail), []) == {};
    UpperIsHigher(trail);
  }

  /** The root is entered like every other directory, from the whole tree. */
  lemma StartKeeps(t: Plan, entries: set<Path>)
    requires Tree(t) && [] !in t.closed && [] !in t.untold
    requires entries == t.all - (set p | p in Children(t.all, []) && p !in t.dirs && p !in Stuck(t))
    ensures Entered(t, [], Children(t.all, []) * Folders(t)) && Half(t, entries, [], Children(t.all, []) * Folders(t))
  {
    assert !Sealed(t, []);
    forall p <- t.all
      ensures Right(t, entries, [], Children(t.all, []) * Folders(t), p)
    {
      if p != [] {
        EnterBelow(t, t.all, [], p);
      }
    }
  }

  /** Nothing is left to do: what remains below the root is what stays, and the root with it. */
  lemma EndsRight(t: Plan, entries: set<Path>, entries': set<Path>)
    requires Tree(t) && Entered(t, [], {}) && Half(t, entries, [], {})
    requires entries' == if [] in t.stuck || HasChild(entries, []) then entries else entries - {[]}
    ensures entries' <= t.all && forall p <- t.all :: p in entries' <==> Stays(t, p)
  {
    HereStays(t, entries, [], {});
    forall p <- t.all
      ensures p in entries' <==> Stays(t, p)
    {
      assert Right(t, entries, [], {}, p);
    }
  }

  lemma RootClosed(t: Plan)
    requires Tree(t) && [] in t.closed
    ensures Exact(t, t.all) && !Stops(t)
  {
  }

  // ---------------------------------------------------------------------------------------------
  // One turn of the walk
  // ---------------------------------------------------------------------------------------------

  /** The state of the walk between two turns. */
  ghost predicate Walking(t: Plan, entries: set<Path>, trail: seq<Level>, folders: seq<string>) {
    && Tree(t)
    && Whole(t, Here(trail), Waiting(trail, folders))
    && AllDistinct(trail, folders)
    && Entered(t, Here(trail), Waiting(trail, folders))
    && Half(t, entries, Here(trail), Waiting(trail, folders))
  }

  /** How much is still below something that waits. */
  ghost function Unseen(t: Plan, waiting: set<Path>): nat {
    |set p | p in t.all && Waits(waiting, p)|
  }

  lemma UnseenFalls(t: Plan, few: set<Path>, many: set<Path>, c: Path)
    requires c in many && c in t.all && !Waits(few, c)
    requires forall d <- few :: Waits(many, d)
    ensures Unseen(t, few) < Unseen(t, many)
  {
    var a, b := set p | p in t.all && Waits(few, p), set p | p in t.all && Waits(many, p);
    forall p <- a
      ensures p in b
    {
      var d :| d in few && d <= p;
      var e :| e in many && e <= d;
      assert e <= p;
    }
    assert c in b && c !in a;
    Proper(a, b);
  }

  lemma Proper(a: set<Path>, b: set<Path>)
    requires a < b
    ensures |a| < |b|
  {
    assert b == a + (b - a) && b - a != {};
  }

  /** Nothing in a directory that waits is gone. */
  lemma ChildrenAreThere(t: Plan, entries: set<Path>, here: Path, waiting: set<Path>, c: Path)
    requires Half(t, entries, here, waiting) && c in waiting
    ensures Children(entries, c) == Children(t.all, c)
  {
  }

  lemma SkipTurn(t: Plan, entries: set<Path>, trail: seq<Level>, folders: seq<string>)
    requires Walking(t, entries, trail, folders) && folders != []
    requires Here(trail) + [folders[|folders| - 1]] in t.closed && Here(trail) !in t.unknown
    ensures var rest := folders[..|folders| - 1];
      Walking(t, entries, trail, rest) && Unseen(t, Waiting(trail, rest)) < Unseen(t, Waiting(trail, folders))
  {
    hide Half, Named, Upper, Here;
    var c := Here(trail) + [folders[|folders| - 1]];
    var waiting := Waiting(trail, folders);
    PopFolder(trail, folders);
    SkipKeeps(t, entries, Here(trail), waiting, c);
    WholeAfterSkip(t, Here(trail), waiting, c);
    WaitingApart(t, Here(trail), waiting, c, c);
    UnseenFalls(t, waiting - {c}, waiting, c);
  }

  lemma EnterTurn(t: Plan, entries: set<Path>, trail: seq<Level>, folders: seq<string>, entries': set<Path>,
      found: seq<string>)
    requires Walking(t, entries, trail, folders) && folders != []
    requires var c := Here(trail) + [folders[|folders| - 1]];
      && c !in t.closed && c !in t.unread && Here(trail) !in t.unknown
      && Distinct(found) && Named(c, found) == Children(entries, c) * Folders(t)
      && entries' == entries - (set p | p in Children(entries, c) && p !in t.dirs && p !in Stuck(t))
    ensures var trail' := trail + [Level(folders[|folders| - 1], folders[..|folders| - 1])];
      Walking(t, entries', trail', found) && Unseen(t, Waiting(trail', found)) < Unseen(t, Waiting(trail, folders))
  {
    hide Half, Named, Upper, Here;
    var name, rest := folders[|folders| - 1], folders[..|folders| - 1];
    var c, waiting := Here(trail) + [name], Waiting(trail, folders);
    PopFolder(trail, folders);
    PushLevel(trail, rest, name, found);
    EnterKeeps(t, entries, Here(trail), waiting, c, entries');
    ChildrenAreThere(t, entries, Here(trail), waiting, c);
    WholeAfterEnter(t, Here(trail), waiting, c);
    var waiting' := waiting - {c} + Children(entries, c) * Folders(t);
    assert Waiting(trail + [Level(name, rest)], found) == waiting';
    WaitingApart(t, Here(trail), waiting, c, c);
    UnseenFalls(t, waiting', waiting, c);
  }

  lemma LeaveTurn(t: Plan, entries: set<Path>, trail: seq<Level>, entries': set<Path>)
    requires Walking(t, entries, trail, []) && trail != [] && Here(trail) !in t.upless
    requires var here := Here(trail);
      entries' == if here in t.stuck || HasChild(entries, here) then entries else entries - {here}
    ensures var up, last := trail[..|trail| - 1], trail[|trail| - 1];
      Walking(t, entries', up, last.folders) && Waiting(up, last.folders) == Waiting(trail, [])
  {
    hide Half, Named, Upper, Waiting, Here;
    NothingHere(trail);
    LeaveKeeps(t, entries, Here(trail), Waiting(trail, []), entries');
    WholeAfterLeave(t, Here(trail), Waiting(trail, []));
  }

  lemma FirstTurn(t: Plan, entries: set<Path>, found: seq<string>)
    requires Tree(t) && [] !in t.closed && [] !in t.untold && [] !in t.unread && Distinct(found)
    requires Named([], found) == Children(t.all, []) * Folders(t)
    requires entries == t.all - (set p | p in Children(t.all, []) && p !in t.dirs && p !in Stuck(t))
    ensures Walking(t, entries, [], found)
  {
    hide Half, Named;
    StartKeeps(t, entries);
    WholeAtStart(t);
    assert Upper([]) == {};
    assert Waiting([], found) == Children(t.all, []) * Folders(t);
  }

  lemma LastTurn(t: Plan, entries: set<Path>, entries': set<Path>)
    requires Walking(t, entries, [], [])
    requires entries' == if [] in t.stuck || HasChild(entries, []) then entries else entries - {[]}
    ensures Exact(t, entries') && !Stops(t)
  {
    hide Half, Whole;
    assert Waiting([], []) == {};
    WholeAtEnd(t);
    EndsRight(t, entries, entries');
  }

  /** When no operation fails, nothing is left. */
  lemma NothingFails(t: Plan, entries: set<Path>)
    requires Exact(t, entries) && t.stuck == {} && t.untold == {} && t.closed == {}
    ensures entries == {}
  {
  }

  /** No file in a directory has anything below it. */
  lemma FilesAreBare(t: Plan, entries: set<Path>)
    requires Tree(t) && entries <= t.all
    ensures forall p <- entries | p !in t.dirs :: !HasChild(entries, p)
  {
  }

  lemma BareChildren(t: Plan, entries: set<Path>, trail: seq<Level>, folders: seq<string>, c: Path)
    requires Walking(t, entries, trail, folders)
    ensures forall p <- Children(entries, c) | p !in t.dirs :: !HasChild(entries, p)
  {
  }

  /** The walk is left in the middle, at a directory that fails it. */
  lemma LeftHere(t: Plan, entries: set<Path>, trail: seq<Level>, folders: seq<string>, d: Path)
    requires Walking(t, entries, trail, folders)
    requires (d == Here(trail) && d != [] && d in t.upless)
      || (d == Here(trail) && d in t.unknown && folders != [])
      || (folders != [] && d == Here(trail) + [folders[|folders| - 1]] && d !in t.closed && d in t.unread)
    ensures Abandoned(t, entries) && Stops(t)
  {
    hide Half, Whole, Here, Upper, Sealed;
    assert LeftAt(t, entries, Here(trail), Waiting(trail, folders));
    assert Open(t, Here(trail));
    if folders != [] {
      PopFolder(trail, folders);
      FolderIsOpen(t, Here(trail), Waiting(trail, folders), Here(trail) + [folders[|folders| - 1]]);
    }
    assert Open(t, d) && Breaks(t, d);
  }

  lemma FolderIsOpen(t: Plan, here: Path, waiting: set<Path>, c: Path)
    requires Entered(t, here, waiting) && c in waiting && Parent(c) == here
    ensures HasFolder(t, here) && (c !in t.closed ==> Open(t, c))
  {
    assert c in Children(t.all, here) && c in Folders(t);
    forall d <- t.all | d <= c
      ensures d == c || d <= here
    {
      Above(d, c);
    }
  }

  /**
   * `_remove_remaining`: the iterative walk ends. It is left before its end exactly when it comes to a
   * directory it cannot list, ask for or leave; otherwise it leaves exactly what recursion would
   * leave, the entries that cannot go and the directories above them.
   */
  method RemoveRemaining(disk: Disk) returns (stopped: bool)
    requires Tree(disk.plan) && [] !in disk.plan.untold && disk.entries == disk.plan.all
    modifies disk
    ensures stopped <==> Stops(disk.plan)
    ensures if stopped then Abandoned(disk.plan, disk.entries) else Exact(disk.plan, disk.entries)
    ensures !stopped && disk.plan.stuck == {} && disk.plan.untold == {} && disk.plan.closed == {} ==>
      disk.entries == {}
  {
    hide Walking, Stays, Waiting, Here, Distinct, Tree, HasChild, Unseen, Named, Stops, Abandoned, Exact;
    ghost var t := disk.plan;
    FilesAreBare(t, t.all);
    if [] in disk.plan.closed {
      RootClosed(t);
      return false;
    }
    var start := Empty(disk, []);
    if start.None? {
      RootUnread(t);
      return true;
    }
    var trail: seq<Level> := [];
    var folders := start.value;
    FirstTurn(t, disk.entries, folders);
    while folders != [] || trail != []
      invariant Walking(t, disk.entries, trail, folders)
      decreases Unseen(t, Waiting(trail, folders)), |trail|
    {
      ghost var entries := disk.entries;
      var here := Here(trail);
      if folders != [] {
        var name, rest := folders[|folders| - 1], folders[..|folders| - 1];
        var c := here + [name];
        if here in disk.plan.unknown {
          LeftHere(t, entries, trail, folders, here);
          return true;
        }
        if c in disk.plan.closed {
          SkipTurn(t, entries, trail, folders);
          folders := rest;
          continue;
        }
        BareChildren(t, entries, trail, folders, c);
        var found := Empty(disk, c);
        if found.None? {
          LeftHere(t, entries, trail, folders, c);
          return true;
        }
        EnterTurn(t, entries, trail, folders, disk.entries, found.value);
        trail, folders := trail + [Level(name, rest)], found.value;
      } else {
        HereIsBelow(trail);
        if here in disk.plan.upless {
          LeftHere(t, entries, trail, folders, here);
          return true;
        }
        var last := trail[|trail| - 1];
        disk.Remove(here);
        LeaveTurn(t, entries, trail, disk.entries);
        trail, folders := trail[..|trail| - 1], last.folders;
      }
    }
    ghost var before := disk.entries;
    disk.Remove([]);
    LastTurn(t, before, disk.entries);
    if t.stuck == {} && t.untold == {} && t.closed == {} {
      NothingFails(t, disk.entries);
    }
    stopped := false;
  }

  lemma HereIsBelow(trail: seq<Level>)
    requires trail != []
    ensures Here(trail) != []
  {
  }

  lemma RootUnread(t: Plan)
    requires Tree(t) && [] !in t.closed && [] !in t.untold && [] in t.unread
    ensures Stops(t) && Abandoned(t, t.all)
  {
  }

  /** Where the directory itself could go: the walk leaves what it should if and only if nothing fails it. */
  lemma ExactWhenNotStopped(t: Plan, entries: set<Path>, stopped: bool)
    requires Tree(t) && (stopped <==> Stops(t)) && !Stays(t, [])
    requires if stopped then Abandoned(t, entries) else Exact(t, entries)
    ensures Exact(t, entries) <==> !Stops(t)
  {
  }

  /** One empty directory that cannot be left upwards: recursion would leave nothing, the walk leaves both. */
  lemma UplessStays(name: string)
    ensures var t := Plan({[], [name]}, {[], [name]}, {}, {}, {}, {}, {}, {[name]});
      && Tree(t) && Stops(t) && (forall p <- t.all :: !Stays(t, p))
      && forall entries | Abandoned(t, entries) :: [] in entries && !Exact(t, entries)
  {
  }
}
