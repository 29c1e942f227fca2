// Flattening nested exception groups (src/deepintshield/mcp/_errors.py, `_walk_exceptions`).

module ExceptionWalk {
  import opened Common

  const MAX_NODES := 64
  const MAX_DEPTH := 8

  /** Which exception object it is. */
  type Node = nat

  /** What each exception holds, in order; what is no exception is None. Cycles may occur. */
  type Groups = Node -> seq<Option<Node>>

  function Exceptions(held: seq<Option<Node>>): seq<Node> {
    if held == [] then []
    else (if held[0].Some? then [held[0].value] else []) + Exceptions(held[1..])
  }

  /** Every exception that one holds. */
  function Held(groups: Groups, n: Node): seq<Node> {
    Exceptions(groups(n))
  }

  /** The exceptions among the first 64 that are held, which are all that the walk looks at. */
  function Children(groups: Groups, n: Node): seq<Node> {
    Exceptions(if |groups(n)| > MAX_NODES then groups(n)[..MAX_NODES] else groups(n))
  }

  // ---------------------------------------------------------------------------------------------
  // By recursion
  // ---------------------------------------------------------------------------------------------

  /** An exception that is new, and then all below it; nothing once there are enough. */
  function Visit(groups: Groups, n: Node, depth: nat, found: seq<Node>): seq<Node>
    decreases MAX_DEPTH - depth, 0, 0
  {
    if |found| >= MAX_NODES || n in found then found
    else if depth >= MAX_DEPTH then found + [n]
    else VisitAll(groups, Children(groups, n), depth + 1, found + [n])
  }

  function VisitAll(groups: Groups, nodes: seq<Node>, depth: nat, found: seq<Node>): seq<Node>
    decreases MAX_DEPTH - depth, 1, |nodes|
  {
    if nodes == [] then found
    else VisitAll(groups, nodes[1..], depth, Visit(groups, nodes[0], depth, found))
  }

  // ---------------------------------------------------------------------------------------------
  // With a stack
  // ---------------------------------------------------------------------------------------------

  datatype Waiting = Waiting(node: Node, depth: nat)

  /** The stack, from its top. */
  function VisitStack(groups: Groups, stack: seq<Waiting>, found: seq<Node>): seq<Node> {
    if stack == [] then found
    else
      var top := stack[|stack| - 1];
      VisitStack(groups, stack[..|stack| - 1], Visit(groups, top.node, top.depth, found))
  }

  function Reversed(nodes: seq<Node>, depth: nat): seq<Waiting> {
    if nodes == [] then [] else Reversed(nodes[1..], depth) + [Waiting(nodes[0], depth)]
  }

  lemma {:induction false} PushedIsVisited(groups: Groups, stack: seq<Waiting>, nodes: seq<Node>, depth: nat,
      found: seq<Node>)
    ensures VisitStack(groups, stack + Reversed(nodes, depth), found)
      == VisitStack(groups, stack, VisitAll(groups, nodes, depth, found))
    decreases |nodes|
  {
    hide Visit;
    if nodes == [] {
      assert stack + [] == stack;
    } else {
      var rest := stack + Reversed(nodes[1..], depth);
      assert stack + Reversed(nodes, depth) == rest + [Waiting(nodes[0], depth)];
      assert (rest + [Waiting(nodes[0], depth)])[..|rest|] == rest;
      PushedIsVisited(groups, stack, nodes[1..], depth, Visit(groups, nodes[0], depth, found));
    }
  }

  lemma {:induction false} FullStays(groups: Groups, stack: seq<Waiting>, found: seq<Node>)
    requires |found| >= MAX_NODES
    ensures VisitStack(groups, stack, found) == found
  {
    if stack != [] {
      FullStays(groups, stack[..|stack| - 1], found);
    }
  }

  /** What is on top of the stack, visited: the stack below it, with its children pushed when it is new. */
  lemma TopVisited(groups: Groups, stack: seq<Waiting>, found: seq<Node>)
    requires stack != [] && |found| < MAX_NODES
    ensures var top, rest := stack[|stack| - 1], stack[..|stack| - 1];
      VisitStack(groups, stack, found) ==
        if top.node in found then VisitStack(groups, rest, found)
        else if top.depth >= MAX_DEPTH then VisitStack(groups, rest, found + [top.node])
        else VisitStack(groups, rest + Reversed(Children(groups, top.node), top.depth + 1), found + [top.node])
  {
    hide Children, VisitAll, Reversed;
    var top, rest := stack[|stack| - 1], stack[..|stack| - 1];
    PushedIsVisited(groups, rest, Children(groups, top.node), top.depth + 1, found + [top.node]);
  }

  /** `_walk_exceptions`: the loop lists what recursion lists, in its order. */
  method WalkExceptions(groups: Groups, error: Node) returns (found: seq<Node>)
    ensures found == Visit(groups, error, 0, [])
  {
    hide Visit, Children, Reversed;
    found := [];
    var stack := [Waiting(error, 0)];
    assert stack[..0] == [];
    while stack != [] && |found| < MAX_NODES
      invariant VisitStack(groups, stack, found) == Visit(groups, error, 0, [])
      decreases MAX_NODES - |found|, |stack|
    {
      hide VisitStack;
      var current, depth := stack[|stack| - 1].node, stack[|stack| - 1].depth;
      TopVisited(groups, stack, found);
      stack := stack[..|stack| - 1];
      if current in found {
        continue;
      }
      found := found + [current];
      if depth >= MAX_DEPTH {
        continue;
      }
      stack := stack + Reversed(Children(groups, current), depth + 1);
    }
    if stack != [] {
      FullStays(groups, stack, found);
    }
  }

  // ---------------------------------------------------------------------------------------------
  // What is listed
  // ---------------------------------------------------------------------------------------------

  predicate Listed(found: seq<Node>) {
    |found| <= MAX_NODES && forall i, j | 0 <= i < j < |found| :: found[i] != found[j]
  }

  /** Each exception is listed once, there are at most 64, and what was listed stays in front. */
  lemma {:induction false} VisitLists(groups: Groups, n: Node, depth: nat, found: seq<Node>)
    requires Listed(found)
    ensures Listed(Visit(groups, n, depth, found)) && found <= Visit(groups, n, depth, found)
    decreases MAX_DEPTH - depth, 0, 0
  {
    if |found| < MAX_NODES && n !in found && depth < MAX_DEPTH {
      AllList(groups, Children(groups, n), depth + 1, found + [n]);
    }
  }

  lemma {:induction false} AllList(groups: Groups, nodes: seq<Node>, depth: nat, found: seq<Node>)
    requires Listed(found)
    ensures Listed(VisitAll(groups, nodes, depth, found)) && found <= VisitAll(groups, nodes, depth, found)
    decreases MAX_DEPTH - depth, 1, |nodes|
  {
    hide Visit, Children;
    if nodes != [] {
      VisitLists(groups, nodes[0], depth, found);
      AllList(groups, nodes[1..], depth, Visit(groups, nodes[0], depth, found));
    }
  }

  lemma NewIsListed(found: seq<Node>, n: Node)
    requires Listed(found) && n !in found && |found| < MAX_NODES
    ensures Listed(found + [n])
  {
  }

  /** What holds of a node and of the depth it is visited at holds one deeper of all that is looked at. */
  ghost predicate Descends(groups: Groups, fits: (Node, nat) -> bool) {
    forall n: Node, c: Node, d: nat | fits(n, d) && c in Children(groups, n) :: d < MAX_DEPTH && fits(c, d + 1)
  }

  /** From `from` on, what is listed has the children that are looked at listed as well. */
  ghost predicate Complete(groups: Groups, found: seq<Node>, from: nat) {
    forall i, c: Node | from <= i < |found| && c in Children(groups, found[i]) :: c in found
  }

  /** Not deeper than eight, and not cut off at 64: everything below an exception is listed. */
  lemma {:induction false} VisitCompletes(groups: Groups, fits: (Node, nat) -> bool, n: Node, depth: nat,
      found: seq<Node>)
    requires Descends(groups, fits) && fits(n, depth) && Listed(found)
    requires |Visit(groups, n, depth, found)| < MAX_NODES
    ensures n in Visit(groups, n, depth, found) && Complete(groups, Visit(groups, n, depth, found), |found|)
    decreases MAX_DEPTH - depth, 0, 0
  {
    hide Listed, Children;
    VisitLists(groups, n, depth, found);
    if n !in found {
      var r := Visit(groups, n, depth, found);
      NewIsListed(found, n);
      if depth < MAX_DEPTH {
        AllList(groups, Children(groups, n), depth + 1, found + [n]);
        AllComplete(groups, fits, Children(groups, n), depth + 1, found + [n]);
      }
      assert r[|found|] == (found + [n])[|found|] == n;
    }
  }

  lemma {:induction false} AllComplete(groups: Groups, fits: (Node, nat) -> bool, nodes: seq<Node>, depth: nat,
      found: seq<Node>)
    requires Descends(groups, fits) && Listed(found) && forall c <- nodes :: fits(c, depth)
    requires |VisitAll(groups, nodes, depth, found)| < MAX_NODES
    ensures forall c <- nodes :: c in VisitAll(groups, nodes, depth, found)
    ensures Complete(groups, VisitAll(groups, nodes, depth, found), |found|)
    decreases MAX_DEPTH - depth, 1, |nodes|
  {
    hide Visit, Children, Listed;
    if nodes != [] {
      var first := Visit(groups, nodes[0], depth, found);
      VisitLists(groups, nodes[0], depth, found);
      AllList(groups, nodes[1..], depth, first);
      VisitCompletes(groups, fits, nodes[0], depth, found);
      AllComplete(groups, fits, nodes[1..], depth, first);
      Glue(groups, first, VisitAll(groups, nodes, depth, found), |found|);
      assert nodes == [nodes[0]] + nodes[1..];
    }
  }

  /** Complete up to a point, and from there on. */
  lemma Glue(groups: Groups, a: seq<Node>, b: seq<Node>, from: nat)
    requires a <= b && Complete(groups, a, from) && Complete(groups, b, |a|)
    ensures Complete(groups, b, from)
  {
    hide Children;
    assert b == a + b[|a|..];
    forall i, c: Node | from <= i < |b| && c in Children(groups, b[i])
      ensures c in b
    {
      if i < |a| {
        assert a[i] == b[i] && c in a;
      }
    }
  }

  /** What is listed: it was before, or it fits some depth up to eight and is looked at from the list. */
  ghost predicate Found(groups: Groups, fits: (Node, nat) -> bool, f: Node, n: Node, r: seq<Node>) {
    && (exists d: nat :: d <= MAX_DEPTH && fits(f, d))
    && (f == n || exists m <- r :: f in Children(groups, m))
  }

  lemma FoundGrows(groups: Groups, fits: (Node, nat) -> bool, f: Node, n: Node, r: seq<Node>, s: seq<Node>)
    requires Found(groups, fits, f, n, r) && r <= s
    ensures Found(groups, fits, f, n, s)
  {
    hide Children;
    assert s == r + s[|r|..];
  }

  /** A relation that every step down keeps, whether or not there is room. */
  ghost predicate Carries(groups: Groups, fits: (Node, nat) -> bool) {
    forall n: Node, c: Node, d: nat | fits(n, d) && c in Children(groups, n) :: fits(c, d + 1)
  }

  lemma {:induction false} VisitFinds(groups: Groups, fits: (Node, nat) -> bool, n: Node, depth: nat, found: seq<Node>)
    requires Carries(groups, fits) && fits(n, depth) && depth <= MAX_DEPTH && Listed(found)
    ensures forall f <- Visit(groups, n, depth, found) ::
      f in found || Found(groups, fits, f, n, Visit(groups, n, depth, found))
    decreases MAX_DEPTH - depth, 0, 0
  {
    hide Children, Listed;
    if |found| < MAX_NODES && n !in found && depth < MAX_DEPTH {
      NewIsListed(found, n);
      AllFind(groups, fits, n, Children(groups, n), depth + 1, found + [n]);
      AllList(groups, Children(groups, n), depth + 1, found + [n]);
    }
  }

  /** The same for children of a node that is listed. */
  lemma {:induction false} AllFind(groups: Groups, fits: (Node, nat) -> bool, n: Node, nodes: seq<Node>, depth: nat,
      found: seq<Node>)
    requires Carries(groups, fits) && depth <= MAX_DEPTH && Listed(found) && n in found
    requires forall c <- nodes :: fits(c, depth) && c in Children(groups, n)
    ensures forall f <- VisitAll(groups, nodes, depth, found) ::
      f in found || Found(groups, fits, f, n, VisitAll(groups, nodes, depth, found))
    decreases MAX_DEPTH - depth, 1, |nodes|
  {
    hide Visit, Children, Listed, Found;
    if nodes != [] {
      var first, r := Visit(groups, nodes[0], depth, found), VisitAll(groups, nodes, depth, found);
      VisitLists(groups, nodes[0], depth, found);
      AllList(groups, nodes[1..], depth, first);
      VisitFinds(groups, fits, nodes[0], depth, found);
      assert first == found + first[|found|..];
      AllFind(groups, fits, n, nodes[1..], depth, first);
      forall f <- r
        ensures f in found || Found(groups, fits, f, n, r)
      {
        if f in first && f !in found {
          FoundGrows(groups, fits, f, nodes[0], first, r);
          FoundFrom(groups, fits, f, nodes[0], n, r);
        }
      }
    }
  }

  lemma FoundFrom(groups: Groups, fits: (Node, nat) -> bool, f: Node, c: Node, n: Node, r: seq<Node>)
    requires Found(groups, fits, f, c, r) && c in Children(groups, n) && n in r
    ensures Found(groups, fits, f, n, r)
  {
    hide Children;
  }

  // ---------------------------------------------------------------------------------------------
  // When everything is listed
  // ---------------------------------------------------------------------------------------------

  lemma {:induction false} SomeOfHeld(held: seq<Option<Node>>, k: nat)
    requires k <= |held|
    ensures forall c <- Exceptions(held[..k]) :: c in Exceptions(held)
  {
    if k > 0 {
      SomeOfHeld(held[1..], k - 1);
      assert held[..k][1..] == held[1..][..k - 1];
    }
  }

  lemma ChildrenAreHeld(groups: Groups, n: Node)
    ensures forall c <- Children(groups, n) :: c in Held(groups, n)
    ensures |groups(n)| <= MAX_NODES ==> Children(groups, n) == Held(groups, n)
  {
    if |groups(n)| > MAX_NODES {
      SomeOfHeld(groups(n), MAX_NODES);
    }
  }

  /** The list has the error, and whatever one of its members holds. */
  ghost predicate ListsAll(groups: Groups, error: Node, list: seq<Node>) {
    error in list && forall n: Node, c: Node | n in list && c in Held(groups, n) :: c in list
  }

  /** A set with the error, and whatever one of its members holds. */
  ghost predicate Encloses(groups: Groups, error: Node, all: set<Node>) {
    error in all && forall n: Node, c: Node | n in all && c in Held(groups, n) :: c in all
  }

  /** On any graph the list stays within every such set. */
  lemma ListStaysWithin(groups: Groups, error: Node, all: set<Node>)
    requires Encloses(groups, error, all)
    ensures forall f <- Visit(groups, error, 0, []) :: f in all
  {
    hide Visit, Held, Children;
    forall n
      ensures forall c <- Children(groups, n) :: c in Held(groups, n)
    {
      ChildrenAreHeld(groups, n);
    }
    var fits := (f: Node, d: nat) => f in all;
    assert Carries(groups, fits);
    VisitFinds(groups, fits, error, 0, []);
  }

  lemma {:induction false} FewDistinct(list: seq<Node>, all: set<Node>)
    requires (forall i, j | 0 <= i < j < |list| :: list[i] != list[j]) && forall f <- list :: f in all
    ensures |list| <= |all| && (|list| == |all| ==> forall n <- all :: n in list)
  {
    if list != [] {
      var rest := list[1..];
      FewDistinct(rest, all - {list[0]});
      assert list == [list[0]] + rest;
    }
  }

  lemma {:induction false} ManyCovered(list: seq<Node>, all: set<Node>)
    requires forall n <- all :: n in list
    ensures |all| <= |list|
  {
    if list != [] {
      assert list == [list[0]] + list[1..];
      ManyCovered(list[1..], all - {list[0]});
    }
  }

  /** Nothing is left out for depth or width, and all fit: then everything is listed. */
  lemma ListsAllWithin(groups: Groups, error: Node, all: set<Node>, fits: (Node, nat) -> bool)
    requires Encloses(groups, error, all) && |all| <= MAX_NODES && Descends(groups, fits) && fits(error, 0)
    ensures var r := Visit(groups, error, 0, []);
      error in r && (Complete(groups, r, 0) || forall n <- all :: n in r)
  {
    hide Visit, Children;
    var r := Visit(groups, error, 0, []);
    VisitLists(groups, error, 0, []);
    ListStaysWithin(groups, error, all);
    if |r| < MAX_NODES {
      VisitCompletes(groups, fits, error, 0, []);
    } else {
      FewDistinct(r, all);
    }
  }

  /** Exceptions without cycles, none of them more than `height` above what they hold. */
  ghost predicate Acyclic(groups: Groups, all: set<Node>, height: Node -> nat) {
    forall n: Node, c: Node | n in all && c in Held(groups, n) :: height(c) < height(n)
  }

  lemma HeightDescends(groups: Groups, error: Node, all: set<Node>, height: Node -> nat, fits: (Node, nat) -> bool)
    requires Encloses(groups, error, all) && Acyclic(groups, all, height)
    requires forall f: Node, d: nat :: fits(f, d) <==> f in all && d + height(f) <= MAX_DEPTH
    ensures Descends(groups, fits)
  {
    hide Held, Children;
    forall n: Node, c: Node, d: nat | fits(n, d) && c in Children(groups, n)
      ensures d < MAX_DEPTH && fits(c, d + 1)
    {
      ChildrenAreHeld(groups, n);
      assert c in Held(groups, n);
      assert height(c) < height(n);
    }
  }

  /**
   * At most 64 exceptions without cycles, nested no deeper than eight, in groups of no more than 64:
   * everything is listed.
   */
  lemma SmallIsListed(groups: Groups, error: Node, all: set<Node>, height: Node -> nat)
    requires Encloses(groups, error, all) && |all| <= MAX_NODES
    requires Acyclic(groups, all, height) && height(error) <= MAX_DEPTH
    requires forall n <- all :: |groups(n)| <= MAX_NODES
    ensures ListsAll(groups, error, Visit(groups, error, 0, []))
  {
    hide Visit, Held, Children;
    var r := Visit(groups, error, 0, []);
    forall n
      ensures (forall c <- Children(groups, n) :: c in Held(groups, n))
      ensures n in all ==> Children(groups, n) == Held(groups, n)
    {
      ChildrenAreHeld(groups, n);
    }
    var fits := (f: Node, d: nat) => f in all && d + height(f) <= MAX_DEPTH;
    HeightDescends(groups, error, all, height, fits);
    ListsAllWithin(groups, error, all, fits);
    ListStaysWithin(groups, error, all);
    forall n: Node, c: Node | n in r && c in Held(groups, n)
      ensures c in r
    {
      var i :| 0 <= i < |r| && r[i] == n;
      assert c in all;
    }
  }

  /**
   * A nesting in which every exception is found at one depth, as in a tree: `all` are the error and
   * what is held below it, each held one deeper than what holds it.
   */
  ghost predicate Layered(groups: Groups, error: Node, all: set<Node>, depth: Node -> nat) {
    && Encloses(groups, error, all) && depth(error) == 0
    && (forall n: Node, c: Node | n in all && c in Held(groups, n) :: depth(c) == depth(n) + 1)
    && forall c: Node {:trigger IsHeld(groups, all, c)} :: c in all && c != error ==> IsHeld(groups, all, c)
  }

  /** One of them holds it. */
  ghost predicate IsHeld(groups: Groups, all: set<Node>, c: Node) {
    exists n <- all :: c in Held(groups, n)
  }

  /** One of them holds it among its first 64. */
  ghost predicate Near(groups: Groups, all: set<Node>, c: Node) {
    exists n <- all :: c in Children(groups, n)
  }

  /** Not too many, not too deep, and none held only behind 64 others. */
  ghost predicate Small(groups: Groups, error: Node, all: set<Node>, depth: Node -> nat) {
    && |all| <= MAX_NODES
    && (forall c <- all :: depth(c) <= MAX_DEPTH)
    && forall c: Node {:trigger Near(groups, all, c)} :: c in all && c != error ==> Near(groups, all, c)
  }

  /** Down from the error, layer by layer, everything is in a list that has what its members hold. */
  lemma {:induction false} LayerIsListed(groups: Groups, error: Node, all: set<Node>, depth: Node -> nat,
      list: seq<Node>, c: Node)
    requires Layered(groups, error, all, depth) && c in all && error in list
    requires ListsAll(groups, error, list) || (Complete(groups, list, 0) && Small(groups, error, all, depth))
    ensures c in list
    decreases depth(c)
  {
    hide Held, Children;
    if c != error {
      if ListsAll(groups, error, list) {
        assert IsHeld(groups, all, c);
        var n :| n in all && c in Held(groups, n);
        LayerIsListed(groups, error, all, depth, list, n);
      } else {
        assert Near(groups, all, c);
        var n :| n in all && c in Children(groups, n);
        ChildrenAreHeld(groups, n);
        LayerIsListed(groups, error, all, depth, list, n);
        var i :| 0 <= i < |list| && list[i] == n;
      }
    }
  }

  /** The exact condition, for trees and every other nesting in layers. */
  lemma ListsAllExactlyWhenSmall(groups: Groups, error: Node, all: set<Node>, depth: Node -> nat)
    requires Layered(groups, error, all, depth)
    ensures ListsAll(groups, error, Visit(groups, error, 0, [])) <==> Small(groups, error, all, depth)
  {
    if Small(groups, error, all, depth) {
      SmallListsAll(groups, error, all, depth);
    }
    if ListsAll(groups, error, Visit(groups, error, 0, [])) {
      AllListedIsSmall(groups, error, all, depth);
    }
  }

  lemma SmallListsAll(groups: Groups, error: Node, all: set<Node>, depth: Node -> nat)
    requires Layered(groups, error, all, depth) && Small(groups, error, all, depth)
    ensures ListsAll(groups, error, Visit(groups, error, 0, []))
  {
    hide Visit, Held, Children;
    var r := Visit(groups, error, 0, []);
    var fits := (f: Node, d: nat) => f in all && depth(f) == d;
    DepthDescends(groups, error, all, depth, fits);
    ListsAllWithin(groups, error, all, fits);
    ListStaysWithin(groups, error, all);
    forall c <- all
      ensures c in r
    {
      if Complete(groups, r, 0) {
        LayerIsListed(groups, error, all, depth, r, c);
      }
    }
    SameAsAll(groups, error, all, r);
  }

  lemma SameAsAll(groups: Groups, error: Node, all: set<Node>, list: seq<Node>)
    requires Encloses(groups, error, all) && forall n: Node :: n in list <==> n in all
    ensures ListsAll(groups, error, list)
  {
    hide Held;
  }

  lemma DepthDescends(groups: Groups, error: Node, all: set<Node>, depth: Node -> nat, fits: (Node, nat) -> bool)
    requires Layered(groups, error, all, depth) && Small(groups, error, all, depth)
    requires forall f: Node, d: nat :: fits(f, d) <==> f in all && depth(f) == d
    ensures Descends(groups, fits)
  {
    hide Held, Children, Near;
    forall n: Node, c: Node, d: nat | fits(n, d) && c in Children(groups, n)
      ensures d < MAX_DEPTH && fits(c, d + 1)
    {
      ChildrenAreHeld(groups, n);
      assert c in Held(groups, n) && c in all;
    }
  }

  lemma AllListedIsSmall(groups: Groups, error: Node, all: set<Node>, depth: Node -> nat)
    requires Layered(groups, error, all, depth) && ListsAll(groups, error, Visit(groups, error, 0, []))
    ensures Small(groups, error, all, depth)
  {
    hide Visit, Held, Children;
    var r := Visit(groups, error, 0, []);
    VisitLists(groups, error, 0, []);
    ListStaysWithin(groups, error, all);
    forall n
      ensures forall c <- Children(groups, n) :: c in Held(groups, n)
    {
      ChildrenAreHeld(groups, n);
    }
    var fits := (f: Node, d: nat) => f in all && depth(f) == d;
    assert Carries(groups, fits);
    VisitFinds(groups, fits, error, 0, []);
    forall c <- all
      ensures c in r && depth(c) <= MAX_DEPTH && (c == error || Near(groups, all, c))
    {
      LayerIsListed(groups, error, all, depth, r, c);
    }
    ManyCovered(r, all);
  }

  // ---------------------------------------------------------------------------------------------
  // Where it fails
  // ---------------------------------------------------------------------------------------------

  function Below(n: nat): (all: set<Node>)
    ensures |all| == n && forall i: Node :: i in all <==> i < n
  {
    if n == 0 then {} else Below(n - 1) + {n - 1}
  }

  lemma HoldsOne(n: Node)
    ensures Exceptions([Some(n)]) == [n]
  {
  }

  function Chain(n: Node): seq<Option<Node>> {
    if n < 9 then [Some(n + 1)] else []
  }

  lemma ChainHolds(n: Node)
    ensures Held(Chain, n) == if n < 9 then [n + 1] else []
  {
    HoldsOne(n + 1);
  }

  lemma ChainIsLayered(all: set<Node>)
    requires forall i: Node :: i in all <==> i < 10
    ensures Layered(Chain, 0, all, n => n)
  {
    hide Held, Chain;
    forall n: Node
      ensures Held(Chain, n) == if n < 9 then [n + 1] else []
    {
      ChainHolds(n);
    }
    forall c <- all | c != 0
      ensures IsHeld(Chain, all, c)
    {
      assert c in Held(Chain, c - 1) && c - 1 in all;
    }
  }

  /** Ten exceptions, one within the other: the last is not listed. */
  lemma TooDeep()
    ensures !ListsAll(Chain, 0, Visit(Chain, 0, 0, []))
  {
    hide Below, Visit, Chain, Layered, ListsAll;
    var all := Below(10);
    ChainIsLayered(all);
    assert 9 in all;
    ListsAllExactlyWhenSmall(Chain, 0, all, n => n);
  }

  /** Numbers from one on. */
  function Upwards(from: nat, n: nat): (held: seq<Option<Node>>)
    ensures |held| == n
    ensures forall c :: c in Exceptions(held) <==> from <= c < from + n
    decreases n
  {
    if n == 0 then [] else [Some(from)] + Upwards(from + 1, n - 1)
  }

  function Broad(n: Node): seq<Option<Node>> {
    if n == 0 then Upwards(1, 64) else []
  }

  lemma BroadHolds(n: Node, c: Node)
    ensures c in Held(Broad, n) <==> n == 0 && 1 <= c < 65
  {
    hide Upwards;
    if n != 0 {
      NoneHeld();
    }
  }

  lemma BroadIsLayered(all: set<Node>, depth: Node -> nat)
    requires (forall i: Node :: i in all <==> i < 65) && forall n: Node :: depth(n) == if n == 0 then 0 else 1
    ensures Layered(Broad, 0, all, depth)
  {
    hide Held, Broad;
    forall n: Node, c: Node
      ensures c in Held(Broad, n) <==> n == 0 && 1 <= c < 65
    {
      BroadHolds(n, c);
    }
    assert 0 in all;
  }

  /** A group of 64: with the group itself they are one too many. */
  lemma TooMany()
    ensures !ListsAll(Broad, 0, Visit(Broad, 0, 0, []))
  {
    hide Below, Visit, Broad, Layered, ListsAll;
    var all := Below(65);
    var depth := (n: Node) => if n == 0 then 0 else 1;
    BroadIsLayered(all, depth);
    ListsAllExactlyWhenSmall(Broad, 0, all, depth);
  }

  function Copies(n: Node, k: nat): (held: seq<Option<Node>>)
    ensures |held| == k && forall c <- Exceptions(held) :: c == n
  {
    if k == 0 then [] else [Some(n)] + Copies(n, k - 1)
  }

  function Wide(n: Node): seq<Option<Node>> {
    if n == 0 then Copies(1, 64) + [Some(2)] else []
  }

  lemma {:induction false} LastIsHeld(held: seq<Option<Node>>, n: Node)
    ensures n in Exceptions(held + [Some(n)])
  {
    if held == [] {
      assert Exceptions([Some(n)]) == [n];
    } else {
      assert (held + [Some(n)])[1..] == held[1..] + [Some(n)];
      LastIsHeld(held[1..], n);
    }
  }

  lemma WideHolds(n: Node)
    ensures (forall c <- Children(Wide, n) :: c == 1) && (n == 0 ==> 2 in Held(Wide, n))
  {
    hide Copies, Exceptions;
    NoneHeld();
    if n == 0 {
      LastIsHeld(Copies(1, 64), 2);
      assert Wide(0)[..64] == Copies(1, 64);
    }
  }

  /** One exception 64 times over, and then another: the other is not listed. */
  lemma TooWide()
    ensures !ListsAll(Wide, 0, Visit(Wide, 0, 0, []))
  {
    hide Visit, Held, Children, Wide;
    var fits := (f: Node, d: nat) => f == 0 || f == 1;
    forall n: Node, c: Node, d: nat | fits(n, d) && c in Children(Wide, n)
      ensures fits(c, d + 1)
    {
      WideHolds(n);
    }
    VisitFinds(Wide, fits, 0, 0, []);
    WideHolds(0);
    var r := Visit(Wide, 0, 0, []);
    forall f <- r
      ensures f == 0 || f == 1
    {
      assert Found(Wide, fits, f, 0, r);
    }
    assert 2 !in r;
  }

  lemma NoneHeld()
    ensures Exceptions([]) == []
  {
  }

  // ---------------------------------------------------------------------------------------------
  // Shared at different depths
  // ---------------------------------------------------------------------------------------------

  /** A chain from 1 to 8 with 9 below it, and a group that holds both of its ends. */
  function Ends(first: Node, second: Node): Groups {
    n => if n == 0 then [Some(first), Some(second)] else if n < 9 then [Some(n + 1)] else []
  }

  lemma EndsHold(first: Node, second: Node, n: Node)
    ensures Held(Ends(first, second), n) == Children(Ends(first, second), n)
    ensures Held(Ends(first, second), n) ==
      if n == 0 then [first, second] else if n < 9 then [n + 1] else []
  {
    HoldsOne(n + 1);
    HoldsOne(second);
    assert [Some(first), Some(second)][1..] == [Some(second)];
  }

  /** The numbers from one to before another. */
  function Span(from: nat, to: nat): seq<Node>
    decreases if from < to then to - from else 0
  {
    if from >= to then [] else [from] + Span(from + 1, to)
  }

  lemma {:induction false} InSpan(from: nat, to: nat, n: Node)
    ensures n in Span(from, to) <==> from <= n < to
    decreases if from < to then to - from else 0
  {
    if from < to {
      InSpan(from + 1, to, n);
    }
  }

  lemma OnlyOne(groups: Groups, c: Node, depth: nat, found: seq<Node>)
    ensures VisitAll(groups, [c], depth, found) == Visit(groups, c, depth, found)
  {
    assert [c][1..] == [];
  }

  lemma OneBelow(groups: Groups, n: Node, c: Node, depth: nat, found: seq<Node>)
    requires Children(groups, n) == [c] && n !in found && |found| < MAX_NODES && depth < MAX_DEPTH
    ensures Visit(groups, n, depth, found) == Visit(groups, c, depth + 1, found + [n])
  {
    hide Children;
    OnlyOne(groups, c, depth + 1, found + [n]);
  }

  lemma SpanStarts(from: nat, to: nat, found: seq<Node>)
    requires from < to
    ensures found + Span(from, to) == (found + [from]) + Span(from + 1, to)
    ensures Span(to, to) == []
  {
  }

  /** Down the chain, each at its own depth, to the end of it or to an 8 that is listed already. */
  lemma {:induction false} DownTheChain(first: Node, second: Node, n: Node, to: nat, found: seq<Node>)
    requires 1 <= n <= 8 && n <= to && (to == 9 || (to == 8 && 8 in found)) && |found| + 9 - n < MAX_NODES
    requires forall m | n <= m < to :: m !in found
    ensures Visit(Ends(first, second), n, n, found) == found + Span(n, to)
    decreases 8 - n
  {
    var groups := Ends(first, second);
    EndsHold(first, second, n);
    if n < to {
      SpanStarts(n, to, found);
    }
    if n == to {
      assert Span(n, to) == [];
    } else if n < 8 {
      hide Visit, Held, Children, Span, Ends;
      OneBelow(groups, n, n + 1, n, found);
      DownTheChain(first, second, n + 1, to, found + [n]);
    } else {
      SpanStarts(8, 9, found);
      assert Span(9, 9) == [];
    }
  }

  /**
   * Ten exceptions, none further than two from the error or eight along the chain: the last of the chain
   * is listed at depth eight first, and when it is met again at depth one, what it holds is left out.
   */
  lemma TooLate()
    ensures !ListsAll(Ends(1, 8), 0, Visit(Ends(1, 8), 0, 0, []))
  {
    hide Visit, VisitAll, Held, Children, Span;
    var groups := Ends(1, 8);
    EndsHold(1, 8, 0);
    EndsHold(1, 8, 8);
    TwoHeld(groups, 0, 1, 8);
    DownTheChain(1, 8, 1, 9, [0]);
    var found := [0] + Span(1, 9);
    InSpan(1, 9, 8);
    InSpan(1, 9, 9);
    SeenIsSkipped(groups, 8, 1, found);
    assert 8 in found && 9 !in found;
  }

  /** The same exceptions with the other one first: all are listed. So it is the order that decides. */
  lemma SoonEnough()
    ensures ListsAll(Ends(8, 1), 0, Visit(Ends(8, 1), 0, 0, []))
  {
    hide Visit, VisitAll, Held, Children, Span;
    var groups := Ends(8, 1);
    EndsHold(8, 1, 0);
    TwoHeld(groups, 0, 8, 1);
    EightFirst();
    DownTheChain(8, 1, 1, 8, [0, 8, 9]);
    var found := [0, 8, 9] + Span(1, 8);
    forall n: Node
      ensures n in found <==> n < 10
    {
      InSpan(1, 8, n);
    }
    forall n: Node, c: Node | n in found && c in Held(groups, n)
      ensures c in found
    {
      EndsHold(8, 1, n);
    }
  }

  lemma EightFirst()
    ensures Visit(Ends(8, 1), 8, 1, [0]) == [0, 8, 9]
  {
    var groups := Ends(8, 1);
    EndsHold(8, 1, 8);
    EndsHold(8, 1, 9);
    OnlyOne(groups, 9, 2, [0, 8]);
    assert [0] + [8] == [0, 8] && [0, 8] + [9] == [0, 8, 9];
    assert VisitAll(groups, [], 3, [0, 8, 9]) == [0, 8, 9];
  }

  lemma SeenIsSkipped(groups: Groups, n: Node, depth: nat, found: seq<Node>)
    requires n in found
    ensures Visit(groups, n, depth, found) == found
  {
  }

  /** The error and its two children, one after the other. */
  lemma TwoHeld(groups: Groups, error: Node, first: Node, second: Node)
    requires Children(groups, error) == [first, second]
    ensures Visit(groups, error, 0, [])
         == Visit(groups, second, 1, Visit(groups, first, 1, [error]))
  {
    hide Children;
    assert [first, second][1..] == [second];
    var found := Visit(groups, first, 1, [error]);
    OnlyOne(groups, second, 1, found);
    assert [] + [error] == [error];
    assert Visit(groups, error, 0, []) == VisitAll(groups, [first, second], 1, [error]);
    assert VisitAll(groups, [first, second], 1, [error]) == VisitAll(groups, [second], 1, found);
  }
}
