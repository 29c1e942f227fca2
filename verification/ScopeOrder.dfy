// The order in which scopes are left, and what it does to the stack of a context
// (src/deepintshield/agentic/execution.py). Synchronous generators hold their scope open in the
// context of their caller, so the scopes of one context need not end innermost first.

module ScopeOrder {
  import opened Common
  import opened Lifecycle
  import opened LifecycleProtocol

  // ---------------------------------------------------------------------------------------------
  // Own frames
  // ---------------------------------------------------------------------------------------------

  /** The frames that scopes put on the stack. */
  function Owned(scopes: seq<Scope>): seq<Frame> {
    if scopes == [] then []
    else
      var last := scopes[|scopes| - 1];
      Owned(scopes[..|scopes| - 1]) + if last.Own? then [last.frame] else []
  }

  lemma {:induction false} OwnedConcat(a: seq<Scope>, b: seq<Scope>)
    ensures Owned(a + b) == Owned(a) + Owned(b)
    decreases |b|
  {
    if b == [] {
      assert a + b == a;
    } else {
      var c := a + b;
      OwnedConcat(a, b[..|b| - 1]);
      assert c[..|c| - 1] == a + b[..|b| - 1];
    }
  }

  lemma OwnedOne(scope: Scope)
    ensures Owned([scope]) == if scope.Own? then [scope.frame] else []
  {
    assert [scope][..0] == [];
  }

  lemma OwnedAround(before: seq<Scope>, scope: Scope, after: seq<Scope>)
    ensures Owned(before + [scope] + after)
         == Owned(before) + (if scope.Own? then [scope.frame] else []) + Owned(after)
  {
    OwnedOne(scope);
    hide Owned;
    OwnedConcat(before, [scope]);
    OwnedConcat(before + [scope], after);
  }

  lemma Pieces(scopes: seq<Scope>, i: nat)
    requires i < |scopes|
    ensures scopes == scopes[..i] + [scopes[i]] + scopes[i + 1..]
  {
  }

  lemma OwnedSplit(scopes: seq<Scope>, i: nat)
    requires i < |scopes|
    ensures Owned(Without(scopes, i)) == Owned(scopes[..i]) + Owned(scopes[i + 1..])
    ensures Owned(scopes)
         == Owned(scopes[..i]) + (if scopes[i].Own? then [scopes[i].frame] else []) + Owned(scopes[i + 1..])
  {
    Pieces(scopes, i);
    hide Owned;
    var before, after := scopes[..i], scopes[i + 1..];
    OwnedConcat(before, after);
    OwnedAround(before, scopes[i], after);
  }

  lemma {:induction false} OwnedNone(scopes: seq<Scope>, j: nat)
    requires j < |scopes| && Owned(scopes) == []
    ensures scopes[j].Reused?
  {
    OwnedSplit(scopes, j);
  }

  // ---------------------------------------------------------------------------------------------
  // The stack says which scopes are open
  // ---------------------------------------------------------------------------------------------

  /** The stack of a context is the one it was copied with and the frames of its open scopes. */
  predicate Exact(c: Context) {
    c.stack == c.base + Owned(c.scopes)
  }

  predicate AllExact(s: State) {
    forall c <- s.contexts :: Exact(c)
  }

  /** Exact, and so is every stack that an open scope leads back to. */
  predicate Tidy(c: Context) {
    && Exact(c)
    && forall i | 0 <= i < |c.scopes| && c.scopes[i].Own? :: c.scopes[i].before == c.base + Owned(c.scopes[..i])
  }

  predicate AllTidy(s: State) {
    forall c <- s.contexts :: Tidy(c)
  }

  /** A scope that is left has no own frame above it. */
  predicate InnerFirst(s: State, step: Step)
    requires WellFormed(s) && Enabled(s, step)
  {
    step.Exit? ==>
      var scopes := s.contexts[step.c].scopes;
      scopes[step.i].Reused? || Owned(scopes[step.i + 1..]) == []
  }

  lemma PushTidy(c: Context, scope: Scope)
    requires Tidy(c) && (scope.Own? ==> scope.before == c.stack)
    ensures Tidy(c.(stack := c.stack + if scope.Own? then [scope.frame] else [], scopes := c.scopes + [scope]))
  {
    var scopes := c.scopes + [scope];
    assert scopes[..|c.scopes|] == c.scopes;
    forall i | 0 <= i < |scopes| && scopes[i].Own?
      ensures scopes[i].before == c.base + Owned(scopes[..i])
    {
      if i < |c.scopes| {
        assert scopes[..i] == c.scopes[..i];
      }
    }
  }

  /** A context after scope `i` was left. */
  function Left(c: Context, i: nat): Context
    requires i < |c.scopes|
  {
    c.(stack := if c.scopes[i].Own? then c.scopes[i].before else c.stack, scopes := Without(c.scopes, i))
  }

  /** Leaving a scope out of order shows at once. */
  lemma LeftExact(c: Context, i: nat)
    requires Tidy(c) && i < |c.scopes|
    ensures Exact(Left(c, i)) <==> c.scopes[i].Reused? || Owned(c.scopes[i + 1..]) == []
  {
    OwnedSplit(c.scopes, i);
    var rest := Owned(c.scopes[i + 1..]);
    if c.scopes[i].Own? {
      assert Left(c, i).stack == c.base + Owned(c.scopes[..i]);
      assert |c.base + Owned(Without(c.scopes, i))| == |Left(c, i).stack| + |rest|;
    }
  }

  lemma LeftTidy(c: Context, i: nat)
    requires Tidy(c) && i < |c.scopes|
    requires c.scopes[i].Reused? || Owned(c.scopes[i + 1..]) == []
    ensures Tidy(Left(c, i))
  {
    LeftExact(c, i);
    var others := Without(c.scopes, i);
    forall j | 0 <= j < |others| && others[j].Own?
      ensures others[j].before == c.base + Owned(others[..j])
    {
      LeftBefore(c, i, j);
    }
  }

  lemma LeftBefore(c: Context, i: nat, j: nat)
    requires Tidy(c) && i < |c.scopes| && j < |c.scopes| - 1 && Without(c.scopes, i)[j].Own?
    requires c.scopes[i].Reused? || Owned(c.scopes[i + 1..]) == []
    ensures Without(c.scopes, i)[j].before == c.base + Owned(Without(c.scopes, i)[..j])
  {
    hide Owned;
    if j < i {
      assert Without(c.scopes, i)[..j] == c.scopes[..j];
    } else {
      assert Without(c.scopes, i)[j] == c.scopes[i + 1..][j - i];
      if c.scopes[i].Own? {
        OwnedNone(c.scopes[i + 1..], j - i);
      } else {
        OwnedAfter(c.scopes, i, j);
      }
    }
  }

  /** Leaving a reusing scope changes no own frames. */
  lemma OwnedAfter(scopes: seq<Scope>, i: nat, j: nat)
    requires i <= j < |scopes| - 1 && scopes[i].Reused?
    ensures Owned(Without(scopes, i)[..j]) == Owned(scopes[..j + 1])
  {
    var first := scopes[..j + 1];
    OwnedSplit(first, i);
    assert Without(scopes, i)[..j] == Without(first, i);
    assert first[i] == scopes[i];
  }

  lemma StepTidy(s: State, step: Step)
    requires WellFormed(s) && Enabled(s, step) && AllTidy(s)
    ensures InnerFirst(s, step) ==> AllTidy(Apply(s, step))
    ensures AllExact(Apply(s, step)) ==> InnerFirst(s, step)
  {
    hide Tidy, Exact, Innermost, EmitStart, EmitFinish;
    var s' := Apply(s, step);
    match step {
      case Spawn => Base([]);
      case Fork(c) => Base(s.contexts[c].stack);
      case Enter(c, engine, _, _) => EnterTidy(s, step);
      case Exit(c, i, _, _) => ExitTidy(s, step);
      case _ => assert s'.contexts == s.contexts;
    }
  }

  lemma Base(stack: seq<Frame>)
    ensures Tidy(Context(stack, stack, []))
  {
  }

  lemma EnterTidy(s: State, step: Step)
    requires WellFormed(s) && Enabled(s, step) && AllTidy(s) && step.Enter?
    ensures AllTidy(Apply(s, step))
  {
    hide Tidy, Innermost;
    var context := s.contexts[step.c];
    var active := Innermost(context.stack, s.engineOf, step.engine);
    var scope := if active.Some? then Reused(active.value) else Own(|s.engineOf|, context.stack);
    PushTidy(context, scope);
    assert context.stack + [] == context.stack;
  }

  lemma ExitTidy(s: State, step: Step)
    requires WellFormed(s) && Enabled(s, step) && AllTidy(s) && step.Exit?
    ensures InnerFirst(s, step) ==> AllTidy(Apply(s, step))
    ensures AllExact(Apply(s, step)) ==> InnerFirst(s, step)
  {
    hide Tidy, Exact;
    var c := s.contexts[step.c];
    var s' := Apply(s, step);
    assert s'.contexts == s.contexts[step.c := Left(c, step.i)] by {
      hide Without;
    }
    assert s'.contexts[step.c] == Left(c, step.i);
    LeftExact(c, step.i);
    if InnerFirst(s, step) {
      LeftTidy(c, step.i);
    }
  }

  // ---------------------------------------------------------------------------------------------
  // Runs
  // ---------------------------------------------------------------------------------------------

  /** At every moment of a run each stack says which scopes are open. */
  ghost predicate ExactThroughout(s: State, steps: seq<Step>, s': State)
    requires Leads(s, steps, s')
    decreases |steps|
  {
    AllExact(s) && (steps != [] ==> ExactThroughout(Apply(s, steps[0]), steps[1..], s'))
  }

  /** Every scope with a frame of its own is left before those around it. */
  ghost predicate Orderly(s: State, steps: seq<Step>, s': State)
    requires Leads(s, steps, s')
    decreases |steps|
  {
    steps != [] ==> InnerFirst(s, steps[0]) && Orderly(Apply(s, steps[0]), steps[1..], s')
  }

  lemma {:induction false} ExactFrom(s: State, steps: seq<Step>, s': State)
    requires AllTidy(s) && Leads(s, steps, s')
    ensures ExactThroughout(s, steps, s') <==> Orderly(s, steps, s')
    ensures Orderly(s, steps, s') ==> AllTidy(s')
    decreases |steps|
  {
    hide Apply, Enabled, WellFormed, InnerFirst;
    assert AllExact(s);
    if steps != [] {
      StepTidy(s, steps[0]);
      if InnerFirst(s, steps[0]) {
        ExactFrom(Apply(s, steps[0]), steps[1..], s');
      } else {
        assert !ExactThroughout(Apply(s, steps[0]), steps[1..], s');
      }
    }
  }

  /**
   * At every moment of a run the stack of each context is the one it was copied with and the frames
   * of its open scopes, if and only if own scopes are left innermost first.
   */
  lemma ExactExactlyWhenOrderly(steps: seq<Step>, s: State)
    requires Leads(FRESH, steps, s)
    ensures ExactThroughout(FRESH, steps, s) <==> Orderly(FRESH, steps, s)
    ensures Orderly(FRESH, steps, s) ==> forall c <- s.contexts | Owned(c.scopes) == [] :: c.stack == c.base
  {
    ExactFrom(FRESH, steps, s);
    if Orderly(FRESH, steps, s) {
      forall c <- s.contexts | Owned(c.scopes) == []
        ensures c.stack == c.base
      {
        assert Tidy(c);
      }
    }
  }

  // ---------------------------------------------------------------------------------------------
  // Runs in any order
  // ---------------------------------------------------------------------------------------------

  predicate LeavesOwn(s: State, step: Step, c: nat)
    requires WellFormed(s) && Enabled(s, step)
  {
    step.Exit? && step.c == c && s.contexts[c].scopes[step.i].Own?
  }

  /** The own scope of a context that a run leaves last. */
  ghost function LastLeft(s: State, steps: seq<Step>, s': State, c: nat): (r: Option<Scope>)
    requires Leads(s, steps, s')
    ensures r.Some? ==> r.value.Own?
    decreases |steps|
  {
    if steps == [] then None
    else
      var later := LastLeft(Apply(s, steps[0]), steps[1..], s', c);
      if later.None? && LeavesOwn(s, steps[0], c) then Some(s.contexts[c].scopes[steps[0].i]) else later
  }

  /** What a step does to one context. */
  lemma StepOn(s: State, step: Step, c: nat)
    requires WellFormed(s) && Enabled(s, step)
    ensures |s.contexts| <= |Apply(s, step).contexts|
    ensures LeavesOwn(s, step, c) ==> c < |s.contexts|
    ensures c < |s.contexts| ==>
      var x, y := s.contexts[c], Apply(s, step).contexts[c];
      && x.base == y.base
      && (LeavesOwn(s, step, c) ==> y.stack == x.scopes[step.i].before)
      && (!LeavesOwn(s, step, c) ==> (y.stack == x.stack || Owned(y.scopes) != []))
      && (!LeavesOwn(s, step, c) && Owned(x.scopes) != [] ==> Owned(y.scopes) != [])
    ensures |s.contexts| <= c < |Apply(s, step).contexts| ==>
      var y := Apply(s, step).contexts[c]; y.stack == y.base && y.scopes == []
  {
    hide Innermost;
    if step.Exit? {
      OwnedSplit(s.contexts[step.c].scopes, step.i);
    } else if step.Enter? {
      var scopes := s.contexts[step.c].scopes;
      var active := Innermost(s.contexts[step.c].stack, s.engineOf, step.engine);
      var scope := if active.Some? then Reused(active.value) else Own(|s.engineOf|, s.contexts[step.c].stack);
      OwnedConcat(scopes, [scope]);
      OwnedOne(scope);
    }
  }

  lemma {:induction false} RunOn(s: State, steps: seq<Step>, s': State, c: nat)
    requires Leads(s, steps, s') && c < |s'.contexts|
    ensures |s.contexts| <= |s'.contexts|
    ensures c < |s.contexts| ==> s.contexts[c].base == s'.contexts[c].base
    ensures var last := LastLeft(s, steps, s', c);
      && (Owned(s'.contexts[c].scopes) == [] && last.Some? ==> s'.contexts[c].stack == last.value.before)
      && (Owned(s'.contexts[c].scopes) == [] && last.None? ==>
        s'.contexts[c].stack == if c < |s.contexts| then s.contexts[c].stack else s'.contexts[c].base)
      && (c < |s.contexts| && last.None? && Owned(s.contexts[c].scopes) != [] ==> Owned(s'.contexts[c].scopes) != [])
    decreases |steps|
  {
    hide Apply, Enabled, WellFormed, LeavesOwn;
    if steps != [] {
      StepOn(s, steps[0], c);
      RunOn(Apply(s, steps[0]), steps[1..], s', c);
    }
  }

  /**
   * In whatever order its scopes are left, a context that has left all its own scopes has the stack
   * it was copied with if and only if the one left last was entered on that stack.
   */
  lemma RestoredExactlyWhenLastIsOuter(steps: seq<Step>, s: State, c: nat)
    requires Leads(FRESH, steps, s) && c < |s.contexts| && Owned(s.contexts[c].scopes) == []
    ensures var last := LastLeft(FRESH, steps, s, c);
      s.contexts[c].stack == s.contexts[c].base <==> last.None? || last.value.before == s.contexts[c].base
  {
    RunOn(FRESH, steps, s, c);
  }

  // ---------------------------------------------------------------------------------------------
  // Two streams of one context
  // ---------------------------------------------------------------------------------------------

  lemma Chain(s: State, step: Step, rest: seq<Step>, s': State)
    requires WellFormed(s) && Enabled(s, step) && Leads(Apply(s, step), rest, s')
    ensures Leads(s, [step] + rest, s')
  {
    assert ([step] + rest)[1..] == rest;
  }

  /** One context, and workers that have taken nothing yet. */
  function Sole(engineOf: seq<nat>, open: set<Frame>, c: Context, history: seq<Job>): State {
    State(engineOf, open, [c], history, 0, {}, FRESH.workers, [])
  }

  lemma EnterNew(engineOf: seq<nat>, open: set<Frame>, c: Context, history: seq<Job>, engine: nat,
      stack: seq<Frame>, scopes: seq<Scope>, more: seq<Job>)
    requires Known(c.stack, engineOf) && Innermost(c.stack, engineOf, engine).None? && |history| < QUEUE_MAX
    requires stack == c.stack + [|engineOf|] && scopes == c.scopes + [Own(|engineOf|, c.stack)]
    requires more == history + [Start(|engineOf|)]
    ensures Apply(Sole(engineOf, open, c, history), Enter(0, engine, true, false))
         == Sole(engineOf + [engine], open + {|engineOf|}, Context(c.base, stack, scopes), more)
  {
    hide Innermost;
  }

  lemma ExitOwnScope(engineOf: seq<nat>, open: set<Frame>, c: Context, history: seq<Job>,
      others: seq<Scope>, more: seq<Job>)
    requires Known(c.stack, engineOf) && c.scopes != [] && c.scopes[0].Own? && |history| < QUEUE_MAX
    requires others == c.scopes[1..] && more == history + [Finish(c.scopes[0].frame)]
    ensures Apply(Sole(engineOf, open, c, history), Exit(0, 0, true, false))
         == Sole(engineOf, open - {c.scopes[0].frame}, Context(c.base, c.scopes[0].before, others), more)
  {
    assert Without(c.scopes, 0) == others;
  }

  const SPAWNED := Sole([], {}, Context([], [], []), [])
  const FIRST := Context([], [0], [Own(0, [])])

  lemma EnterFirst(a: nat)
    ensures WellFormed(SPAWNED) && Apply(FRESH, Spawn) == SPAWNED
    ensures Apply(SPAWNED, Enter(0, a, true, false)) == Sole([a], {0}, FIRST, [Start(0)])
  {
    EnterNew([], {}, Context([], [], []), [], a, [0], [Own(0, [])], [Start(0)]);
    assert [] + [a] == [a];
  }

  const BOTH := Context([], [0, 1], [Own(0, []), Own(1, [0])])
  const STARTS := [Start(0), Start(1)]

  lemma EnterSecond(a: nat, b: nat)
    requires a != b
    ensures WellFormed(Sole([a], {0}, FIRST, [Start(0)]))
    ensures Apply(Sole([a], {0}, FIRST, [Start(0)]), Enter(0, b, true, false)) == Sole([a, b], {0, 1}, BOTH, STARTS)
  {
    EnterNew([a], {0}, FIRST, [Start(0)], b, BOTH.stack, BOTH.scopes, STARTS);
    assert [a] + [b] == [a, b];
  }

  lemma LeaveBoth(a: nat, b: nat)
    ensures Leads(Sole([a, b], {0, 1}, BOTH, STARTS), [Exit(0, 0, true, false)] + [Exit(0, 0, true, false)],
      Sole([a, b], {}, Context([], [0], []), STARTS + [Finish(0), Finish(1)]))
  {
    var exit := Exit(0, 0, true, false);
    var left := Context([], [], [Own(1, [0])]);
    var s := Sole([a, b], {0, 1}, BOTH, STARTS);
    ExitOwnScope([a, b], {0, 1}, BOTH, STARTS, left.scopes, STARTS + [Finish(0)]);
    assert {0, 1} - {0} == {1} && {1} - {1} == {};
    ExitOwnScope([a, b], {1}, left, STARTS + [Finish(0)], [], STARTS + [Finish(0), Finish(1)]);
    hide Apply, Innermost, Leads;
    var s' := Sole([a, b], {1}, left, STARTS + [Finish(0)]);
    var s'' := Sole([a, b], {}, Context([], [0], []), STARTS + [Finish(0), Finish(1)]);
    Stay(s'');
    Chain(s', exit, [], s'');
    assert [exit] + [] == [exit];
    Chain(s, exit, [exit], s'');
  }

  /** As long as a frame of an engine is on the stack, no run of the engine there is reported. */
  lemma NothingReported(s: State, c: nat, engine: nat, enabled: bool, finalizing: bool)
    requires WellFormed(s) && c < |s.contexts|
    requires exists f <- s.contexts[c].stack :: s.engineOf[f] == engine
    ensures var s' := Apply(s, Enter(c, engine, enabled, finalizing));
      s'.history == s.history && s'.open == s.open && s'.engineOf == s.engineOf
  {
  }

  /**
   * A stream of each of two engines, interleaved: both end, the frame of the first stays, and the next
   * run of its engine in this context is not reported.
   */
  lemma InterleavedStreams(a: nat, b: nat) returns (steps: seq<Step>, s: State)
    requires a != b
    ensures steps == [Spawn, Enter(0, a, true, false), Enter(0, b, true, false),
                      Exit(0, 0, true, false), Exit(0, 0, true, false)]
    ensures Leads(FRESH, steps, s)
    ensures s.contexts == [Context([], [0], [])] && s.engineOf == [a, b] && s.open == {}
    ensures s.history == [Start(0), Start(1), Finish(0), Finish(1)]
    ensures WellFormed(s) && Apply(s, Enter(0, a, true, false)).history == s.history
  {
    hide Apply, Innermost, Leads;
    var enterA, enterB, exit := Enter(0, a, true, false), Enter(0, b, true, false), Exit(0, 0, true, false);
    s := Sole([a, b], {}, Context([], [0], []), STARTS + [Finish(0), Finish(1)]);
    EnterFirst(a);
    EnterSecond(a, b);
    LeaveBoth(a, b);
    assert 0 in s.contexts[0].stack && s.engineOf[0] == a;
    NothingReported(s, 0, a, true, false);
    steps := [exit] + [exit];
    Chain(Sole([a], {0}, FIRST, [Start(0)]), enterB, steps, s);
    steps := [enterB] + steps;
    Chain(SPAWNED, enterA, steps, s);
    steps := [enterA] + steps;
    Chain(FRESH, Spawn, steps, s);
    steps := [Spawn] + steps;
  }

  lemma Stay(s: State)
    ensures Leads(s, [], s)
  {
  }

  const AGAIN := Context([], [0], [Own(0, []), Reused(0)])

  lemma EnterAgain(a: nat)
    ensures WellFormed(Sole([a], {0}, FIRST, [Start(0)]))
    ensures Apply(Sole([a], {0}, FIRST, [Start(0)]), Enter(0, a, true, false)) == Sole([a], {0}, AGAIN, [Start(0)])
  {
    assert Innermost([0], [a], a) == Some(0);
    assert FIRST.scopes + [Reused(0)] == AGAIN.scopes;
    assert [FIRST][0 := AGAIN] == [AGAIN];
    hide Innermost;
  }

  lemma LeaveFirst(a: nat)
    ensures WellFormed(Sole([a], {0}, AGAIN, [Start(0)]))
    ensures Apply(Sole([a], {0}, AGAIN, [Start(0)]), Exit(0, 0, true, false))
         == Sole([a], {}, Context([], [], [Reused(0)]), [Start(0), Finish(0)])
  {
    ExitOwnScope([a], {0}, AGAIN, [Start(0)], [Reused(0)], [Start(0), Finish(0)]);
    assert {0} - {0} == {};
  }

  /** Two streams of one engine: the first ends while the second, which reuses its frame, goes on. */
  lemma ReuseOutlivesFrame(a: nat) returns (steps: seq<Step>, s: State)
    ensures steps == [Spawn, Enter(0, a, true, false), Enter(0, a, true, false), Exit(0, 0, true, false)]
    ensures Leads(FRESH, steps, s)
    ensures s.contexts == [Context([], [], [Reused(0)])] && s.open == {} && s.history == [Start(0), Finish(0)]
  {
    hide Apply, Innermost, Leads;
    var enter, exit := Enter(0, a, true, false), Exit(0, 0, true, false);
    s := Sole([a], {}, Context([], [], [Reused(0)]), [Start(0), Finish(0)]);
    EnterFirst(a);
    EnterAgain(a);
    LeaveFirst(a);
    Stay(s);
    Chain(Sole([a], {0}, AGAIN, [Start(0)]), exit, [], s);
    steps := [exit] + [];
    Chain(Sole([a], {0}, FIRST, [Start(0)]), enter, steps, s);
    steps := [enter] + steps;
    Chain(SPAWNED, enter, steps, s);
    steps := [enter] + steps;
    Chain(FRESH, Spawn, steps, s);
    steps := [Spawn] + steps;
  }
}
