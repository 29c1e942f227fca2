// What holds over every run of scopes, contexts and telemetry workers.

module LifecycleProtocol {
  import opened Common
  import opened Lifecycle

  // ---------------------------------------------------------------------------------------------
  // Stacks
  // ---------------------------------------------------------------------------------------------

  lemma OneEachGrows(c: Context, engineOf: seq<nat>, engine: nat)
    requires OneEach(c, engineOf)
    ensures OneEach(c, engineOf + [engine])
  {
  }

  lemma SameStacks(s: State, s': State)
    requires Stacks(s) && OwnOpen(s)
    requires s'.contexts == s.contexts && s'.engineOf == s.engineOf && s'.open == s.open
    ensures Stacks(s') && OwnOpen(s')
  {
  }

  lemma OtherContexts(contexts: seq<Context>, c: nat, inner: Context, engineOf: seq<nat>)
    requires c < |contexts| && OneEach(inner, engineOf)
    requires forall x <- contexts :: OneEach(x, engineOf)
    ensures forall x <- contexts[c := inner] :: OneEach(x, engineOf)
  {
  }

  lemma EnterStacks(s: State, c: nat, engine: nat, enabled: bool, finalizing: bool)
    requires WellFormed(s) && c < |s.contexts| && Stacks(s)
    ensures Stacks(EnterScope(s, c, engine, enabled, finalizing))
  {
    var context := s.contexts[c];
    var active := Innermost(context.stack, s.engineOf, engine);
    assert OneEach(context, s.engineOf);
    if active.Some? {
      OtherContexts(s.contexts, c, context.(scopes := context.scopes + [Reused(active.value)]), s.engineOf);
    } else {
      var f := |s.engineOf|;
      var engineOf := s.engineOf + [engine];
      forall x <- s.contexts
        ensures OneEach(x, engineOf)
      {
        OneEachGrows(x, s.engineOf, engine);
      }
      OtherContexts(s.contexts, c,
        context.(stack := context.stack + [f], scopes := context.scopes + [Own(f, context.stack)]), engineOf);
    }
  }

  lemma ExitStacks(s: State, c: nat, i: nat, enabled: bool, finalizing: bool)
    requires c < |s.contexts| && i < |s.contexts[c].scopes| && Stacks(s)
    ensures Stacks(ExitScope(s, c, i, enabled, finalizing))
  {
    var context := s.contexts[c];
    var scope := context.scopes[i];
    assert OneEach(context, s.engineOf);
    OtherContexts(s.contexts, c,
      context.(stack := if scope.Own? then scope.before else context.stack, scopes := Without(context.scopes, i)),
      s.engineOf);
  }

  // ---------------------------------------------------------------------------------------------
  // Own scopes
  // ---------------------------------------------------------------------------------------------

  lemma EnterOwn(s: State, c: nat, engine: nat, enabled: bool, finalizing: bool)
    requires WellFormed(s) && c < |s.contexts| && OwnOpen(s)
    ensures OwnOpen(EnterScope(s, c, engine, enabled, finalizing))
  {
    hide Innermost;
    var s' := EnterScope(s, c, engine, enabled, finalizing);
    var n := |s.contexts[c].scopes|;
    forall d: nat, j: nat, f: Frame
      ensures Owns(s'.contexts, d, j, f) ==> Owns(s.contexts, d, j, f) || (d == c && j == n && f == |s.engineOf|)
    {
    }
    hide Owns, EnterScope;
  }

  lemma ExitOwn(s: State, c: nat, i: nat, enabled: bool, finalizing: bool)
    requires c < |s.contexts| && i < |s.contexts[c].scopes| && OwnOpen(s)
    ensures OwnOpen(ExitScope(s, c, i, enabled, finalizing))
  {
    var s' := ExitScope(s, c, i, enabled, finalizing);
    forall d: nat, j: nat, f: Frame
      ensures Owns(s'.contexts, d, j, f) ==> Owns(s.contexts, d, Before(c, i, d, j), f)
    {
    }
    assert s'.open == s.open || (exists f :: Owns(s.contexts, c, i, f) && s'.open == s.open - {f}) by {
      if s.contexts[c].scopes[i].Own? {
        assert Owns(s.contexts, c, i, s.contexts[c].scopes[i].frame);
      }
    }
    assert s'.engineOf == s.engineOf;
    hide Owns, ExitScope;
  }

  /** Where scope `j` of context `d` was before scope `i` of context `c` was left. */
  function Before(c: nat, i: nat, d: nat, j: nat): nat {
    if d == c && i <= j then j + 1 else j
  }

  // ---------------------------------------------------------------------------------------------
  // Jobs
  // ---------------------------------------------------------------------------------------------

  /** A new frame and, if there is room, its start. */
  lemma StartJobs(s: State, f: Frame, engine: nat, contexts: seq<Context>, enabled: bool, finalizing: bool)
    requires Jobs(s) && f == |s.engineOf|
    ensures Jobs(EmitStart(
      s.(engineOf := s.engineOf + [engine], open := s.open + {f}, contexts := contexts), f, enabled, finalizing))
  {
    var s' := EmitStart(
      s.(engineOf := s.engineOf + [engine], open := s.open + {f}, contexts := contexts), f, enabled, finalizing);
    assert Ordered(s') && Busy(s') && Sent(s') by {
      hide Delivered;
    }
    StartDelivered(s, f, s');
  }

  lemma StartDelivered(s: State, f: Frame, s': State)
    requires Ordered(s) && Delivered(s) && f == |s.engineOf| && |s'.engineOf| == f + 1
    requires s'.taken == s.taken && s'.workers == s.workers
    requires
      || (s'.history == s.history + [Start(f)] && s'.delivered == s.delivered)
      || (s'.history == s.history && s'.delivered == s.delivered + {f})
    ensures Delivered(s')
  {
    assert forall k: nat | k < |s.history| :: Pending(s', k) <==> Pending(s, k);
    var n: nat := |s.history|;
    assert |s'.history| > n ==> Pending(s', n);
    hide Pending;
  }

  lemma FinishJobs(s: State, f: Frame, contexts: seq<Context>, enabled: bool, finalizing: bool)
    requires Jobs(s) && f in s.open && f < |s.engineOf|
    ensures Jobs(EmitFinish(s.(open := s.open - {f}, contexts := contexts), f, enabled, finalizing))
  {
    var s' := EmitFinish(s.(open := s.open - {f}, contexts := contexts), f, enabled, finalizing);
    assert Ordered(s') && Busy(s') && Sent(s') by {
      hide Delivered;
    }
    assert forall k: nat | k < |s'.history| :: Pending(s', k) <==> k < |s.history| && Pending(s, k);
    assert Delivered(s') by {
      hide Pending, Ordered, Busy, Sent;
    }
  }

  lemma SameJobs(s: State, contexts: seq<Context>)
    requires Jobs(s)
    ensures Jobs(s.(contexts := contexts))
  {
  }

  lemma TakeJobs(s: State, w: nat)
    requires WellFormed(s) && Jobs(s) && Enabled(s, Take(w))
    ensures Jobs(Apply(s, Take(w)))
  {
    var s' := Apply(s, Take(w));
    assert Ordered(s') && Busy(s') && Sent(s') by {
      hide Delivered;
    }
    assert s'.workers[w].at == s.taken;
    forall k: nat | k < |s.history|
      ensures Pending(s', k) <==> Pending(s, k)
    {
      StillStarting(s, s', w, k);
    }
    assert Delivered(s') by {
      hide Pending, Ordered, Busy, Sent;
    }
  }

  /** The other workers go on with what they do. */
  lemma StillStarting(s: State, s': State, w: nat, k: nat)
    requires |s.workers| == |s'.workers| && w < |s.workers| && s'.workers == s.workers[w := s'.workers[w]]
    ensures s.workers[w] != Starting(k) && s'.workers[w] != Starting(k) ==>
      (Starting(k) in s'.workers <==> Starting(k) in s.workers)
    ensures s'.workers[w] == Starting(k) ==> Starting(k) in s'.workers
    ensures s.workers[w] == Starting(k) ==> Starting(k) in s.workers
  {
    if Starting(k) in s.workers && s.workers[w] != Starting(k) {
      var v :| 0 <= v < |s.workers| && s.workers[v] == Starting(k);
      assert s'.workers[v] == Starting(k);
    }
  }

  lemma DeliverJobs(s: State, w: nat)
    requires WellFormed(s) && Jobs(s) && Enabled(s, Deliver(w))
    ensures Jobs(Apply(s, Deliver(w)))
  {
    var s' := Apply(s, Deliver(w));
    var at := s.workers[w].at;
    StillStarting(s, s', w, at);
    assert Pending(s, at);
    forall k: nat | k < |s.history|
      ensures Pending(s', k) <==> Pending(s, k) && k != at
    {
      StillStarting(s, s', w, k);
    }
    assert Ordered(s') && Busy(s') && Sent(s') by {
      hide Pending;
    }
    assert Delivered(s') by {
      hide Pending, Busy, Sent;
    }
  }

  /** Steps of a worker that has no start in hand. */
  lemma FinishingJobs(s: State, step: Step)
    requires WellFormed(s) && Jobs(s) && Enabled(s, step) && (step.Wake? || step.Expire? || step.Send?)
    ensures Jobs(Apply(s, step))
  {
    var s' := Apply(s, step);
    assert Ordered(s') && Busy(s') && Sent(s') by {
      hide Delivered;
    }
    forall k: nat | k < |s.history|
      ensures Pending(s', k) <==> Pending(s, k)
    {
      StillStarting(s, s', step.w, k);
    }
    assert Delivered(s') by {
      hide Pending, Ordered, Busy, Sent;
    }
  }

  // ---------------------------------------------------------------------------------------------
  // Runs
  // ---------------------------------------------------------------------------------------------

  lemma InvIsWellFormed(s: State)
    requires Inv(s)
    ensures WellFormed(s)
  {
  }

  lemma StepKeeps(s: State, step: Step)
    requires WellFormed(s) && Inv(s) && Enabled(s, step)
    ensures Inv(Apply(s, step))
  {
    hide Jobs, Innermost;
    match step {
      case Enter(c, engine, enabled, finalizing) =>
        EnterStacks(s, c, engine, enabled, finalizing);
        EnterOwn(s, c, engine, enabled, finalizing);
        EnterJobs(s, c, engine, enabled, finalizing);
      case Exit(c, i, enabled, finalizing) =>
        ExitStacks(s, c, i, enabled, finalizing);
        ExitOwn(s, c, i, enabled, finalizing);
        ExitJobs(s, c, i, enabled, finalizing);
      case Take(w) =>
        TakeJobs(s, w);
        SameStacks(s, Apply(s, step));
      case Deliver(w) =>
        DeliverJobs(s, w);
        SameStacks(s, Apply(s, step));
      case Spawn => NewContext(s, step, Context([], [], []));
      case Fork(c) => NewContext(s, step, Context(s.contexts[c].stack, s.contexts[c].stack, []));
      case _ =>
        FinishingJobs(s, step);
        SameStacks(s, Apply(s, step));
    }
  }

  lemma NewContext(s: State, step: Step, c: Context)
    requires WellFormed(s) && Inv(s) && Enabled(s, step) && Apply(s, step) == s.(contexts := s.contexts + [c])
    requires c.scopes == [] && (c.stack == [] || exists d <- s.contexts :: d.stack == c.stack)
    ensures Inv(Apply(s, step))
  {
    hide Jobs;
    SameJobs(s, s.contexts + [c]);
    forall d: nat, i: nat, f: Frame
      ensures Owns(s.contexts + [c], d, i, f) <==> Owns(s.contexts, d, i, f)
    {
    }
    assert Stacks(Apply(s, step));
    assert OwnOpen(Apply(s, step)) by {
      hide Owns, Stacks;
    }
  }

  lemma EnterJobs(s: State, c: nat, engine: nat, enabled: bool, finalizing: bool)
    requires WellFormed(s) && c < |s.contexts| && Jobs(s)
    ensures Jobs(EnterScope(s, c, engine, enabled, finalizing))
  {
    hide Jobs, EmitStart;
    var context := s.contexts[c];
    var active := Innermost(context.stack, s.engineOf, engine);
    if active.Some? {
      SameJobs(s, s.contexts[c := context.(scopes := context.scopes + [Reused(active.value)])]);
    } else {
      var f := |s.engineOf|;
      var inner := context.(stack := context.stack + [f], scopes := context.scopes + [Own(f, context.stack)]);
      StartJobs(s, f, engine, s.contexts[c := inner], enabled, finalizing);
    }
  }

  lemma ExitJobs(s: State, c: nat, i: nat, enabled: bool, finalizing: bool)
    requires c < |s.contexts| && i < |s.contexts[c].scopes| && Jobs(s) && OwnOpen(s)
    ensures Jobs(ExitScope(s, c, i, enabled, finalizing))
  {
    hide Jobs, EmitFinish, Without;
    var context := s.contexts[c];
    var scope, others := context.scopes[i], Without(context.scopes, i);
    if scope.Own? {
      assert Owns(s.contexts, c, i, scope.frame);
      var left := context.(stack := scope.before, scopes := others);
      FinishJobs(s, scope.frame, s.contexts[c := left], enabled, finalizing);
    } else {
      SameJobs(s, s.contexts[c := context.(scopes := others)]);
    }
  }

  /** A run of enabled steps, and where it leads. */
  ghost predicate Leads(s: State, steps: seq<Step>, s': State)
    decreases |steps|
  {
    if steps == [] then s' == s
    else WellFormed(s) && Enabled(s, steps[0]) && Leads(Apply(s, steps[0]), steps[1..], s')
  }

  lemma {:induction false} RunKeeps(s: State, steps: seq<Step>, s': State)
    requires Inv(s) && Leads(s, steps, s')
    ensures Inv(s')
    decreases |steps|
  {
    hide Inv, Apply, Enabled, WellFormed;
    if steps != [] {
      InvIsWellFormed(s);
      StepKeeps(s, steps[0]);
      RunKeeps(Apply(s, steps[0]), steps[1..], s');
    }
  }

  lemma FreshHolds()
    ensures Inv(FRESH)
  {
  }

  // ---------------------------------------------------------------------------------------------
  // Main results
  // ---------------------------------------------------------------------------------------------

  /**
   * On every run, in whatever order scopes are left: no stack has two frames of one engine; no job is
   * queued twice; and once a finish was sent without an expired wait, the start attempt of its frame
   * does not end any more.
   */
  lemma RunIsSound(steps: seq<Step>, s: State)
    requires Leads(FRESH, steps, s)
    ensures forall c <- s.contexts :: Distinct(c.stack, s.engineOf)
    ensures forall j, k | 0 <= j < k < |s.history| :: s.history[j] != s.history[k]
    ensures forall j, k | 0 <= j < k < |s.log| && s.log[j].FinishSent? && !s.log[j].expired ::
      s.log[k] != StartEnded(s.log[j].frame)
  {
    FreshHolds();
    RunKeeps(FRESH, steps, s);
  }

  /** A worker that waits for a start waits for one that another worker has in hand. */
  lemma WaitsForStarting(steps: seq<Step>, s: State, w: nat) returns (v: nat)
    requires Leads(FRESH, steps, s) && w < |s.workers| && s.workers[w].Waiting? && s.workers[w].at < |s.history|
    requires FrameOf(s, s.workers[w]) !in s.delivered
    ensures v < |s.workers| && s.workers[v].Starting? && s.workers[v].at < |s.history|
    ensures FrameOf(s, s.workers[v]) == FrameOf(s, s.workers[w])
  {
    FreshHolds();
    RunKeeps(FRESH, steps, s);
    v := Starter(s, w);
  }

  lemma Starter(s: State, w: nat) returns (v: nat)
    requires Inv(s) && w < |s.workers| && s.workers[w].Waiting? && FrameOf(s, s.workers[w]) !in s.delivered
    ensures v < |s.workers| && s.workers[v].Starting? && FrameOf(s, s.workers[v]) == FrameOf(s, s.workers[w])
  {
    var f := FrameOf(s, s.workers[w]);
    var k: nat :| k < |s.history| && Pending(s, k) && s.history[k].frame == f;
    assert s.history[k] == Start(f) && s.history[s.workers[w].at] == Finish(f);
    v :| 0 <= v < |s.workers| && s.workers[v] == Starting(k);
  }

  function Rank(w: Worker): nat {
    match w
    case Idle => 0
    case Waiting(_) => 2
    case _ => 1
  }

  function Ranks(workers: seq<Worker>): nat {
    if workers == [] then 0 else Rank(workers[0]) + Ranks(workers[1..])
  }

  /** What the workers still have to do. */
  function Work(s: State): nat
    requires WellFormed(s)
  {
    3 * (|s.history| - s.taken) + Ranks(s.workers)
  }

  lemma {:induction false} RankChanges(workers: seq<Worker>, w: nat, worker: Worker)
    requires w < |workers|
    ensures Ranks(workers[w := worker]) == Ranks(workers) - Rank(workers[w]) + Rank(worker)
  {
    if w == 0 {
      assert workers[0 := worker][1..] == workers[1..];
    } else {
      assert workers[w := worker][1..] == workers[1..][w - 1 := worker];
      RankChanges(workers[1..], w - 1, worker);
    }
  }

  predicate Resting(s: State) {
    s.taken == |s.history| && forall w <- s.workers :: w.Idle?
  }

  /** A step of a worker in which no wait expires. */
  predicate Plain(step: Step) {
    step.Take? || step.Deliver? || step.Wake? || step.Send?
  }

  /** Some worker can go on without an expired wait, as long as there is anything to do. */
  lemma SomeoneMoves(s: State) returns (step: Step)
    requires Inv(s) && WellFormed(s) && !Resting(s)
    ensures Plain(step) && Enabled(s, step)
  {
    if w: nat :| w < |s.workers| && !s.workers[w].Idle? {
      match s.workers[w] {
        case Starting(_) => step := Deliver(w);
        case Finishing(_, _) => step := Send(w);
        case Waiting(_) =>
          if FrameOf(s, s.workers[w]) in s.delivered {
            step := Wake(w);
          } else {
            var v := Starter(s, w);
            step := Deliver(v);
          }
      }
    } else {
      step := Take(0);
    }
  }

  lemma PlainWorks(s: State, step: Step)
    requires Inv(s) && WellFormed(s) && Plain(step) && Enabled(s, step)
    ensures WellFormed(Apply(s, step)) && Work(Apply(s, step)) < Work(s)
  {
    hide Inv;
    StepKeeps(s, step);
    InvIsWellFormed(Apply(s, step));
    RankChanges(s.workers, step.w, Apply(s, step).workers[step.w]);
  }

  /** The workers cannot deadlock: from every state they finish all their work with no wait expiring. */
  lemma {:induction false} WorkersDrain(s: State) returns (steps: seq<Step>, s': State)
    requires Inv(s) && WellFormed(s)
    ensures Leads(s, steps, s') && Resting(s') && (forall step <- steps :: Plain(step)) && |steps| <= Work(s)
    decreases Work(s)
  {
    hide Inv, Apply, Enabled, WellFormed, Work, Resting, Plain;
    if Resting(s) {
      return [], s;
    }
    var step := SomeoneMoves(s);
    PlainWorks(s, step);
    StepKeeps(s, step);
    var rest;
    rest, s' := WorkersDrain(Apply(s, step));
    steps := [step] + rest;
    assert steps[1..] == rest;
  }
}
