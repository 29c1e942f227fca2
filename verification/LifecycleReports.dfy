// What is reported of executions: as long as there is room in the queue nothing is lost on the way
// (src/deepintshield/agentic/execution.py).

module LifecycleReports {
  import opened Common
  import opened Lifecycle
  import opened LifecycleProtocol

  /** A scope is entered or left while security is on, the process goes on, and 8192 jobs are not waiting. */
  predicate Roomy(s: State, step: Step) {
    match step
    case Enter(_, _, enabled, finalizing) => enabled && !finalizing && |s.history| - s.taken < 8192
    case Exit(_, _, enabled, finalizing) => enabled && !finalizing && |s.history| - s.taken < 8192
    case _ => true
  }

  ghost predicate RoomyThroughout(s: State, steps: seq<Step>, s': State)
    requires Leads(s, steps, s')
    decreases |steps|
  {
    steps != [] ==> Roomy(s, steps[0]) && RoomyThroughout(Apply(s, steps[0]), steps[1..], s')
  }

  // ---------------------------------------------------------------------------------------------
  // Every execution is queued
  // ---------------------------------------------------------------------------------------------

  /** A start was queued for each frame, and a finish for exactly those that are not open any more. */
  ghost predicate Queued(s: State) {
    forall f: Frame | f < |s.engineOf| ::
      Start(f) in s.history && (Finish(f) in s.history <==> f !in s.open)
  }

  /** What one step queues, where there is room. */
  lemma StepQueues(s: State, step: Step)
    requires WellFormed(s) && Enabled(s, step) && Roomy(s, step)
    ensures var s' := Apply(s, step);
      && (step.Enter? && Innermost(s.contexts[step.c].stack, s.engineOf, step.engine).None? ==>
        && s'.history == s.history + [Start(|s.engineOf|)]
        && s'.engineOf == s.engineOf + [step.engine] && s'.open == s.open + {|s.engineOf|})
      && (step.Enter? && Innermost(s.contexts[step.c].stack, s.engineOf, step.engine).Some? ==>
        s'.history == s.history && s'.engineOf == s.engineOf && s'.open == s.open)
      && (step.Exit? ==>
        var scope := s.contexts[step.c].scopes[step.i];
        && s'.engineOf == s.engineOf
        && (scope.Own? ==> s'.history == s.history + [Finish(scope.frame)] && s'.open == s.open - {scope.frame})
        && (scope.Reused? ==> s'.history == s.history && s'.open == s.open))
      && (!step.Enter? && !step.Exit? ==>
        s'.history == s.history && s'.engineOf == s.engineOf && s'.open == s.open)
  {
    hide Innermost;
  }

  lemma QueuedKept(s: State, step: Step)
    requires WellFormed(s) && Inv(s) && Enabled(s, step) && Roomy(s, step) && Queued(s)
    ensures Queued(Apply(s, step))
  {
    StepQueues(s, step);
    var s' := Apply(s, step);
    assert (forall f <- s.open :: f < |s.engineOf|) && (forall job <- s.history :: job.frame < |s.engineOf|);
    if step.Exit? && s.contexts[step.c].scopes[step.i].Own? {
      assert Owns(s.contexts, step.c, step.i, s.contexts[step.c].scopes[step.i].frame);
    }
    hide Inv, Apply, Innermost;
    forall f: Frame | f < |s'.engineOf|
      ensures Start(f) in s'.history && (Finish(f) in s'.history <==> f !in s'.open)
    {
    }
  }

  // ---------------------------------------------------------------------------------------------
  // Every job is done
  // ---------------------------------------------------------------------------------------------

  predicate InHand(workers: seq<Worker>, k: nat) {
    exists w: nat | w < |workers| :: !workers[w].Idle? && workers[w].at == k
  }

  predicate Reported(log: seq<Event>, job: Job) {
    match job
    case Start(f) => StartEnded(f) in log
    case Finish(f) => FinishSent(f, false) in log || FinishSent(f, true) in log
  }

  /** Each job that was taken is in the hands of a worker, or was reported. */
  predicate Done(s: State) {
    && s.taken <= |s.history|
    && forall k: nat | k < s.taken :: InHand(s.workers, k) || Reported(s.log, s.history[k])
  }

  lemma InHandStays(workers: seq<Worker>, w: nat, worker: Worker, k: nat)
    requires w < |workers| && InHand(workers, k)
    requires (!workers[w].Idle? && workers[w].at == k) ==> !worker.Idle? && worker.at == k
    ensures InHand(workers[w := worker], k)
  {
    var v: nat :| v < |workers| && !workers[v].Idle? && workers[v].at == k;
    assert !workers[w := worker][v].Idle? && workers[w := worker][v].at == k;
  }

  lemma ReportedStays(log: seq<Event>, e: Event, job: Job)
    requires Reported(log, job)
    ensures Reported(log + [e], job)
  {
  }

  /** A worker lets a job go only with its report. */
  lemma WorkerDone(s: State, step: Step, k: nat)
    requires WellFormed(s) && Inv(s) && Enabled(s, step) && Done(s)
    requires step.Take? || step.Deliver? || step.Wake? || step.Expire? || step.Send?
    requires k < Apply(s, step).taken
    ensures var s' := Apply(s, step); InHand(s'.workers, k) || Reported(s'.log, s.history[k])
  {
    var s' := Apply(s, step);
    var w := step.w;
    assert s'.workers == s.workers[w := s'.workers[w]];
    if k == s.taken {
      assert !s'.workers[w].Idle? && s'.workers[w].at == k;
    } else if Reported(s.log, s.history[k]) {
      assert s'.log == s.log || s'.log == s.log + [s'.log[|s.log|]];
      if s'.log != s.log {
        ReportedStays(s.log, s'.log[|s.log|], s.history[k]);
      }
    } else if (step.Deliver? || step.Send?) && s.workers[w].at == k {
      assert s'.log[|s.log|] in s'.log;
    } else {
      InHandStays(s.workers, w, s'.workers[w], k);
    }
  }

  lemma DoneKept(s: State, step: Step)
    requires WellFormed(s) && Inv(s) && Enabled(s, step) && Done(s)
    ensures Done(Apply(s, step))
  {
    var s' := Apply(s, step);
    if step.Take? || step.Deliver? || step.Wake? || step.Expire? || step.Send? {
      forall k: nat | k < s'.taken
        ensures InHand(s'.workers, k) || Reported(s'.log, s'.history[k])
      {
        WorkerDone(s, step, k);
      }
    } else {
      hide InHand, Reported, Inv, Innermost;
    }
  }

  lemma {:induction false} RunReports(s: State, steps: seq<Step>, s': State)
    requires Inv(s) && WellFormed(s) && Leads(s, steps, s') && Done(s)
    ensures Done(s') && Inv(s') && (Queued(s) && RoomyThroughout(s, steps, s') ==> Queued(s'))
    decreases |steps|
  {
    hide Inv, Apply, Enabled, WellFormed, Roomy, Queued, Done;
    if steps != [] {
      StepKeeps(s, steps[0]);
      InvIsWellFormed(Apply(s, steps[0]));
      DoneKept(s, steps[0]);
      if Queued(s) && Roomy(s, steps[0]) {
        QueuedKept(s, steps[0]);
      }
      RunReports(Apply(s, steps[0]), steps[1..], s');
    }
  }

  /** Only what was queued is reported. */
  predicate Sourced(s: State) {
    && (forall e <- s.log | e.StartEnded? :: Start(e.frame) in s.history)
    && (forall e <- s.log | e.FinishSent? :: Finish(e.frame) in s.history)
  }

  lemma SourcedKept(s: State, step: Step)
    requires WellFormed(s) && Inv(s) && Enabled(s, step) && Sourced(s)
    ensures Sourced(Apply(s, step))
  {
    hide Innermost;
    var s' := Apply(s, step);
    assert s.history <= s'.history;
    assert forall job <- s.history :: job in s'.history;
    if step.Deliver? || step.Send? {
      assert s.workers[step.w] in s.workers;
      assert s.history[s.workers[step.w].at] in s.history;
    }
  }

  lemma {:induction false} RunSources(s: State, steps: seq<Step>, s': State)
    requires Inv(s) && WellFormed(s) && Leads(s, steps, s') && Sourced(s)
    ensures Sourced(s')
    decreases |steps|
  {
    hide Inv, Apply, Enabled, WellFormed, Sourced;
    if steps != [] {
      StepKeeps(s, steps[0]);
      InvIsWellFormed(Apply(s, steps[0]));
      SourcedKept(s, steps[0]);
      RunSources(Apply(s, steps[0]), steps[1..], s');
    }
  }

  /**
   * On every run with room in the queue, once the workers rest: the start of every execution was
   * attempted, and a finish was sent for exactly those whose scope was left.
   */
  lemma EveryExecutionIsReported(steps: seq<Step>, s: State, f: Frame)
    requires Leads(FRESH, steps, s) && RoomyThroughout(FRESH, steps, s) && Resting(s) && f < |s.engineOf|
    ensures StartEnded(f) in s.log
    ensures FinishSent(f, false) in s.log || FinishSent(f, true) in s.log <==> f !in s.open
  {
    FreshHolds();
    assert Queued(FRESH) && Done(FRESH) && Sourced(FRESH);
    RunReports(FRESH, steps, s);
    RunSources(FRESH, steps, s);
    AllReported(s, Start(f));
    if f !in s.open {
      AllReported(s, Finish(f));
    }
  }

  lemma AllReported(s: State, job: Job)
    requires Done(s) && Resting(s)
    ensures job in s.history ==> Reported(s.log, job)
  {
    if job in s.history {
      var k: nat :| k < |s.history| && s.history[k] == job;
      assert !InHand(s.workers, k);
    }
  }
}
