// Execution scopes, and the queue and workers that report them
// (src/deepintshield/agentic/execution.py).

module Lifecycle {
  import opened Common

  const QUEUE_MAX := 8192
  const WORKERS := 4

  // ---------------------------------------------------------------------------------------------
  // State
  // ---------------------------------------------------------------------------------------------

  /** Frames are numbered in the order they are made. */
  type Frame = nat

  /** A scope on one context: one that reuses an outer frame, or one that put its own on the stack. */
  datatype Scope = Reused(frame: Frame) | Own(frame: Frame, before: seq<Frame>)

  /** A request context: the stack it was copied with, the stack now, and the scopes not yet left in it. */
  datatype Context = Context(base: seq<Frame>, stack: seq<Frame>, scopes: seq<Scope>)

  datatype Job = Start(frame: Frame) | Finish(frame: Frame)

  /** What a worker does with the job of that number. */
  datatype Worker = Idle | Starting(at: nat) | Waiting(at: nat) | Finishing(at: nat, expired: bool)

  datatype Event = StartEnded(frame: Frame) | FinishSent(frame: Frame, expired: bool)

  /** `history`: every job that was ever queued; the first `taken` of them were given to a worker. */
  datatype State = State(
    engineOf: seq<nat>, open: set<Frame>, contexts: seq<Context>,
    history: seq<Job>, taken: nat, delivered: set<Frame>, workers: seq<Worker>, log: seq<Event>)

  const FRESH := State([], {}, [], [], 0, {}, [Idle, Idle, Idle, Idle], [])

  // ---------------------------------------------------------------------------------------------
  // Steps
  // ---------------------------------------------------------------------------------------------

  predicate Known(stack: seq<Frame>, engineOf: seq<nat>) {
    forall i | 0 <= i < |stack| :: stack[i] < |engineOf|
  }

  /** `current_execution`: the innermost frame of an engine. */
  function Innermost(stack: seq<Frame>, engineOf: seq<nat>, engine: nat): (r: Option<Frame>)
    requires Known(stack, engineOf)
    ensures r.Some? ==> r.value in stack && engineOf[r.value] == engine
    ensures r.None? ==> forall i | 0 <= i < |stack| :: engineOf[stack[i]] != engine
  {
    if stack == [] then None
    else if engineOf[stack[|stack| - 1]] == engine then Some(stack[|stack| - 1])
    else Innermost(stack[..|stack| - 1], engineOf, engine)
  }

  /** Whether there is room for one more job. */
  predicate Room(s: State, finalizing: bool) {
    !finalizing && |s.history| < s.taken + QUEUE_MAX
  }

  /** `_emit_start`: a start that is not queued counts as delivered at once. */
  function EmitStart(s: State, f: Frame, enabled: bool, finalizing: bool): State {
    if enabled && Room(s, finalizing) then s.(history := s.history + [Start(f)])
    else s.(delivered := s.delivered + {f})
  }

  function EmitFinish(s: State, f: Frame, enabled: bool, finalizing: bool): State {
    if enabled && Room(s, finalizing) then s.(history := s.history + [Finish(f)]) else s
  }

  datatype Step =
    | Spawn
    | Fork(c: nat)
    | Enter(c: nat, engine: nat, enabled: bool, finalizing: bool)
    | Exit(c: nat, i: nat, enabled: bool, finalizing: bool)
    | Take(w: nat)
    | Deliver(w: nat)
    | Wake(w: nat)
    | Expire(w: nat)
    | Send(w: nat)

  predicate WellFormed(s: State) {
    && s.taken <= |s.history|
    && (forall w <- s.workers | !w.Idle? :: w.at < |s.history|)
    && forall c <- s.contexts :: Known(c.stack, s.engineOf)
  }

  function FrameOf(s: State, w: Worker): Frame
    requires !w.Idle? && w.at < |s.history|
  {
    s.history[w.at].frame
  }

  predicate Enabled(s: State, step: Step)
    requires WellFormed(s)
  {
    match step
    case Spawn => true
    case Fork(c) => c < |s.contexts|
    case Enter(c, _, _, _) => c < |s.contexts|
    case Exit(c, i, _, _) => c < |s.contexts| && i < |s.contexts[c].scopes|
    case Take(w) => w < |s.workers| && s.workers[w].Idle? && s.taken < |s.history|
    case Deliver(w) => w < |s.workers| && s.workers[w].Starting?
    case Wake(w) => w < |s.workers| && s.workers[w].Waiting? && FrameOf(s, s.workers[w]) in s.delivered
    case Expire(w) => w < |s.workers| && s.workers[w].Waiting?
    case Send(w) => w < |s.workers| && s.workers[w].Finishing?
  }

  function EnterScope(s: State, c: nat, engine: nat, enabled: bool, finalizing: bool): State
    requires WellFormed(s) && c < |s.contexts|
  {
    var context := s.contexts[c];
    var active := Innermost(context.stack, s.engineOf, engine);
    if active.Some? then
      s.(contexts := s.contexts[c := context.(scopes := context.scopes + [Reused(active.value)])])
    else
      var f := |s.engineOf|;
      var inner := context.(stack := context.stack + [f], scopes := context.scopes + [Own(f, context.stack)]);
      EmitStart(s.(engineOf := s.engineOf + [engine], open := s.open + {f}, contexts := s.contexts[c := inner]),
        f, enabled, finalizing)
  }

  function Without(scopes: seq<Scope>, i: nat): seq<Scope>
    requires i < |scopes|
  {
    scopes[..i] + scopes[i + 1..]
  }

  /** Any scope can be the next to be left: generators that share a context end in any order. */
  function ExitScope(s: State, c: nat, i: nat, enabled: bool, finalizing: bool): State
    requires c < |s.contexts| && i < |s.contexts[c].scopes|
  {
    var context := s.contexts[c];
    var others := Without(context.scopes, i);
    match context.scopes[i]
    case Reused(_) => s.(contexts := s.contexts[c := context.(scopes := others)])
    case Own(f, before) =>
      EmitFinish(s.(open := s.open - {f}, contexts := s.contexts[c := context.(stack := before, scopes := others)]),
        f, enabled, finalizing)
  }

  function Apply(s: State, step: Step): State
    requires WellFormed(s) && Enabled(s, step)
  {
    match step
    case Spawn => s.(contexts := s.contexts + [Context([], [], [])])
    case Fork(c) => s.(contexts := s.contexts + [Context(s.contexts[c].stack, s.contexts[c].stack, [])])
    case Enter(c, engine, enabled, finalizing) => EnterScope(s, c, engine, enabled, finalizing)
    case Exit(c, i, enabled, finalizing) => ExitScope(s, c, i, enabled, finalizing)
    case Take(w) =>
      var job := if s.history[s.taken].Start? then Starting(s.taken) else Waiting(s.taken);
      s.(taken := s.taken + 1, workers := s.workers[w := job])
    case Deliver(w) =>
      var f := FrameOf(s, s.workers[w]);
      s.(delivered := s.delivered + {f}, workers := s.workers[w := Idle], log := s.log + [StartEnded(f)])
    case Wake(w) => s.(workers := s.workers[w := Finishing(s.workers[w].at, false)])
    case Expire(w) => s.(workers := s.workers[w := Finishing(s.workers[w].at, true)])
    case Send(w) =>
      var worker := s.workers[w];
      s.(workers := s.workers[w := Idle], log := s.log + [FinishSent(FrameOf(s, worker), worker.expired)])
  }

  // ---------------------------------------------------------------------------------------------
  // Invariant: stacks
  // ---------------------------------------------------------------------------------------------

  /** No two frames of a stack are of one engine. */
  predicate Distinct(stack: seq<Frame>, engineOf: seq<nat>) {
    && Known(stack, engineOf)
    && forall i, j | 0 <= i < j < |stack| :: engineOf[stack[i]] != engineOf[stack[j]]
  }

  /** The stack of a context has one frame for an engine, and so has every stack it can go back to. */
  predicate OneEach(c: Context, engineOf: seq<nat>) {
    && Distinct(c.stack, engineOf)
    && forall scope <- c.scopes | scope.Own? :: Distinct(scope.before, engineOf)
  }

  predicate Stacks(s: State) {
    forall c <- s.contexts :: OneEach(c, s.engineOf)
  }

  /** Scope `i` of context `c` put frame `f` on the stack. */
  predicate Owns(contexts: seq<Context>, c: nat, i: nat, f: Frame) {
    && c < |contexts| && i < |contexts[c].scopes|
    && contexts[c].scopes[i].Own? && contexts[c].scopes[i].frame == f
  }

  /** An own frame is open, and of one scope. */
  ghost predicate OwnOpen(s: State) {
    && (forall f <- s.open :: f < |s.engineOf|)
    && (forall c: nat, i: nat, f: Frame | Owns(s.contexts, c, i, f) :: f in s.open)
    && forall c: nat, i: nat, d: nat, j: nat, f: Frame | Owns(s.contexts, c, i, f) && Owns(s.contexts, d, j, f) ::
         c == d && i == j
  }

  // ---------------------------------------------------------------------------------------------
  // Invariant: jobs
  // ---------------------------------------------------------------------------------------------

  /** At most one start and one finish for a frame, in this order, and a finish only for a left scope. */
  predicate Ordered(s: State) {
    && s.taken <= |s.history| <= s.taken + QUEUE_MAX
    && (forall job <- s.history :: job.frame < |s.engineOf|)
    && (forall job <- s.history | job.Finish? :: job.frame !in s.open)
    && (forall j, k | 0 <= j < k < |s.history| :: s.history[j] != s.history[k])
    && forall j, k | 0 <= j < k < |s.history| :: !(s.history[j].Finish? && s.history[k] == Start(s.history[j].frame))
  }

  /** Each worker is busy with a job of its own that was taken. */
  predicate Busy(s: State) {
    && |s.workers| == WORKERS
    && (forall w <- s.workers | !w.Idle? :: w.at < s.taken <= |s.history| && (w.Starting? <==> s.history[w.at].Start?))
    && forall v, w | 0 <= v < w < |s.workers| && !s.workers[v].Idle? && !s.workers[w].Idle? ::
         s.workers[v].at != s.workers[w].at
  }

  /** A start is delivered exactly when its job is neither queued nor being done. */
  predicate Pending(s: State, k: nat)
    requires k < |s.history|
  {
    s.history[k].Start? && (s.taken <= k || Starting(k) in s.workers)
  }

  ghost predicate Delivered(s: State) {
    && (forall f <- s.delivered :: f < |s.engineOf|)
    && (forall k: nat | k < |s.history| && Pending(s, k) :: s.history[k].frame !in s.delivered)
    && forall f: Frame | f < |s.engineOf| && f !in s.delivered ::
         exists k: nat :: k < |s.history| && Pending(s, k) && s.history[k].frame == f
  }

  /** Without an expired wait, a finish is sent after the start attempt. */
  predicate Sent(s: State) {
    && (forall w <- s.workers | w.Finishing? && !w.expired && w.at < |s.history| ::
          s.history[w.at].frame in s.delivered)
    && (forall e <- s.log | e.FinishSent? && !e.expired :: e.frame in s.delivered)
    && forall j, k | 0 <= j < k < |s.log| && s.log[j].FinishSent? && !s.log[j].expired ::
         s.log[k] != StartEnded(s.log[j].frame)
  }

  ghost predicate Jobs(s: State) {
    Ordered(s) && Busy(s) && Delivered(s) && Sent(s)
  }

  ghost predicate Inv(s: State) {
    Stacks(s) && OwnOpen(s) && Jobs(s)
  }

  // ---------------------------------------------------------------------------------------------
  // The object
  // ---------------------------------------------------------------------------------------------

  /** The stacks, the queue and the workers; `history`, `taken`, `open` and `log` are for the proofs only. */
  class Telemetry {
    var engineOf: seq<nat>
    var contexts: seq<Context>
    var queue: seq<Job>
    var delivered: set<Frame>
    var workers: seq<Worker>
    ghost var open: set<Frame>
    ghost var history: seq<Job>
    var taken: nat
    ghost var log: seq<Event>

    ghost function View(): State reads this {
      State(engineOf, open, contexts, history, taken, delivered, workers, log)
    }

    ghost predicate Valid() reads this {
      taken <= |history| && queue == history[taken..] && WellFormed(View())
    }

    constructor ()
      ensures Valid() && View() == FRESH
    {
      engineOf, contexts, queue, delivered, workers := [], [], [], {}, [Idle, Idle, Idle, Idle];
      open, history, taken, log := {}, [], 0, [];
    }

    /** `current_execution`: the stack is searched from its top. */
    method CurrentExecution(stack: seq<Frame>, engine: nat) returns (frame: Option<Frame>)
      requires Known(stack, engineOf)
      ensures frame == Innermost(stack, engineOf, engine)
    {
      var i := |stack|;
      assert stack[..i] == stack;
      while i > 0
        invariant 0 <= i <= |stack|
        invariant Innermost(stack, engineOf, engine) == Innermost(stack[..i], engineOf, engine)
      {
        i := i - 1;
        assert stack[..i + 1][..i] == stack[..i];
        if engineOf[stack[i]] == engine {
          return Some(stack[i]);
        }
      }
      frame := None;
    }

    /** `_dispatch`: a job is queued if there is room for it, and dropped otherwise. */
    method Dispatch(job: Job, finalizing: bool) returns (queued: bool)
      requires Valid()
      modifies this`queue, this`history
      ensures queued <==> Room(old(View()), finalizing)
      ensures history == old(history) + (if queued then [job] else []) && queue == history[taken..]
    {
      queued := !finalizing && |queue| < QUEUE_MAX;
      if queued {
        queue := queue + [job];
        history := history + [job];
      }
    }

    /** Entering `_execution_scope`: an active frame is used again, and otherwise a new one goes on the stack. */
    method Enter(c: nat, engine: nat, enabled: bool, finalizing: bool)
      requires Valid() && c < |contexts|
      modifies this
      ensures View() == EnterScope(old(View()), c, engine, enabled, finalizing)
      ensures queue == history[taken..]
    {
      var context := contexts[c];
      var active := CurrentExecution(context.stack, engine);
      if active.Some? {
        contexts := contexts[c := context.(scopes := context.scopes + [Reused(active.value)])];
        return;
      }
      var f := |engineOf|;
      var queued := false;
      if enabled {
        queued := Dispatch(Start(f), finalizing);
      }
      engineOf, open := engineOf + [engine], open + {f};
      contexts := contexts[
        c := context.(stack := context.stack + [f], scopes := context.scopes + [Own(f, context.stack)])];
      if !queued {
        delivered := delivered + {f};
      }
    }

    /** Leaving it: the frame's own scope reports the end, and the stack is reset to what the scope found. */
    method Exit(c: nat, i: nat, enabled: bool, finalizing: bool)
      requires Valid() && c < |contexts| && i < |contexts[c].scopes|
      modifies this
      ensures View() == ExitScope(old(View()), c, i, enabled, finalizing)
      ensures queue == history[taken..]
    {
      var context := contexts[c];
      var scope, others := context.scopes[i], Without(context.scopes, i);
      if scope.Reused? {
        contexts := contexts[c := context.(scopes := others)];
        return;
      }
      if enabled {
        var queued := Dispatch(Finish(scope.frame), finalizing);
      }
      open := open - {scope.frame};
      contexts := contexts[c := context.(stack := scope.before, scopes := others)];
    }

    /** One turn of `_event_worker`: the oldest job is taken. */
    method TakeJob(w: nat)
      requires Valid() && Enabled(View(), Take(w))
      modifies this
      ensures View() == Apply(old(View()), Take(w))
      ensures taken <= |history| && queue == history[taken..]
    {
      var job := queue[0];
      assert job == history[taken];
      queue := queue[1..];
      workers := workers[w := if job.Start? then Starting(taken) else Waiting(taken)];
      taken := taken + 1;
    }
  }
}
