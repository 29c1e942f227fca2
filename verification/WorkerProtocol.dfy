// Run requests, stop signals and a gateway that decides each start once, in any interleaving
// (src/deepintshield/agentic/managed_remote.py).

module WorkerProtocol {
  import opened Common
  import opened Worker

  // ---------------------------------------------------------------------------------------------
  // The system
  // ---------------------------------------------------------------------------------------------

  datatype Request = Request(worker: nat, token: nat, phase: Phase)

  /** What the gateway has decided about a start; a token that was never mentioned is open. */
  datatype Start = Granted(to: nat) | Withdrawn

  /**
   * `asked`: questions under way to the gateway, also after the worker stopped waiting; `yes`: the
   * requests it granted a start to; `programs`: the requests whose program was created.
   */
  datatype System = System(
    workers: map<nat, Process>, requests: map<nat, Request>, starts: map<nat, Start>,
    asked: set<nat>, yes: set<nat>, programs: set<nat>)

  const EMPTY := System(map[], map[], map[], {}, {}, {})

  function At(s: System, w: nat): Process {
    if w in s.workers then s.workers[w] else IDLE
  }

  function Of(s: System, id: nat): Process
    requires id in s.requests
  {
    At(s, s.requests[id].worker)
  }

  /**
   * Decline: refused by validation, or busy. Take: the claim. Go: a request that holds its process
   * meets a turn and goes on. Signal and Yield: the two halves of a stop before the exit. Leave: the exit of
   * a finished process, from whichever thread. Deliver: the gateway decides a question. Withdraw: the
   * gateway closes an open start.
   */
  datatype Step =
    | Arrive(id: nat, worker: nat, token: nat)
    | Decline(id: nat, code: string)
    | Take(id: nat)
    | Go(id: nat, turn: Turn)
    | Signal(worker: nat)
    | Yield(worker: nat)
    | Leave(worker: nat)
    | Deliver(id: nat)
    | Withdraw(token: nat)

  predicate Holds(s: System, id: nat) {
    id in s.requests && Accepted(s.requests[id].phase)
  }

  /** A turn as the request meets it: it sees whether its process is stopping, and no yes but its own. */
  function Met(s: System, id: nat, turn: Turn): Turn
    requires id in s.requests
  {
    turn.(stopping := Of(s, id).stopping, yes := turn.yes && id in s.yes)
  }

  /** Where the request goes. */
  function To(s: System, id: nat, turn: Turn): Phase
    requires Holds(s, id) && !s.requests[id].phase.Closed?
  {
    Onward(s.requests[id].phase, turn)
  }

  predicate Enabled(s: System, step: Step) {
    match step
    case Arrive(id, w, _) => id !in s.requests && !At(s, w).exited
    case Decline(id, _) => id in s.requests && s.requests[id].phase.Received? && !Of(s, id).exited
    case Take(id) =>
      id in s.requests && s.requests[id].phase.Received? && !Of(s, id).exited && !Of(s, id).claimed
    case Go(id, turn) =>
      && Holds(s, id) && !s.requests[id].phase.Closed? && !Of(s, id).exited
      && turn == Met(s, id, turn)
    case Signal(w) => !At(s, w).exited
    case Yield(w) => !At(s, w).exited && At(s, w).stopping && !At(s, w).claimed
    case Leave(w) => !At(s, w).exited && At(s, w).finished
    case Deliver(id) => id in s.asked && id in s.requests
    case Withdraw(token) => token !in s.starts
  }

  function SetPhase(s: System, id: nat, p: Phase): System
    requires id in s.requests
  {
    s.(requests := s.requests[id := s.requests[id].(phase := p)])
  }

  function SetWorker(s: System, w: nat, p: Process): System {
    s.(workers := s.workers[w := p])
  }

  function Apply(s: System, step: Step): System
    requires Enabled(s, step)
  {
    match step
    case Arrive(id, w, token) => s.(requests := s.requests[id := Request(w, token, Received)])
    case Decline(id, code) => SetPhase(s, id, Declined(code))
    case Take(id) => SetWorker(SetPhase(s, id, Claimed), s.requests[id].worker, Taken(Of(s, id)))
    case Go(id, turn) =>
      var to := To(s, id, turn);
      var t := SetPhase(s, id, to);
      if to.Asking? then t.(asked := s.asked + {id})
      else if to.Running? then t.(programs := s.programs + {id})
      else if to.Closed? then SetWorker(t, s.requests[id].worker, Of(s, id).(finished := true))
      else t
    case Signal(w) => SetWorker(s, w, Signalled(At(s, w)))
    case Yield(w) => SetWorker(s, w, Yielded(At(s, w)))
    case Leave(w) => SetWorker(s, w, Left(At(s, w)))
    case Deliver(id) =>
      var token := s.requests[id].token;
      if token in s.starts then s.(asked := s.asked - {id})
      else s.(asked := s.asked - {id}, starts := s.starts[token := Granted(id)], yes := s.yes + {id})
    case Withdraw(token) => s.(starts := s.starts[token := Withdrawn])
  }

  // ---------------------------------------------------------------------------------------------
  // The invariant
  // ---------------------------------------------------------------------------------------------

  predicate GrantedTo(s: System, id: nat) {
    id in s.requests && s.requests[id].token in s.starts && s.starts[s.requests[id].token] == Granted(id)
  }

  /** A process is held by one request at most, and only while it is claimed. */
  ghost predicate OneHolder(s: System) {
    && (forall id | Holds(s, id) :: Of(s, id).claimed)
    && (forall i, j | Holds(s, i) && Holds(s, j) && s.requests[i].worker == s.requests[j].worker :: i == j)
  }

  predicate Ended(p: Phase) {
    p.Killed? || p.Closing? || p.Closed?
  }

  /** What a phase says about the grant and the program. */
  predicate Tells(s: System, id: nat)
    requires id in s.requests
  {
    var p := s.requests[id].phase;
    && (p.Cleared? || p.Running? ==> GrantedTo(s, id))
    && (p.Running? || p.Killed? || (Ended(p) && p.answer == Some(Outcome)) ==> id in s.programs)
    && (id in s.programs ==> p.Running? || (Ended(p) && (p.answer == Some(Outcome) || p.answer == None)))
    && (p.Closed? ==> Of(s, id).finished)
  }

  ghost predicate Inv(s: System) {
    && OneHolder(s)
    && (forall id <- s.requests :: Tells(s, id))
    && (forall id <- s.asked + s.yes + s.programs :: id in s.requests)
    && (forall id <- s.yes + s.programs :: GrantedTo(s, id))
  }

  /** Holders stay what they are when no request begins to hold a process and no claim is undone. */
  lemma SameHolders(s: System, t: System)
    requires OneHolder(s)
    requires forall i | Holds(t, i) :: Holds(s, i) && t.requests[i].worker == s.requests[i].worker
    requires forall w :: At(s, w).claimed ==> At(t, w).claimed
    ensures OneHolder(t)
  {
  }

  lemma WorkerKeeps(s: System, w: nat, p: Process)
    requires Inv(s)
    requires (At(s, w).claimed ==> p.claimed) && (At(s, w).finished ==> p.finished)
    ensures Inv(SetWorker(s, w, p))
  {
    var t := SetWorker(s, w, p);
    SameHolders(s, t);
    hide OneHolder;
    assert forall i :: GrantedTo(s, i) ==> GrantedTo(t, i);
    forall i <- t.requests
      ensures Tells(t, i)
    {
      assert Tells(s, i);
    }
  }

  lemma TellsNext(s: System, id: nat, to: Phase)
    requires id in s.requests && Tells(s, id) && Edge(s.requests[id].phase, to)
    requires (to.Cleared? ==> GrantedTo(s, id)) && (to.Closed? ==> Of(s, id).finished)
    ensures Tells(SetPhase(s, id, to).(programs := s.programs + if to.Running? then {id} else {}), id)
  {
  }

  /** A new phase, with its program if it is the one that creates it. */
  lemma PhaseKeeps(s: System, id: nat, to: Phase)
    requires Inv(s) && id in s.requests && Edge(s.requests[id].phase, to)
    requires (to.Cleared? ==> GrantedTo(s, id)) && (to.Closed? ==> Of(s, id).finished)
    ensures Inv(SetPhase(s, id, to).(programs := s.programs + if to.Running? then {id} else {}))
  {
    var t := SetPhase(s, id, to).(programs := s.programs + if to.Running? then {id} else {});
    assert Tells(s, id) && Holds(s, id);
    SameHolders(s, t);
    hide OneHolder;
    assert forall i :: GrantedTo(s, i) ==> GrantedTo(t, i);
    TellsNext(s, id, to);
    hide Edge;
    forall i <- t.requests
      ensures Tells(t, i)
    {
      assert Tells(s, i);
    }
  }

  lemma GoKeeps(s: System, id: nat, turn: Turn)
    requires Inv(s) && Enabled(s, Go(id, turn))
    ensures Inv(Apply(s, Go(id, turn)))
  {
    var w, to := s.requests[id].worker, To(s, id, turn);
    assert Edge(s.requests[id].phase, to) && (to.Cleared? ==> GrantedTo(s, id)) by {
      GoesAlong(s, id, turn);
    }
    var s' := if to.Closed? then SetWorker(s, w, At(s, w).(finished := true)) else s;
    WorkerKeeps(s, w, At(s, w).(finished := true));
    PhaseKeeps(s', id, to);
    var t := SetPhase(s', id, to).(programs := s'.programs + if to.Running? then {id} else {});
    hide OneHolder, Tells, GrantedTo, Edge, To;
    if to.Asking? {
      assert Apply(s, Go(id, turn)) == t.(asked := s.asked + {id});
      SameHolders(t, t.(asked := s.asked + {id}));
      AskedKeeps(t, id);
    } else {
      assert Apply(s, Go(id, turn)) == t;
    }
  }

  /** A turn leads along an edge, and to a start only with the grant. */
  lemma GoesAlong(s: System, id: nat, turn: Turn)
    requires Inv(s) && Enabled(s, Go(id, turn))
    ensures Edge(s.requests[id].phase, To(s, id, turn)) && (To(s, id, turn).Cleared? ==> GrantedTo(s, id))
  {
  }

  lemma AskedKeeps(s: System, id: nat)
    requires Inv(s) && id in s.requests
    ensures Inv(s.(asked := s.asked + {id}))
  {
    var t := s.(asked := s.asked + {id});
    SameHolders(s, t);
    hide OneHolder;
    forall i <- t.requests
      ensures Tells(t, i)
    {
      assert Tells(s, i);
    }
  }

  lemma TakeKeeps(s: System, id: nat)
    requires Inv(s) && Enabled(s, Take(id))
    ensures Inv(Apply(s, Take(id)))
  {
    var t := Apply(s, Take(id));
    assert forall i :: GrantedTo(s, i) ==> GrantedTo(t, i);
    assert forall i | Holds(t, i) :: i == id || Holds(s, i);
    forall i <- t.requests
      ensures Tells(t, i)
    {
      assert Tells(s, i);
    }
  }

  /** The gateway decides open starts only, and says yes to whom it granted one. */
  lemma GatewayKeeps(s: System, t: System)
    requires Inv(s) && t.workers == s.workers && t.requests == s.requests && t.programs == s.programs
    requires t.asked <= s.asked
    requires forall token <- s.starts :: token in t.starts && t.starts[token] == s.starts[token]
    requires forall i <- t.yes :: i in s.yes || GrantedTo(t, i)
    ensures Inv(t)
  {
    SameHolders(s, t);
    hide OneHolder;
    assert forall i :: GrantedTo(s, i) ==> GrantedTo(t, i);
    hide GrantedTo;
    forall i <- t.requests
      ensures Tells(t, i)
    {
      assert Tells(s, i);
    }
  }

  /** A request that holds no process is new, or changes its phase to another such. */
  lemma OthersKeep(s: System, id: nat, r: Request)
    requires Inv(s) && (r.phase.Received? || r.phase.Declined?)
    requires id in s.requests ==>
      s.requests[id].phase.Received? && r == s.requests[id].(phase := r.phase)
    ensures Inv(s.(requests := s.requests[id := r]))
  {
    var t := s.(requests := s.requests[id := r]);
    SameHolders(s, t);
    hide OneHolder;
    assert forall i :: GrantedTo(s, i) ==> GrantedTo(t, i);
    assert id in s.programs ==> id in s.requests && Tells(s, id);
    hide GrantedTo;
    forall i <- t.requests
      ensures Tells(t, i)
    {
      assert i in s.requests ==> Tells(s, i);
    }
  }

  lemma StepKeeps(s: System, step: Step)
    requires Inv(s) && Enabled(s, step)
    ensures Inv(Apply(s, step))
  {
    hide Inv;
    match step {
      case Go(id, turn) => GoKeeps(s, id, turn);
      case Take(id) => TakeKeeps(s, id);
      case Deliver(_) => GatewayKeeps(s, Apply(s, step));
      case Withdraw(_) => GatewayKeeps(s, Apply(s, step));
      case Signal(w) => WorkerKeeps(s, w, Signalled(At(s, w)));
      case Yield(w) => WorkerKeeps(s, w, Yielded(At(s, w)));
      case Leave(w) => WorkerKeeps(s, w, Left(At(s, w)));
      case Arrive(id, w, token) => OthersKeep(s, id, Request(w, token, Received));
      case Decline(id, code) => OthersKeep(s, id, s.requests[id].(phase := Declined(code)));
    }
  }

  // ---------------------------------------------------------------------------------------------
  // Every run
  // ---------------------------------------------------------------------------------------------

  predicate Legal(s: System, steps: seq<Step>)
    decreases |steps|
  {
    steps == [] || (Enabled(s, steps[0]) && Legal(Apply(s, steps[0]), steps[1..]))
  }

  function Run(s: System, steps: seq<Step>): System
    requires Legal(s, steps)
    decreases |steps|
  {
    if steps == [] then s else Run(Apply(s, steps[0]), steps[1..])
  }

  lemma {:induction false} RunKeeps(s: System, steps: seq<Step>)
    requires Inv(s) && Legal(s, steps)
    ensures Inv(Run(s, steps))
    decreases |steps|
  {
    if steps != [] {
      StepKeeps(s, steps[0]);
      RunKeeps(Apply(s, steps[0]), steps[1..]);
    }
  }

  /** One program for each process and for each start, only with the grant, never a withdrawn one. */
  predicate SingleUse(s: System) {
    && (forall i <- s.programs :: GrantedTo(s, i))
    && (forall i, j | i in s.programs && j in s.programs && i in s.requests && j in s.requests ::
      s.requests[i].worker == s.requests[j].worker || s.requests[i].token == s.requests[j].token ==> i == j)
  }

  /** The answers are true: "not started" means no program, an outcome means one. */
  predicate Honest(s: System) {
    forall id <- s.requests ::
      var p := s.requests[id].phase;
      && (p.Declined? ==> id !in s.programs)
      && (Ended(p) && p.answer.Some? ==> (p.answer.value.Outcome? <==> id in s.programs))
  }

  lemma WorkerIsSafe(steps: seq<Step>)
    requires Legal(EMPTY, steps)
    ensures SingleUse(Run(EMPTY, steps)) && Honest(Run(EMPTY, steps))
  {
    RunKeeps(EMPTY, steps);
    var s := Run(EMPTY, steps);
    forall id <- s.requests
      ensures Tells(s, id)
    {
    }
    forall i | i in s.programs
      ensures Holds(s, i)
    {
      assert Tells(s, i);
    }
  }

  // ---------------------------------------------------------------------------------------------
  // Decisions are final
  // ---------------------------------------------------------------------------------------------

  /** A start is decided once, a program stays created, a request keeps its process and its token. */
  predicate Extends(s: System, t: System) {
    && s.starts.Keys <= t.starts.Keys
    && (forall token <- s.starts :: t.starts[token] == s.starts[token])
    && s.programs <= t.programs
    && s.requests.Keys <= t.requests.Keys
    && (forall id <- s.requests ::
      t.requests[id].worker == s.requests[id].worker && t.requests[id].token == s.requests[id].token)
    && (forall id <- s.requests :: s.requests[id].phase.Closed? || s.requests[id].phase.Declined? ==>
      t.requests[id] == s.requests[id])
  }

  lemma StepExtends(s: System, step: Step)
    requires Enabled(s, step)
    ensures Extends(s, Apply(s, step))
  {
  }

  lemma ExtendsOn(s: System, t: System, u: System)
    requires Extends(s, t) && Extends(t, u)
    ensures Extends(s, u)
  {
  }

  lemma {:induction false} RunExtends(s: System, steps: seq<Step>)
    requires Legal(s, steps)
    ensures Extends(s, Run(s, steps))
    decreases |steps|
  {
    if steps == [] {
    } else {
      hide Apply, Enabled, Extends;
      StepExtends(s, steps[0]);
      RunExtends(Apply(s, steps[0]), steps[1..]);
      ExtendsOn(s, Apply(s, steps[0]), Run(s, steps));
    }
  }

  /** Once the gateway has withdrawn a start, no request with that token ever has a program. */
  lemma WithdrawnNeverStarts(before: seq<Step>, after: seq<Step>, token: nat, id: nat)
    requires Legal(EMPTY, before) && Legal(Run(EMPTY, before), after)
    requires token in Run(EMPTY, before).starts && Run(EMPTY, before).starts[token].Withdrawn?
    ensures var s := Run(Run(EMPTY, before), after);
      id in s.programs && id in s.requests ==> s.requests[id].token != token
  {
    RunKeeps(EMPTY, before);
    RunKeeps(Run(EMPTY, before), after);
    RunExtends(Run(EMPTY, before), after);
    var s := Run(Run(EMPTY, before), after);
    assert id in s.programs ==> GrantedTo(s, id);
  }

  /** A request that was told its program did not start never gets one later. */
  lemma RefusedNeverStarts(before: seq<Step>, after: seq<Step>, id: nat)
    requires Legal(EMPTY, before) && Legal(Run(EMPTY, before), after)
    requires id in Run(EMPTY, before).requests
    requires var p := Run(EMPTY, before).requests[id].phase;
      p.Declined? || (p.Closed? && p.answer.Some? && p.answer.value.Refusal?)
    ensures id !in Run(Run(EMPTY, before), after).programs
  {
    RunKeeps(EMPTY, before);
    RunKeeps(Run(EMPTY, before), after);
    RunExtends(Run(EMPTY, before), after);
    var s := Run(Run(EMPTY, before), after);
    assert Tells(s, id);
  }

  // ---------------------------------------------------------------------------------------------
  // Every accepted run ends in exit
  // ---------------------------------------------------------------------------------------------

  /** How far a request is from its end. */
  function Ahead(p: Phase): nat {
    match p
    case Claimed => ASK_LOOKS + RUN_LOOKS + 8
    case Checked => ASK_LOOKS + RUN_LOOKS + 7
    case Staged => ASK_LOOKS + RUN_LOOKS + 6
    case Asking(looks) => looks + RUN_LOOKS + 5
    case Cleared => RUN_LOOKS + 4
    case Running(looks) => looks + 3
    case Killed(_) => 2
    case Closing(_) => 1
    case _ => 0
  }

  function OwnMoves(steps: seq<Step>, id: nat): nat {
    if steps == [] then 0
    else (if steps[0].Go? && steps[0].id == id then 1 else 0) + OwnMoves(steps[1..], id)
  }

  /** Each turn leads nearer to the end. */
  lemma TurnsFall(p: Phase, t: Turn)
    requires Accepted(p) && !p.Closed?
    ensures Accepted(Onward(p, t)) && Ahead(Onward(p, t)) < Ahead(p)
  {
  }

  lemma OneMove(s: System, step: Step, id: nat)
    requires Holds(s, id) && Enabled(s, step)
    ensures var t := Apply(s, step);
      && Holds(t, id) && t.requests[id].worker == s.requests[id].worker
      && if step.Go? && step.id == id
           then Ahead(t.requests[id].phase) < Ahead(s.requests[id].phase)
           else t.requests[id].phase == s.requests[id].phase
  {
    hide Ahead, Onward, Met;
    if step.Go? {
      TurnsFall(s.requests[step.id].phase, step.turn);
    }
  }

  /** An accepted request makes a bounded number of moves, however long the run and whatever it meets. */
  lemma {:induction false} FewPhases(s: System, steps: seq<Step>, id: nat)
    requires Inv(s) && Legal(s, steps) && Holds(s, id)
    ensures Holds(Run(s, steps), id)
    ensures OwnMoves(steps, id) + Ahead(Run(s, steps).requests[id].phase) <= Ahead(s.requests[id].phase)
    decreases |steps|
  {
    hide Inv, Apply, Enabled, Holds, Ahead;
    if steps != [] {
      StepKeeps(s, steps[0]);
      OneMove(s, steps[0], id);
      FewPhases(Apply(s, steps[0]), steps[1..], id);
    }
  }

  /**
   * Until its process has exited a request can always go on, whatever it meets: no answer of the
   * gateway, no program and no caller can hold it.
   */
  lemma NeverStuck(s: System, id: nat, turn: Turn)
    requires Inv(s) && Holds(s, id) && !Of(s, id).exited
    ensures Enabled(s, Onwards(s, id, turn))
  {
  }

  /** The own next step of a request, or its exit. */
  function Onwards(s: System, id: nat, turn: Turn): Step
    requires Holds(s, id)
  {
    if s.requests[id].phase.Closed? then Leave(s.requests[id].worker) else Go(id, Met(s, id, turn))
  }

  /** The request goes on by itself through so many turns of what it meets. */
  ghost predicate GoesOn(s: System, id: nat, turns: nat -> Turn, from: nat, n: nat, s': System)
    decreases n
  {
    if n == 0 then s' == s
    else
      && Holds(s, id) && Enabled(s, Onwards(s, id, turns(from)))
      && GoesOn(Apply(s, Onwards(s, id, turns(from))), id, turns, from + 1, n - 1, s')
  }

  /**
   * From any state of a run, whatever turns it meets from there on, an accepted request gets to its
   * exit in a bounded number of its own steps.
   */
  lemma {:induction false} EndsInExit(s: System, id: nat, turns: nat -> Turn, from: nat) returns (n: nat, s': System)
    requires Inv(s) && Holds(s, id)
    ensures GoesOn(s, id, turns, from, n, s') && Holds(s', id) && Of(s', id).exited
    ensures n <= Ahead(s.requests[id].phase) + 1
    decreases Ahead(s.requests[id].phase)
  {
    hide Inv, Apply, Enabled, Ahead;
    if Of(s, id).exited {
      return 0, s;
    }
    var step := Onwards(s, id, turns(from));
    NeverStuck(s, id, turns(from));
    StepKeeps(s, step);
    OneMove(s, step, id);
    var t := Apply(s, step);
    if step.Leave? {
      Exits(s, id);
      assert GoesOn(t, id, turns, from + 1, 0, t);
      return 1, t;
    }
    var rest;
    rest, s' := EndsInExit(t, id, turns, from + 1);
    n := rest + 1;
  }

  lemma Exits(s: System, id: nat)
    requires Holds(s, id) && Enabled(s, Leave(s.requests[id].worker))
    ensures Of(Apply(s, Leave(s.requests[id].worker)), id).exited
  {
  }

  /** The stop of one process is its three steps in a row. */
  lemma StopIsSignalYieldLeave(s: System, w: nat)
    requires !At(s, w).exited
    ensures var t := Apply(s, Signal(w));
      var u := if Enabled(t, Yield(w)) then Apply(t, Yield(w)) else t;
      var v := if Enabled(u, Leave(w)) then Apply(u, Leave(w)) else u;
      v.workers == s.workers[w := Left(Yielded(Signalled(At(s, w))))]
  {
  }

  // ---------------------------------------------------------------------------------------------
  // A process that is told to stop leaves
  // ---------------------------------------------------------------------------------------------

  /** Some accepted request holds the process. */
  ghost predicate Held(s: System, w: nat) {
    exists id :: Holds(s, id) && s.requests[id].worker == w
  }

  /** A process whose run was taken has done with it, or a request is at it. */
  ghost predicate Minded(s: System) {
    forall w :: At(s, w).claimed ==> At(s, w).finished || Held(s, w)
  }

  lemma HeldStays(s: System, step: Step, w: nat)
    requires Enabled(s, step) && Held(s, w)
    ensures Held(Apply(s, step), w)
  {
    var id :| Holds(s, id) && s.requests[id].worker == w;
    OneMove(s, step, id);
  }

  lemma TakenIsHeld(s: System, id: nat)
    requires Enabled(s, Take(id))
    ensures Held(Apply(s, Take(id)), s.requests[id].worker)
  {
    assert Holds(Apply(s, Take(id)), id);
  }

  /** Only a take and a stop claim a process, and a stop has done with it at once. */
  lemma ClaimsOf(s: System, step: Step, w: nat)
    requires Enabled(s, step)
    ensures var p, q := At(s, w), At(Apply(s, step), w);
      && (p.finished ==> q.finished)
      && (q.claimed && !p.claimed ==> q.finished || (step.Take? && s.requests[step.id].worker == w))
  {
    hide To;
  }

  lemma StepMinds(s: System, step: Step)
    requires Enabled(s, step) && Minded(s)
    ensures Minded(Apply(s, step))
  {
    hide Apply, Enabled, Held, At;
    var t := Apply(s, step);
    forall w
      ensures At(t, w).claimed ==> At(t, w).finished || Held(t, w)
    {
      ClaimsOf(s, step, w);
      if Held(s, w) {
        HeldStays(s, step, w);
      }
      if step.Take? {
        TakenIsHeld(s, step.id);
      }
    }
  }

  lemma {:induction false} RunMinds(s: System, steps: seq<Step>)
    requires Legal(s, steps) && Minded(s)
    ensures Minded(Run(s, steps))
    decreases |steps|
  {
    hide Apply, Enabled, Minded;
    if steps != [] {
      StepMinds(s, steps[0]);
      RunMinds(Apply(s, steps[0]), steps[1..]);
    }
  }

  /** The rest of a stop: the idle process takes its own run, and a finished one leaves. */
  function Yields(s: System, w: nat): System {
    var t := if Enabled(s, Yield(w)) then Apply(s, Yield(w)) else s;
    if Enabled(t, Leave(w)) then Apply(t, Leave(w)) else t
  }

  lemma UnheldLeaves(s: System, w: nat)
    requires At(s, w).stopping && (At(s, w).claimed ==> At(s, w).finished)
    ensures At(Yields(s, w), w).exited
  {
  }

  /**
   * From every state of a run, a process that was told to stop exits: by the rest of its stop when
   * nobody holds it, and otherwise by the end of the request that does, whatever turns that meets.
   */
  lemma StoppedExits(before: seq<Step>, w: nat, turns: nat -> Turn) returns (holder: Option<nat>, n: nat, s': System)
    requires Legal(EMPTY, before) && At(Run(EMPTY, before), w).stopping
    ensures var s := Run(EMPTY, before);
      && At(s', w).exited
      && (holder.None? <==> !Held(s, w) || At(s, w).finished)
      && (holder.None? ==> s' == Yields(s, w))
      && (holder.Some? ==>
        && Holds(s, holder.value) && s.requests[holder.value].worker == w
        && GoesOn(s, holder.value, turns, 0, n, s') && n <= Ahead(s.requests[holder.value].phase) + 1)
  {
    RunKeeps(EMPTY, before);
    assert Minded(EMPTY);
    RunMinds(EMPTY, before);
    var s := Run(EMPTY, before);
    hide Run, Inv, Apply, Enabled;
    if Held(s, w) && !At(s, w).finished {
      var id :| Holds(s, id) && s.requests[id].worker == w;
      n, s' := EndsInExit(s, id, turns, 0);
      HolderStays(s, id, turns, 0, n, s');
      holder := Some(id);
    } else {
      UnheldLeaves(s, w);
      holder, n, s' := None, 0, Yields(s, w);
    }
  }

  lemma {:induction false} HolderStays(s: System, id: nat, turns: nat -> Turn, from: nat, n: nat, s': System)
    requires Holds(s, id) && GoesOn(s, id, turns, from, n, s')
    ensures Holds(s', id) && s'.requests[id].worker == s.requests[id].worker
    decreases n
  {
    hide Apply, Enabled;
    if n != 0 {
      var step := Onwards(s, id, turns(from));
      OneMove(s, step, id);
      HolderStays(Apply(s, step), id, turns, from + 1, n - 1, s');
    }
  }
}
