// The single-use remote worker (src/deepintshield/agentic/managed_remote.py): any number of worker
// processes, run requests and stop signals face a gateway that grants or withdraws each start once.

module Worker {
  import opened Common

  // ---------------------------------------------------------------------------------------------
  // One worker process
  // ---------------------------------------------------------------------------------------------

  /** `claimed`: the lock that is taken once; `finished` and `stopping`: the two events. */
  datatype Process = Process(claimed: bool, finished: bool, stopping: bool, exited: bool)

  const IDLE := Process(false, false, false, false)

  /** The claim; and the three parts of a stop, each a region of its own for the other threads. */
  function Taken(p: Process): Process {
    p.(claimed := true)
  }

  function Signalled(p: Process): Process {
    p.(stopping := true)
  }

  function Yielded(p: Process): Process {
    if p.claimed then p else p.(claimed := true, finished := true)
  }

  function Left(p: Process): Process {
    if p.finished then p.(exited := true) else p
  }

  /** `_Worker`: the state that makes a process single use. */
  class Server {
    var claimed: bool
    var finished: bool
    var stopping: bool
    var exited: bool

    ghost function View(): Process reads this {
      Process(claimed, finished, stopping, exited)
    }

    constructor ()
      ensures View() == IDLE
    {
      claimed, finished, stopping, exited := false, false, false, false;
    }

    /** The first caller wins and nobody ever wins again. */
    method Claim() returns (won: bool)
      modifies `claimed
      ensures View() == Taken(old(View())) && claimed && won == !old(claimed)
    {
      won := !claimed;
      claimed := true;
    }

    /** A stop signal: an idle process takes its own run and leaves; one with a run under way goes on to its end. */
    method Stop()
      modifies this
      ensures View() == Left(Yielded(Signalled(old(View()))))
      ensures stopping && claimed
      ensures !old(claimed) ==> finished && exited
      ensures old(claimed) ==> finished == old(finished) && exited == (old(exited) || old(finished))
    {
      stopping := true;
      var won := Claim();
      if won {
        finished := true;
      }
      if finished {
        exited := true;
      }
    }
  }

  // ---------------------------------------------------------------------------------------------
  // One run request
  // ---------------------------------------------------------------------------------------------

  /** What a request is answered, if it is answered at all. */
  datatype Answer = Refusal(code: string) | Outcome

  /**
   * Received; Declined: refused without being accepted. From Claimed on the request holds the
   * process: Checked (not stopping), Staged, Asking (with so many looks for the answer left), Cleared
   * (granted, and not stopping then), Running (with so many looks at the program left), Killed (its
   * process group was sent the kill), Closing (the answer is known, None when there is none), Closed.
   */
  datatype Phase =
    | Received | Declined(code: string)
    | Claimed | Checked | Staged | Asking(looks: nat) | Cleared | Running(looks: nat)
    | Killed(answer: Option<Answer>) | Closing(answer: Option<Answer>) | Closed(answer: Option<Answer>)

  const LAUNCH_FAILED := Some(Refusal("launch_failed"))
  const NOT_GRANTED := Some(Refusal("start_not_granted"))

  predicate Accepted(p: Phase) {
    !p.Received? && !p.Declined?
  }

  const POLL := 0.25
  const GRANT := 15.0

  /** The time an order gives its program, in seconds. */
  type Timeout = t: int | 1 <= t <= 3600 witness 1

  /** How often a wait of a quarter of a second at least fits before a deadline. */
  function Looks(left: real): nat {
    if left <= 0.0 then 0 else (left * 4.0).Floor + 1
  }

  const ASK_LOOKS: nat := 60
  const RUN_LOOKS: nat := 14400

  /**
   * What a request meets at one turn: whether the process is stopping, the operation works, the
   * caller is gone, what was waited for is there, the answer is yes, and the deadline has passed.
   */
  datatype Turn = Turn(stopping: bool, works: bool, gone: bool, done: bool, yes: bool, late: bool)

  /** The control flow of `_execute` and `_attempt`: where a turn leads, whatever it meets. */
  function Onward(p: Phase, t: Turn): Phase
    requires Accepted(p) && !p.Closed?
  {
    match p
    case Claimed => if t.stopping then Closing(LAUNCH_FAILED) else Checked
    case Checked => if t.works then Staged else Closing(LAUNCH_FAILED)
    case Staged =>
      if t.gone then Closing(None) else if t.stopping then Closing(NOT_GRANTED)
      else if t.works then Asking(ASK_LOOKS) else Closing(LAUNCH_FAILED)
    case Asking(looks) =>
      if t.done then if t.yes && !t.stopping then Cleared else Closing(NOT_GRANTED)
      else if t.stopping || t.late || looks == 0 then Closing(NOT_GRANTED) else Asking(looks - 1)
    case Cleared => if t.works then Running(RUN_LOOKS) else Closing(LAUNCH_FAILED)
    case Running(looks) =>
      if !t.works then Killed(None) else if t.done then Killed(Some(Outcome))
      else if t.stopping || t.late || looks == 0 then Killed(Some(Outcome))
      else if t.gone then Killed(None) else Running(looks - 1)
    case Killed(answer) => Closing(answer)
    case Closing(answer) => Closed(answer)
  }

  /** How a request that holds the process can go on. */
  predicate Edge(a: Phase, b: Phase) {
    match a
    case Claimed => b == Checked || b == Closing(LAUNCH_FAILED)
    case Checked => b == Staged || b == Closing(LAUNCH_FAILED)
    case Staged =>
      b == Asking(ASK_LOOKS) || b == Closing(None) || b == Closing(NOT_GRANTED) || b == Closing(LAUNCH_FAILED)
    case Asking(looks) => b == Cleared || b == Closing(NOT_GRANTED) || (looks > 0 && b == Asking(looks - 1))
    case Cleared => b == Running(RUN_LOOKS) || b == Closing(LAUNCH_FAILED)
    case Running(looks) => b == Killed(Some(Outcome)) || b == Killed(None) || (looks > 0 && b == Running(looks - 1))
    case Killed(answer) => b == Closing(answer)
    case Closing(answer) => b == Closed(answer)
    case _ => false
  }

  // ---------------------------------------------------------------------------------------------
  // Waiting for the grant
  // ---------------------------------------------------------------------------------------------

  /** One turn of a wait: how long it took beyond the poll, and what is seen after it. */
  datatype Look = Look(slept: Delay, done: bool, stopping: bool, gone: bool)

  /** Nothing of what a run meets is known beforehand. */
  datatype Luck = Luck(
    stoppingFirst: bool, staged: bool, gone: bool, stoppingAsked: bool, asks: bool, look: nat -> Look, verdict: bool,
    stoppingLast: bool, launched: bool, timeout: Timeout, watched: bool, watch: nat -> Look)

  /** The time left of `time` before the k-th look. */
  ghost function Remaining(time: real, look: nat -> Look, k: nat): real {
    if k == 0 then time
    else Remaining(time, look, k - 1) - Min(POLL, Remaining(time, look, k - 1)) - look(k - 1).slept
  }

  /** The k-th look finds nothing, and there is time for another. */
  ghost predicate Waits(luck: Luck, k: nat) {
    !luck.look(k).done && !luck.look(k).stopping && Remaining(GRANT, luck.look, k + 1) > 0.0
  }

  /** The answer is there at the k-th look, and neither a stop nor the end of the time came before it. */
  ghost predicate InTime(luck: Luck, k: nat) {
    luck.look(k).done && forall j: nat | j < k :: Waits(luck, j)
  }

  ghost predicate Granted(luck: Luck) {
    !luck.stoppingAsked && luck.asks && (exists k: nat :: InTime(luck, k)) && luck.verdict && !luck.stoppingLast
  }

  /** The phases follow the edges. */
  predicate Path(trail: seq<Phase>) {
    trail != [] && forall i | 0 < i < |trail| :: Edge(trail[i - 1], trail[i])
  }

  function Last(trail: seq<Phase>): Phase
    requires trail != []
  {
    trail[|trail| - 1]
  }

  predicate Ran(trail: seq<Phase>) {
    exists p <- trail :: p.Running?
  }

  predicate WasKilled(trail: seq<Phase>) {
    exists p <- trail :: p.Killed?
  }

  /** One more phase. */
  lemma Further(trail: seq<Phase>, p: Phase)
    requires trail != [] && Path(trail) && Edge(Last(trail), p)
    ensures var longer := trail + [p];
      && Path(longer) && Last(longer) == p && longer[0] == trail[0]
      && (Ran(longer) <==> Ran(trail) || p.Running?)
      && (WasKilled(longer) <==> WasKilled(trail) || p.Killed?)
  {
  }

  /**
   * `_start_granted` once the question is on its way: granted exactly on a yes in time, seen while not
   * stopping. The wait ends by itself, after at most 61 looks.
   */
  method StartGranted(luck: Luck, ghost trail: seq<Phase>) returns (granted: bool, ghost trail': seq<Phase>)
    requires !luck.stoppingAsked && luck.asks
    requires trail != [] && Path(trail) && Last(trail) == Asking(ASK_LOOKS) && !Ran(trail)
    ensures granted <==> Granted(luck)
    ensures trail' != [] && Path(trail') && Last(trail').Asking? && trail'[0] == trail[0] && |trail'| <= |trail| + 60
    ensures !Ran(trail') && (WasKilled(trail') <==> WasKilled(trail))
  {
    hide Path, Ran, WasKilled;
    trail' := trail;
    var left := GRANT;
    var k: nat := 0;
    while true
      invariant 0.0 < left == Remaining(GRANT, luck.look, k) && k + Looks(left) <= ASK_LOOKS + 1
      invariant forall j: nat | j < k :: Waits(luck, j)
      invariant trail' != [] && Path(trail') && |trail'| == |trail| + k && Last(trail') == Asking(ASK_LOOKS - k)
      invariant trail != [] && trail'[0] == trail[0] && !Ran(trail') && (WasKilled(trail') <==> WasKilled(trail))
      decreases Looks(left)
    {
      var look := luck.look(k);
      if look.done {
        break;
      }
      left := left - Min(POLL, left) - look.slept;
      if look.stopping || left <= 0.0 {
        TooLate(luck, k);
        return false, trail';
      }
      k := k + 1;
      Further(trail', Asking(ASK_LOOKS - k));
      trail' := trail' + [Asking(ASK_LOOKS - k)];
    }
    assert InTime(luck, k);
    granted := luck.verdict && !luck.stoppingLast;
  }

  lemma TooLate(luck: Luck, k: nat)
    requires forall j: nat | j < k :: Waits(luck, j)
    requires !Waits(luck, k) && !luck.look(k).done
    ensures !Granted(luck)
  {
    forall n: nat
      ensures !InTime(luck, n)
    {
      if n < k {
        assert Waits(luck, n);
      }
    }
  }

  // ---------------------------------------------------------------------------------------------
  // Supervising the program
  // ---------------------------------------------------------------------------------------------

  function Time(luck: Luck): (r: real)
    ensures 0.0 < r
  {
    luck.timeout as real
  }

  /** The program runs on past the k-th look: nobody stops it, its caller is there and there is time. */
  ghost predicate RunsOn(luck: Luck, k: nat) {
    var look := luck.watch(k);
    !look.done && !look.stopping && !look.gone && Remaining(Time(luck), luck.watch, k + 1) > 0.0
  }

  /** At the k-th look the caller is gone, and the program neither over nor to be stopped. */
  ghost predicate AbandonedAt(luck: Luck, k: nat) {
    var look := luck.watch(k);
    && (forall j: nat | j < k :: RunsOn(luck, j))
    && !look.done && !look.stopping && look.gone && Remaining(Time(luck), luck.watch, k + 1) > 0.0
  }

  ghost predicate Abandoned(luck: Luck) {
    exists k: nat :: AbandonedAt(luck, k)
  }

  lemma FirstEndDecides(luck: Luck, k: nat)
    requires (forall j: nat | j < k :: RunsOn(luck, j)) && !RunsOn(luck, k)
    ensures Abandoned(luck) <==> AbandonedAt(luck, k)
  {
    forall n: nat
      ensures AbandonedAt(luck, n) ==> n == k
    {
      if n < k {
        assert RunsOn(luck, n);
      }
    }
  }

  /**
   * `_supervise`: the program is looked at until it is over, its time is, the process is stopping or
   * the caller is gone. The loop ends by itself, and the group is sent the kill whichever way it ends,
   * also by an error. There is no answer exactly when the caller left first, or after an error.
   */
  method Supervise(luck: Luck, ghost trail: seq<Phase>) returns (answer: Option<Answer>, ghost trail': seq<Phase>)
    requires trail != [] && Path(trail) && Last(trail) == Running(RUN_LOOKS)
    ensures answer == if luck.watched && !Abandoned(luck) then Some(Outcome) else None
    ensures trail' != [] && Path(trail') && Last(trail') == Killed(answer) && trail'[0] == trail[0]
    ensures |trail'| <= |trail| + Looks(Time(luck))
    ensures Ran(trail') <==> Ran(trail)
  {
    hide Path, Ran, WasKilled;
    trail' := trail;
    assert Ran(trail) by {
      LastRuns(trail);
    }
    var left := Time(luck);
    var k: nat := 0;
    answer := if luck.watched then Some(Outcome) else None;
    while luck.watched
      invariant 0.0 < left == Remaining(Time(luck), luck.watch, k)
      invariant k + Looks(left) <= Looks(Time(luck)) <= RUN_LOOKS + 1
      invariant forall j: nat | j < k :: RunsOn(luck, j)
      invariant trail' != [] && Path(trail') && |trail'| == |trail| + k && Last(trail') == Running(RUN_LOOKS - k)
      invariant trail != [] && trail'[0] == trail[0] && Ran(trail')
      invariant answer == if luck.watched then Some(Outcome) else None
      decreases Looks(left)
    {
      var look := luck.watch(k);
      left := left - Min(POLL, left) - look.slept;
      if look.done || left <= 0.0 || look.stopping || look.gone {
        FirstEndDecides(luck, k);
        if !look.done && left > 0.0 && !look.stopping {
          answer := None;
        }
        break;
      }
      k := k + 1;
      Further(trail', Running(RUN_LOOKS - k));
      trail' := trail' + [Running(RUN_LOOKS - k)];
    }
    Further(trail', Killed(answer));
    trail' := trail' + [Killed(answer)];
  }

  lemma LastRuns(trail: seq<Phase>)
    requires trail != [] && Last(trail).Running?
    ensures Ran(trail)
  {
  }

  // ---------------------------------------------------------------------------------------------
  // An accepted request
  // ---------------------------------------------------------------------------------------------

  /** What a program needs to be created. */
  ghost predicate Starts(luck: Luck) {
    !luck.stoppingFirst && luck.staged && !luck.gone && Granted(luck) && luck.launched
  }

  /** What an accepted request is answered: the first thing that stands in the way decides. */
  ghost function AnswerOf(luck: Luck): Option<Answer> {
    if luck.stoppingFirst || !luck.staged then LAUNCH_FAILED
    else if luck.gone then None
    else if !luck.stoppingAsked && !luck.asks then LAUNCH_FAILED
    else if !Granted(luck) then NOT_GRANTED
    else if !luck.launched then LAUNCH_FAILED
    else if luck.watched && !Abandoned(luck) then Some(Outcome)
    else None
  }

  /**
   * `_execute` of an accepted request. The phases it goes through follow the edges, it ends closed
   * with its answer whatever it meets, it starts a program only after a yes, and it has sent each
   * program the kill.
   */
  method Execute(luck: Luck) returns (answer: Option<Answer>, ghost trail: seq<Phase>)
    ensures trail != [] && Path(trail) && trail[0] == Claimed && Last(trail) == Closed(answer)
    ensures (Ran(trail) <==> Starts(luck)) && (WasKilled(trail) <==> Ran(trail))
    ensures answer == AnswerOf(luck)
  {
    answer, trail := Attempt(luck);
    Further(trail, Closed(answer));
    trail := trail + [Closed(answer)];
  }

  method Attempt(luck: Luck) returns (answer: Option<Answer>, ghost trail: seq<Phase>)
    ensures trail != [] && Path(trail) && trail[0] == Claimed && Last(trail) == Closing(answer)
    ensures (Ran(trail) <==> Starts(luck)) && (WasKilled(trail) <==> Ran(trail))
    ensures answer == AnswerOf(luck)
  {
    trail := [Claimed];
    assert !Ran(trail) && !WasKilled(trail) && Path(trail);
    hide Path, Ran, WasKilled, Granted, Abandoned;
    if luck.stoppingFirst {
      trail := End(trail, LAUNCH_FAILED);
      return LAUNCH_FAILED, trail;
    }
    Further(trail, Checked);
    trail := trail + [Checked];
    if !luck.staged {
      trail := End(trail, LAUNCH_FAILED);
      return LAUNCH_FAILED, trail;
    }
    Further(trail, Staged);
    trail := trail + [Staged];
    if luck.gone {
      trail := End(trail, None);
      return None, trail;
    }
    var granted := false;
    if luck.stoppingAsked || !luck.asks {
      NotAsked(luck);
      answer := if luck.stoppingAsked then NOT_GRANTED else LAUNCH_FAILED;
      trail := End(trail, answer);
      return answer, trail;
    }
    Further(trail, Asking(ASK_LOOKS));
    trail := trail + [Asking(ASK_LOOKS)];
    granted, trail := StartGranted(luck, trail);
    if !granted {
      trail := End(trail, NOT_GRANTED);
      return NOT_GRANTED, trail;
    }
    Further(trail, Cleared);
    trail := trail + [Cleared];
    if !luck.launched {
      trail := End(trail, LAUNCH_FAILED);
      return LAUNCH_FAILED, trail;
    }
    answer, trail := Run(luck, trail);
  }

  lemma NotAsked(luck: Luck)
    requires luck.stoppingAsked || !luck.asks
    ensures !Granted(luck)
  {
  }

  /** The launcher was created. */
  method Run(luck: Luck, ghost trail: seq<Phase>) returns (answer: Option<Answer>, ghost trail': seq<Phase>)
    requires trail != [] && Path(trail) && Last(trail) == Cleared
    ensures answer == if luck.watched && !Abandoned(luck) then Some(Outcome) else None
    ensures trail' != [] && Path(trail') && trail'[0] == trail[0] && Last(trail') == Closing(answer)
    ensures Ran(trail') && WasKilled(trail')
  {
    hide Path, Ran, WasKilled, Abandoned;
    Further(trail, Running(RUN_LOOKS));
    trail' := trail + [Running(RUN_LOOKS)];
    answer, trail' := Supervise(luck, trail');
    LastKilled(trail');
    trail' := End(trail', answer);
  }

  lemma LastKilled(trail: seq<Phase>)
    requires trail != [] && Last(trail).Killed?
    ensures WasKilled(trail)
  {
  }

  ghost function End(trail: seq<Phase>, answer: Option<Answer>): (longer: seq<Phase>)
    requires trail != [] && Path(trail) && Edge(Last(trail), Closing(answer))
    ensures longer != [] && Path(longer) && Last(longer) == Closing(answer) && longer[0] == trail[0]
    ensures (Ran(longer) <==> Ran(trail)) && (WasKilled(longer) <==> WasKilled(trail))
  {
    Further(trail, Closing(answer));
    trail + [Closing(answer)]
  }

  /** The edges are what the turns lead to. */
  lemma EdgesAreTurns(a: Phase, b: Phase)
    requires Accepted(a) && !a.Closed?
    ensures Edge(a, b) <==> exists t :: Onward(a, t) == b
  {
    var failed, refused, left := b == Closing(LAUNCH_FAILED), b == Closing(NOT_GRANTED), b == Closing(None);
    var done := b == Cleared || b == Killed(Some(Outcome));
    var t := Turn(failed && a.Claimed?, !failed, left, false, true, false);
    var u := Turn(refused, true, left, done, true, false);
    var v := Turn(refused, b != Killed(None), false, done, true, false);
    if Edge(a, b) {
      assert Onward(a, t) == b || Onward(a, u) == b || Onward(a, v) == b;
    }
  }

  /** What each turn decides: which of what the request meets it depends on, and on nothing else. */
  lemma TurnsDecide(p: Phase, t: Turn)
    requires Accepted(p) && !p.Closed?
    ensures var q := Onward(p, t);
      // a program is prepared unless the process is stopping, and asked for unless its caller is gone
      && (p.Claimed? ==> (q.Checked? <==> !t.stopping))
      && (p.Staged? ==> (q.Asking? <==> t.works && !t.gone && !t.stopping))
      && (p.Staged? && t.gone ==> q == Closing(None))
      // it is started on a yes that came, while the process was not stopping
      && (q.Cleared? <==> p.Asking? && t.done && t.yes && !t.stopping)
      && (p.Asking? && !t.done && !t.stopping && !t.late && p.looks > 0 ==> q == Asking(p.looks - 1))
      && (p.Cleared? ==> (q.Running? <==> t.works))
      // it is left alone as long as nothing happens, and its outcome is told unless the caller left first
      && (p.Running? ==>
        && (q.Running? <==> t.works && !t.done && !t.stopping && !t.late && !t.gone && p.looks > 0)
        && (q == Killed(Some(Outcome)) <==> t.works && (t.done || t.stopping || t.late || p.looks == 0)))
      // nothing but its own answer is told
      && (p.Killed? ==> q == Closing(p.answer)) && (p.Closing? ==> q == Closed(p.answer))
      // and a refusal says what it is for
      && (q == Closing(NOT_GRANTED) && !p.Killed? ==> p.Staged? || p.Asking?)
      && (q == Closing(LAUNCH_FAILED) && !p.Killed? ==> (p.Claimed? && t.stopping) || !t.works)
  {
  }
}
