// What one invocation comes to, told by the situation it meets: when it sends and what, how often it
// asks again, and how it ends (src/deepintshield/agentic/managed_execution.py).

module HandoffExits {
  import opened Common
  import opened Handoff
  import opened HandoffProtocol

  // ---------------------------------------------------------------------------------------------
  // The probe
  // ---------------------------------------------------------------------------------------------

  /**
   * The gateway is asked until it makes an offer; a compile-time refusal is asked again by an execution.
   * An execution that is refused runs here from then on, a compilation does not decide that.
   */
  lemma ProbeEnds(s: State, refresh: bool, answer: ProbeAnswer)
    ensures var p := Probe(s, refresh, answer);
      var asks := !s.capability.Offered? && !(s.capability.NotOffered? && !refresh) && !s.local;
      && (!asks ==> p.state == s && p.code.None?)
      && (p.capability.Offered? <==> s.capability.Offered? || (asks && answer.Offer?))
      && (p.code.Some? <==> asks && answer.ProbeFailed?)
      && (p.code.Some? ==> p.code == Some(answer.code) && p.state == s)
      && (p.state.local <==> s.local || (asks && refresh && answer.NoServerRuns?))
      && (p.code.None? && asks ==> p.state.capability == p.capability)
      && (asks && answer.Offer? ==> p.capability == Offered(answer.settings) && !p.state.report)
      && (asks && answer.NoServerRuns? ==> p.state.report == answer.report)
      && p.state.wire == s.wire && p.state.submission == s.submission
  {
  }

  /** An execution that gets an offer goes on to the lock; one that gets none runs here, unless its probe failed. */
  lemma ExecutionEnds(asks: bool, c: Client, id: nat, answer: ProbeAnswer)
    requires Enabled(c, Execute(id, answer))
    ensures var t := Take(asks, c, Execute(id, answer));
      var offered := c.engine.capability.Offered? || (!c.engine.local && answer.Offer?);
      var fails := !c.engine.capability.Offered? && !c.engine.local && answer.ProbeFailed?;
      && (t.marks == [RanHere] <==> !asks || (!offered && !fails))
      && (t.marks == [] || t.marks == [RanHere])
      && (id in t.client.held <==> asks && offered)
      && (asks && offered ==> t.client.engine.capability == Offered(t.client.held[id]))
  {
  }

  // ---------------------------------------------------------------------------------------------
  // Before anything is sent
  // ---------------------------------------------------------------------------------------------

  /** Something was handed over before. */
  predicate HandedOver(s: State) {
    s.submission.Some? || s.wire.Some?
  }

  /** A refusal that leaves the program running here. */
  predicate StaysHere(code: string) {
    || code == "managed_execution_context_unsupported" || code == "managed_execution_bundle_unsupported"
    || code == "managed_execution_dependency_missing" || code == "managed_execution_bundle_too_large"
  }

  /** The program is hosted, and nothing was handed over: it runs here. */
  predicate HostedHere(s: State, settings: Settings, e: Surroundings) {
    settings.localFallback && !HandedOver(s) && e.serves
  }

  /** A delegated context is never handed over; whether it runs here or fails is told by what was kept. */
  lemma DelegatedNeverSends(s: State, settings: Settings, e: Surroundings)
    requires e.delegated.Some?
    ensures var r := Settle(s, settings, e);
      && r.posts == [] && !r.ending.PrintAndExit?
      && (!settings.localFallback ==> r.ending == Raise(e.delegated.value) && r.state == s)
      && (settings.localFallback && s.local ==> r.ending.RunHere? && r.state == s)
      && (settings.localFallback && !s.local && !HostedHere(s, settings, e) ==>
        if !HandedOver(s) && StaysHere(e.delegated.value)
        then r.ending.RunHere? && r.state == s.(local := true)
        else r.ending == Raise(e.delegated.value) && r.state == s)
  {
  }

  /** An engine that runs here goes on to, and a hosted program that was not handed over begins to. */
  lemma LocalAndHosted(s: State, settings: Settings, e: Surroundings)
    requires settings.localFallback || e.delegated.None?
    requires s.local || HostedHere(s, settings, e)
    ensures Settle(s, settings, e) == Settled(s.(local := true), [], RunHere)
  {
  }

  /** The bytes an invocation would send: the kept ones, or the package made now. */
  function Bytes(s: State, settings: Settings, e: Surroundings): Option<Wire> {
    if s.submission.Some? then (if settings.submissionIds && settings.resultPolling then s.wire else None)
    else if settings.submissionIds && s.wire.Some? then s.wire
    else if e.bundle.Packed? then Some(e.bundle.wire)
    else None
  }

  /** Nothing speaks against handing over. */
  predicate MaySend(s: State, settings: Settings, e: Surroundings) {
    !s.local && e.delegated.None? && !HostedHere(s, settings, e)
  }

  /** When a request is sent, and which is the first. */
  lemma SendsExactlyWhen(s: State, settings: Settings, e: Surroundings)
    ensures var r := Settle(s, settings, e);
      && (r.posts != [] <==> MaySend(s, settings, e) && Bytes(s, settings, e).Some?)
      && (r.posts != [] ==> r.posts[0] == Post(Bytes(s, settings, e).value, e.first))
  {
    if MaySend(s, settings, e) && (s.submission.None? || !Follows(settings) || s.wire.Some?) {
      hide PollSubmission, IdentityCannotUse, SubmissionError;
    }
  }

  /** A program that cannot be packaged: it runs here or fails, and the engine keeps nothing of it. */
  lemma NotPackaged(s: State, settings: Settings, e: Surroundings)
    requires MaySend(s, settings, e) && s.submission.None? && Bytes(s, settings, e).None?
    ensures var r := Settle(s, settings, e);
      && (e.bundle.Refused? && settings.localFallback && !HandedOver(s) && StaysHere(e.bundle.code) ==>
        r == Settled(s.(local := true), [], RunHere))
      && (!(e.bundle.Refused? && settings.localFallback && !HandedOver(s) && StaysHere(e.bundle.code)) ==>
        r == Settled(s, [], Raise(e.bundle.code)))
  {
  }

  /** A kept job that is to be followed, without its bytes. */
  lemma BytesGone(s: State, settings: Settings, e: Surroundings)
    requires MaySend(s, settings, e) && s.submission.Some? && s.wire.None?
    requires settings.submissionIds && settings.resultPolling
    ensures Settle(s, settings, e) == Settled(s, [], Raise("managed_execution_response_invalid"))
  {
  }

  // ---------------------------------------------------------------------------------------------
  // Asking again
  // ---------------------------------------------------------------------------------------------

  /** The time gone when turn k of the loop begins. */
  ghost function Begins(tick: nat -> Tick, interval: real, wait: real, k: nat): real
    decreases k, 0
  {
    if k == 0 then 0.0 else Asks(tick, interval, wait, k - 1)
  }

  /** The time gone when turn k comes to its request: what passed, a sleep of no more than is left, and its excess. */
  ghost function Asks(tick: nat -> Tick, interval: real, wait: real, k: nat): real
    decreases k, 1
  {
    var looked := Begins(tick, interval, wait, k) + tick(k).passed;
    if wait <= looked then looked
    else looked + (if interval < wait - looked then interval else wait - looked) + tick(k).overslept
  }

  /** The job before turn k: the one submitted, or the last answer. */
  function Latest(tick: nat -> Tick, job: Job, k: nat): Job {
    if k == 0 then job else if tick(k - 1).answer.Accepted? then tick(k - 1).answer.job else job
  }

  /** The answer of a turn is about the job submitted. */
  predicate Names(tick: nat -> Tick, k: nat, job: Job) {
    tick(k).answer.Accepted? && tick(k).answer.job.id == job.id
  }

  /** A request in time, for a job that is still active. */
  ghost predicate Due(tick: nat -> Tick, interval: real, wait: real, job: Job, k: nat) {
    Asks(tick, interval, wait, k) < wait && Active(Latest(tick, job, k))
  }

  /**
   * A loop from turn k on: each request is made in time, sends the same bytes, and asks for a job that is still
   * active; only the last answer can be an error or name another job; without one the loop ends when
   * the job is no longer active or the time is up.
   */
  ghost predicate Loops(wire: Wire, tick: nat -> Tick, interval: real, wait: real, job: Job, k: nat, p: Polled) {
    var n := |p.posts|;
    && (forall i: nat | k <= i < k + n ::
      p.posts[i - k] == Post(wire, tick(i).answer) && Due(tick, interval, wait, job, i))
    && (forall i: nat | k <= i < k + n - 1 :: Names(tick, i, job))
    && (p.code.None? ==>
      && p.job == Latest(tick, job, k + n)
      && (n > 0 ==> Names(tick, k + n - 1, job))
      && (Active(p.job) ==> wait <= Asks(tick, interval, wait, k + n)))
    && (p.code.Some? ==>
      && n > 0 && p.job == Latest(tick, job, k + n - 1)
      && (match tick(k + n - 1).answer
          case Failed(code) => p.code == Some(code)
          case Accepted(other) => other.id != job.id && p.code == Some("managed_execution_response_invalid")))
  }

  lemma LoopsEnd(wire: Wire, tick: nat -> Tick, interval: real, wait: real, job: Job, k: nat)
    requires !Active(Latest(tick, job, k)) || wait <= Asks(tick, interval, wait, k)
    ensures Loops(wire, tick, interval, wait, job, k, Polled([], Latest(tick, job, k), None))
  {
  }

  lemma LoopsFail(wire: Wire, tick: nat -> Tick, interval: real, wait: real, job: Job, k: nat, code: string)
    requires Due(tick, interval, wait, job, k) && !Names(tick, k, job)
    requires code == if tick(k).answer.Failed? then tick(k).answer.code else "managed_execution_response_invalid"
    ensures Loops(wire, tick, interval, wait, job, k,
      Polled([Post(wire, tick(k).answer)], Latest(tick, job, k), Some(code)))
  {
  }

  /** The polling loop asks exactly as often as it should. */
  lemma {:induction false} PollLoops(wire: Wire, tick: nat -> Tick, interval: real, wait: real, job: Job, k: nat)
    requires MIN_INTERVAL <= interval && Latest(tick, job, k).id == job.id
    ensures var left := wait - Begins(tick, interval, wait, k);
      Loops(wire, tick, interval, wait, job, k, Poll(wire, tick, k, interval, left, Latest(tick, job, k)))
    decreases Budget(wait - Begins(tick, interval, wait, k))
  {
    hide Loops, Budget;
    var left, latest := wait - Begins(tick, interval, wait, k), Latest(tick, job, k);
    var after := Awake(left, interval, tick(k));
    assert after == wait - Asks(tick, interval, wait, k);
    if !Active(latest) || after <= 0.0 {
      LoopsEnd(wire, tick, interval, wait, job, k);
    } else if !Names(tick, k, job) {
      LoopsFail(wire, tick, interval, wait, job, k,
        if tick(k).answer.Failed? then tick(k).answer.code else INVALID);
    } else {
      assert Begins(tick, interval, wait, k + 1) == Asks(tick, interval, wait, k);
      PollLoops(wire, tick, interval, wait, job, k + 1);
      LoopsOn(wire, tick, interval, wait, job, k, Poll(wire, tick, k + 1, interval, after, tick(k).answer.job));
    }
  }

  lemma LoopsOn(wire: Wire, tick: nat -> Tick, interval: real, wait: real, job: Job, k: nat, rest: Polled)
    requires Loops(wire, tick, interval, wait, job, k + 1, rest)
    requires Due(tick, interval, wait, job, k) && Names(tick, k, job)
    ensures Loops(wire, tick, interval, wait, job, k, Prefixed([Post(wire, tick(k).answer)], rest))
  {
    hide Due;
    var p := Prefixed([Post(wire, tick(k).answer)], rest);
    forall i: nat | k <= i < k + |p.posts|
      ensures p.posts[i - k] == Post(wire, tick(i).answer) && Due(tick, interval, wait, job, i)
    {
      if i > k {
        assert p.posts[i - k] == rest.posts[i - (k + 1)];
      }
    }
  }

  // ---------------------------------------------------------------------------------------------
  // How it ends
  // ---------------------------------------------------------------------------------------------

  /** The server ended the run in preparation, because the agent's identity cannot use a server run. */
  predicate EndedForIdentity(job: Job) {
    job.status == Failing && job.stage == "prepare" && job.errorCode == "managed_gateway_runtime_required"
  }

  /** How an invocation ends on a job: the state it leaves, and its ending. */
  predicate EndsOn(s: State, settings: Settings, e: Surroundings, job: Job, r: Settled) {
    if job.status == Succeeded then
      r.state == s && r.ending == if e.badOutput.None? then PrintAndExit else Raise(e.badOutput.value)
    else if settings.localFallback && EndedForIdentity(job) then r.state == s.(local := true) && r.ending == RunHere
    else r.state == s && r.ending.Raise? && Reported(job, e.known, r.ending.code)
  }

  /** The error that a job without output is reported as. */
  predicate Reported(job: Job, known: set<string>, code: string) {
    match job.status
    case Succeeded => false
    case Failing =>
      code == if job.errorCode != "" && job.errorCode in known then job.errorCode else "managed_execution_failed"
    case WaitingRuntime =>
      var told := job.errorCode == "managed_dependency_unavailable"
        || job.errorCode == "managed_python_version_unavailable";
      code == if told then job.errorCode else "managed_execution_runtime_pending"
    case WaitingApproval =>
      if job.errorCode == "agent_access_setup_pending" || job.errorCode == "agent_access_plan_pending"
      then code == "managed_execution_access_pending"
      else if job.errorCode == "agent_blueprint_review_pending" || job.errorCode == "managed_blueprint_changed"
        || job.errorCode == "agent_tool_identity_review_required"
      then code == job.errorCode
      else code == "agent_registration_pending"
    case WaitingIdentity => code == "managed_execution_identity_pending"
    case Cancelled => code == "managed_execution_cancelled"
    case Expired => code == "managed_execution_expired"
    case ReconcileRequired => code == "managed_execution_reconcile_required"
    case Unknown => code == "managed_execution_response_invalid"
    case _ => code == "managed_execution_pending"
  }

  lemma RuntimeReported(job: Job, known: set<string>)
    requires job.status.WaitingRuntime?
    ensures Reported(job, known, SubmissionError(job, known).value)
  {
  }

  lemma ApprovalReported(job: Job, known: set<string>)
    requires job.status.WaitingApproval?
    ensures Reported(job, known, SubmissionError(job, known).value)
  {
  }

  lemma OtherJobReported(job: Job, known: set<string>)
    requires !job.status.Succeeded? && !job.status.WaitingRuntime? && !job.status.WaitingApproval?
    ensures Reported(job, known, SubmissionError(job, known).value)
  {
  }

  lemma ConcludeEnds(s: State, settings: Settings, e: Surroundings, job: Job)
    requires !s.local
    ensures EndsOn(s, settings, e, job, Conclude(s, settings, e, job)) && Conclude(s, settings, e, job).posts == []
  {
    if job.status.WaitingRuntime? {
      RuntimeReported(job, e.known);
    } else if job.status.WaitingApproval? {
      ApprovalReported(job, e.known);
    } else if !job.status.Succeeded? {
      OtherJobReported(job, e.known);
    }
    hide SubmissionError, Reported;
  }

  /** A job that was kept and is not asked about again. */
  lemma KeptJobEnds(s: State, settings: Settings, e: Surroundings)
    requires MaySend(s, settings, e) && s.submission.Some? && !(settings.submissionIds && settings.resultPolling)
    ensures Settle(s, settings, e).posts == []
    ensures EndsOn(s, settings, e, s.submission.value, Settle(s, settings, e))
  {
    hide EndsOn;
    ConcludeEnds(s, settings, e, s.submission.value);
  }

  /** The state after a request: with submission ids its bytes are kept, whatever comes back. */
  function SentState(s: State, settings: Settings, wire: Wire): State {
    if settings.submissionIds then s.(wire := Some(wire)) else s
  }

  /** The first request fails, or its answer names another job than the one kept. */
  lemma FirstFails(s: State, settings: Settings, e: Surroundings)
    requires MaySend(s, settings, e) && Bytes(s, settings, e).Some?
    ensures var wire := Bytes(s, settings, e).value;
      var r := Settle(s, settings, e);
      var other := e.first.Accepted? && s.submission.Some? && s.submission.value.id != e.first.job.id;
      && (e.first.Failed? ==>
        r == Settled(SentState(s, settings, wire), [Post(wire, e.first)], Raise(e.first.code)))
      && (other ==>
        r == Settled(s, [Post(wire, e.first)], Raise("managed_execution_response_invalid")))
  {
    hide Follow;
  }

  /** The answer of the first request is taken. */
  predicate Accepts(s: State, settings: Settings, e: Surroundings) {
    && MaySend(s, settings, e) && Bytes(s, settings, e).Some?
    && e.first.Accepted? && (s.submission.Some? ==> s.submission.value.id == e.first.job.id)
  }

  lemma TakenFollows(s: State, settings: Settings, e: Surroundings)
    requires Accepts(s, settings, e)
    ensures var wire := Bytes(s, settings, e).value;
      var f := Follow(SentState(s, settings, wire).(submission := Some(e.first.job)), settings, e, e.first.job);
      Settle(s, settings, e) == Settled(f.state, [Post(wire, e.first)] + f.posts, f.ending)
  {
    hide Follow;
  }

  /** Without polling, or when the first answer's job is no longer active: one request, and the end of its job. */
  lemma FirstAnswerEnds(s: State, settings: Settings, e: Surroundings)
    requires Accepts(s, settings, e)
    requires !(settings.submissionIds && settings.resultPolling) || !Active(e.first.job)
    ensures var wire := Bytes(s, settings, e).value;
      && Settle(s, settings, e).posts == [Post(wire, e.first)]
      && EndsOn(SentState(s, settings, wire).(submission := Some(e.first.job)), settings, e, e.first.job,
                Settle(s, settings, e))
  {
    TakenFollows(s, settings, e);
    var sent := SentState(s, settings, Bytes(s, settings, e).value).(submission := Some(e.first.job));
    hide Settle, Conclude;
    ConcludeEnds(sent, settings, e, e.first.job);
    assert [Post(Bytes(s, settings, e).value, e.first)] + [] == [Post(Bytes(s, settings, e).value, e.first)];
  }

  /** A duration that was sent and is none. */
  predicate Spoiled(value: Setting) {
    value.NotSeconds? || (value.Seconds? && value.value < 0.0)
  }

  function Pause(settings: Settings): real {
    if settings.interval.Absent? then 1.0
    else if settings.interval.Seconds? && 0.05 <= settings.interval.value <= 10.0 then settings.interval.value
    else if settings.interval.Seconds? && settings.interval.value > 10.0 then 10.0
    else 0.05
  }

  function Patience(settings: Settings): real {
    if settings.timeout.Absent? then 30.0
    else if settings.timeout.Seconds? && settings.timeout.value <= 60.0 then settings.timeout.value
    else 60.0
  }

  lemma PollSubmissionLoops(s: State, settings: Settings, tick: nat -> Tick, job: Job)
    requires Active(job) && s.wire.Some?
    ensures var p := PollSubmission(s, settings, tick, job);
      if Spoiled(settings.interval) || Spoiled(settings.timeout)
      then p == Polled([], job, Some("managed_execution_response_invalid"))
      else Loops(s.wire.value, tick, Pause(settings), Patience(settings), job, 0, p)
  {
    hide Loops;
    if !Spoiled(settings.interval) && !Spoiled(settings.timeout) {
      PollLoops(s.wire.value, tick, Pause(settings), Patience(settings), job, 0);
    }
    hide Poll;
  }

  /** With polling and an active job: more requests follow, as the loop is due, and the end of the last job. */
  lemma PolledEnds(s: State, settings: Settings, e: Surroundings) returns (p: Polled)
    requires Accepts(s, settings, e)
    requires settings.submissionIds && settings.resultPolling && Active(e.first.job)
    ensures var wire := Bytes(s, settings, e).value;
      var r := Settle(s, settings, e);
      var sent := s.(wire := Some(wire), submission := Some(p.job));
      && r.posts == [Post(wire, e.first)] + p.posts
      && (if Spoiled(settings.interval) || Spoiled(settings.timeout)
          then p == Polled([], e.first.job, Some("managed_execution_response_invalid"))
          else Loops(wire, e.tick, Pause(settings), Patience(settings), e.first.job, 0, p))
      && (if p.code.Some? then r.state == sent && r.ending == Raise(p.code.value)
          else EndsOn(sent, settings, e, p.job, r))
  {
    TakenFollows(s, settings, e);
    hide Settle, Conclude, EndsOn, Loops, PollSubmission, Spoiled, Pause, Patience, Active;
    var sent := s.(wire := Bytes(s, settings, e), submission := Some(e.first.job));
    PollSubmissionLoops(sent, settings, e.tick, e.first.job);
    p := PollSubmission(sent, settings, e.tick, e.first.job);
    ConcludeEnds(sent.(submission := Some(p.job)), settings, e, p.job);
  }

  /** On every run: the rest of an invocation in a delegated context sends nothing. */
  lemma DelegatedLeavesNoPost(asks: bool, c: Client, id: nat, e: Surroundings)
    requires Enabled(c, Finish(id, e)) && e.delegated.Some?
    ensures forall m <- Take(asks, c, Finish(id, e)).marks :: m.RanHere?
  {
    DelegatedNeverSends(c.engine, c.held[id], e);
    hide Settle;
  }

  /** What the rest of an invocation shows: its requests in order, and then how it ended. */
  lemma InvocationShows(asks: bool, c: Client, id: nat, e: Surroundings)
    requires Enabled(c, Finish(id, e))
    ensures var r := Settle(c.engine, c.held[id], e);
      var marks := Take(asks, c, Finish(id, e)).marks;
      var n := |r.posts|;
      && |marks| == n + (if r.ending.Raise? then 0 else 1)
      && (forall i | 0 <= i < n :: marks[i] == Posted(r.posts[i]))
      && (r.ending.RunHere? ==> marks[n] == RanHere) && (r.ending.PrintAndExit? ==> marks[n] == Printed)
  {
    hide Settle;
  }
}
