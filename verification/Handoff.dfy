// The hand-over of one standalone program to the gateway's server run
// (src/deepintshield/agentic/managed_execution.py). `State` and the functions over it are the
// specification; `Engine` is the object whose fields the client updates under its process lock.

module Handoff {
  import opened Common

  type Wire = Bytes

  // ---------------------------------------------------------------------------------------------
  // What the gateway and the surroundings can answer
  // ---------------------------------------------------------------------------------------------

  /** A duration field of the capabilities answer: absent, a finite number, or anything else. */
  datatype Setting = Absent | Seconds(value: real) | NotSeconds

  datatype Settings = Settings(
    localFallback: bool, submissionIds: bool, resultPolling: bool, interval: Setting, timeout: Setting)

  /** The cached answer. An offer holds at least the key `enabled`, so it is never empty. */
  datatype Capability = Unasked | NotOffered | Offered(settings: Settings)

  datatype ProbeAnswer = ProbeFailed(code: string) | NoServerRuns(report: bool) | Offer(settings: Settings)

  /** The states of a job that the client knows; every other status, or none, is Unknown. */
  datatype Status =
    | Queued | Preparing | Running | Succeeded | Failing | Cancelled | Expired | ReconcileRequired
    | WaitingIdentity | WaitingRuntime | WaitingApproval | Unknown

  datatype Job = Job(id: string, status: Status, stage: string, errorCode: string)

  /** One submission request: an accepted job, or the error it ends in (also a lost response). */
  datatype Answer = Accepted(job: Job) | Failed(code: string)

  /** Packaging the program: its bytes, a governed refusal, or any other exception. */
  datatype Bundle = Packed(wire: Wire) | Refused(code: string) | Crashed(code: string)

  /** One turn of the polling loop: time spent before it, time slept too long, what the request gave. */
  datatype Tick = Tick(passed: Delay, overslept: Delay, answer: Answer)

  /** Everything one invocation meets between taking the lock and releasing it. */
  datatype Surroundings = Surroundings(
    serves: bool, delegated: Option<string>, bundle: Bundle, first: Answer, tick: nat -> Tick,
    known: set<string>, badOutput: Option<string>)

  // ---------------------------------------------------------------------------------------------
  // Process state and outcomes
  // ---------------------------------------------------------------------------------------------

  datatype State = State(
    local: bool, report: bool, capability: Capability, wire: Option<Wire>, submission: Option<Job>)

  const FRESH := State(false, false, Unasked, None, None)

  /** How an invocation ends: the program runs here, an error is raised, or output is printed and it exits. */
  datatype Ending = RunHere | Raise(code: string) | PrintAndExit

  datatype Post = Post(wire: Wire, answer: Answer)

  datatype Settled = Settled(state: State, posts: seq<Post>, ending: Ending)

  const INVALID := "managed_execution_response_invalid"

  predicate Active(job: Job) {
    job.status.Queued? || job.status.Preparing? || job.status.Running?
  }

  const LOCAL_CODES: set<string> := {
    "managed_execution_context_unsupported", "managed_execution_bundle_unsupported",
    "managed_execution_dependency_missing", "managed_execution_bundle_too_large"}

  function StatusError(status: Status): string
    requires !status.Succeeded?
  {
    match status
    case Queued => "managed_execution_pending"
    case Preparing => "managed_execution_pending"
    case Running => "managed_execution_pending"
    case WaitingIdentity => "managed_execution_identity_pending"
    case WaitingRuntime => "managed_execution_runtime_pending"
    case WaitingApproval => "agent_registration_pending"
    case Failing => "managed_execution_failed"
    case Cancelled => "managed_execution_cancelled"
    case Expired => "managed_execution_expired"
    case ReconcileRequired => "managed_execution_reconcile_required"
    case Unknown => INVALID
  }

  /** The server ended this run in preparation because of the agent's identity. */
  predicate IdentityCannotUse(job: Job) {
    job.status.Failing? && job.stage == "prepare" && job.errorCode == "managed_gateway_runtime_required"
  }

  /** The public error for a job that has no output yet; `known` is the error catalogue. */
  function SubmissionError(job: Job, known: set<string>): (r: Option<string>)
    ensures r.None? <==> job.status.Succeeded?
  {
    if job.status.Succeeded? then None
    else if job.status.Failing? && job.errorCode != "" && job.errorCode in known then Some(job.errorCode)
    else if job.status.WaitingRuntime?
      && job.errorCode in {"managed_dependency_unavailable", "managed_python_version_unavailable"}
    then Some(job.errorCode)
    else if job.status.WaitingApproval?
      && job.errorCode in {"agent_access_setup_pending", "agent_access_plan_pending"}
    then Some("managed_execution_access_pending")
    else if job.status.WaitingApproval?
      && job.errorCode in {"agent_blueprint_review_pending", "agent_tool_identity_review_required",
                           "managed_blueprint_changed"}
    then Some(job.errorCode)
    else Some(StatusError(job.status))
  }

  // ---------------------------------------------------------------------------------------------
  // The probe
  // ---------------------------------------------------------------------------------------------

  datatype Probed = Probed(state: State, code: Option<string>, capability: Capability)

  /** One capability probe. `refresh` is set by an execution, clear at compile time. */
  function Probe(s: State, refresh: bool, answer: ProbeAnswer): Probed {
    if s.capability.Offered? || (s.capability.NotOffered? && !refresh) then
      Probed(s, None, s.capability)
    else if s.local then
      Probed(s, None, NotOffered)
    else
      match answer
      case ProbeFailed(code) => Probed(s, Some(code), NotOffered)
      case NoServerRuns(report) =>
        Probed(s.(report := report, capability := NotOffered, local := s.local || refresh), None, NotOffered)
      case Offer(settings) =>
        Probed(s.(report := false, capability := Offered(settings)), None, Offered(settings))
  }

  // ---------------------------------------------------------------------------------------------
  // Polling
  // ---------------------------------------------------------------------------------------------

  const MIN_INTERVAL := 0.05
  const MAX_INTERVAL := 10.0
  const MAX_WAIT := 60.0

  predicate Usable(value: Setting) {
    value != NotSeconds && (value.Seconds? ==> 0.0 <= value.value)
  }

  function OrElse(value: Setting, default: real): real {
    if value.Seconds? then value.value else default
  }

  function Interval(settings: Settings): (r: real)
    ensures MIN_INTERVAL <= r <= MAX_INTERVAL
  {
    Min(Max(OrElse(settings.interval, 1.0), MIN_INTERVAL), MAX_INTERVAL)
  }

  function Wait(settings: Settings): (r: real)
    ensures r <= MAX_WAIT
  {
    Min(OrElse(settings.timeout, 30.0), MAX_WAIT)
  }

  /** The requests a polling loop makes, the last job it accepted and the error that ended it, if any. */
  datatype Polled = Polled(posts: seq<Post>, job: Job, code: Option<string>)

  /** How many shortest intervals fit in what is left. */
  function Budget(left: real): (r: nat)
    ensures 0.0 < left ==> r as real <= left * 20.0 + 1.0
  {
    if left <= 0.0 then 0 else (left * 20.0).Floor + 1
  }

  /** What is left to the deadline when a turn comes to its request; the turn ends without one if nothing is. */
  function Awake(left: real, interval: real, t: Tick): (r: real)
    requires MIN_INTERVAL <= interval
    ensures 0.0 < r ==> r + interval <= left && Budget(r) < Budget(left)
  {
    var before := left - t.passed;
    if before <= 0.0 then before else before - Min(interval, before) - t.overslept
  }

  function Prefixed(posts: seq<Post>, p: Polled): Polled {
    p.(posts := posts + p.posts)
  }

  /** Polling from its k-th turn; `left` is the time to the deadline. */
  function Poll(wire: Wire, tick: nat -> Tick, k: nat, interval: real, left: real, job: Job): (r: Polled)
    requires MIN_INTERVAL <= interval
    decreases Budget(left)
  {
    var after := Awake(left, interval, tick(k));
    if !Active(job) || after <= 0.0 then Polled([], job, None)
    else
      var answer := tick(k).answer;
      if answer.Failed? then Polled([Post(wire, answer)], job, Some(answer.code))
      else if answer.job.id != job.id then Polled([Post(wire, answer)], job, Some(INVALID))
      else Prefixed([Post(wire, answer)], Poll(wire, tick, k + 1, interval, after, answer.job))
  }

  /** One turn of the polling loop, after requests that were made before. */
  lemma PollTurn(wire: Wire, tick: nat -> Tick, k: nat, interval: real, left: real, job: Job, posts: seq<Post>)
    requires MIN_INTERVAL <= interval && Active(job)
    ensures var t, whole := tick(k), Prefixed(posts, Poll(wire, tick, k, interval, left, job));
      var before := left - t.passed;
      var after := Awake(left, interval, t);
      && after == (if before <= 0.0 then before else before - Min(interval, before) - t.overslept)
      && (0.0 < after ==> Budget(after) < Budget(left))
      && whole == (
        if after <= 0.0 then Polled(posts, job, None)
        else if t.answer.Failed? then Polled(posts + [Post(wire, t.answer)], job, Some(t.answer.code))
        else if t.answer.job.id != job.id then Polled(posts + [Post(wire, t.answer)], job, Some(INVALID))
        else Prefixed(posts + [Post(wire, t.answer)], Poll(wire, tick, k + 1, interval, after, t.answer.job)))
  {
    var t := tick(k);
    var after := Awake(left, interval, t);
    if 0.0 < after && t.answer.Accepted? && t.answer.job.id == job.id {
      var rest := Poll(wire, tick, k + 1, interval, after, t.answer.job);
      assert posts + ([Post(wire, t.answer)] + rest.posts) == (posts + [Post(wire, t.answer)]) + rest.posts;
    }
  }

  /** `_poll_submission` on the cached submission `job`. */
  function PollSubmission(s: State, settings: Settings, tick: nat -> Tick, job: Job): Polled {
    if !Active(job) then Polled([], job, None)
    else if !Usable(settings.interval) || !Usable(settings.timeout) then Polled([], job, Some(INVALID))
    else if s.wire.None? then Polled([], job, Some(INVALID))
    else Poll(s.wire.value, tick, 0, Interval(settings), Wait(settings), job)
  }

  // ---------------------------------------------------------------------------------------------
  // The locked rest of an invocation
  // ---------------------------------------------------------------------------------------------

  function Local(s: State): Settled {
    Settled(s.(local := true), [], RunHere)
  }

  /** A governed refusal before anything was sent: only some, and only under a live fall-back, run here. */
  function Refusal(s: State, code: string, fallback: bool): Settled {
    if fallback && code in LOCAL_CODES then Local(s) else Settled(s, [], Raise(code))
  }

  function Follows(settings: Settings): bool {
    settings.submissionIds && settings.resultPolling
  }

  /** What a job's state means for the caller once polling has ended. */
  function Conclude(s: State, settings: Settings, e: Surroundings, job: Job): Settled {
    var code := SubmissionError(job, e.known);
    if code.Some? then
      if settings.localFallback && IdentityCannotUse(job) then Local(s) else Settled(s, [], Raise(code.value))
    else if e.badOutput.Some? then Settled(s, [], Raise(e.badOutput.value))
    else Settled(s, [], PrintAndExit)
  }

  /** From an accepted submission on: poll where the gateway supports it, then conclude. */
  function Follow(s: State, settings: Settings, e: Surroundings, job: Job): Settled {
    if Follows(settings) then
      var p := PollSubmission(s, settings, e.tick, job);
      var s' := s.(submission := Some(p.job));
      if p.code.Some? then Settled(s', p.posts, Raise(p.code.value))
      else var c := Conclude(s', settings, e, p.job); c.(posts := p.posts)
    else Conclude(s, settings, e, job)
  }

  /** Post `wire`; `expected` is the job an answer has to name, once there is one. */
  function Submit(s: State, settings: Settings, e: Surroundings, wire: Wire, expected: Option<string>): Settled {
    var post := Post(wire, e.first);
    match e.first
    case Failed(code) => Settled(s, [post], Raise(code))
    case Accepted(job) =>
      if expected.Some? && expected.value != job.id then Settled(s, [post], Raise(INVALID))
      else
        var f := Follow(s.(submission := Some(job)), settings, e, job);
        f.(posts := [post] + f.posts)
  }

  /** Package where no wire is kept, and submit. */
  function Begin(s: State, settings: Settings, e: Surroundings, fallback: bool): Settled {
    var kept := if settings.submissionIds then s.wire else None;
    if kept.Some? then Submit(s, settings, e, kept.value, None)
    else
      match e.bundle
      case Refused(code) => Refusal(s, code, fallback)
      case Crashed(code) => Settled(s, [], Raise(code))
      case Packed(wire) =>
        Submit(if settings.submissionIds then s.(wire := Some(wire)) else s, settings, e, wire, None)
  }

  /** Everything after the probe: without the fall-back a delegated context is refused before the lock. */
  function Settle(s: State, settings: Settings, e: Surroundings): Settled {
    var fallback := settings.localFallback && s.submission.None? && s.wire.None?;
    if !settings.localFallback && e.delegated.Some? then Settled(s, [], Raise(e.delegated.value))
    else if s.local then Settled(s, [], RunHere)
    else if fallback && e.serves then Local(s)
    else if settings.localFallback && e.delegated.Some? then Refusal(s, e.delegated.value, fallback)
    else if s.submission.None? then Begin(s, settings, e, fallback)
    else if Follows(settings) then
      if s.wire.None? then Settled(s, [], Raise(INVALID))
      else Submit(s, settings, e, s.wire.value, Some(s.submission.value.id))
    else Follow(s, settings, e, s.submission.value)
  }

  // ---------------------------------------------------------------------------------------------
  // The object
  // ---------------------------------------------------------------------------------------------

  class Engine {
    var local: bool
    var report: bool
    var capability: Capability
    var wire: Option<Wire>
    var submission: Option<Job>

    ghost function View(): State reads this {
      State(local, report, capability, wire, submission)
    }

    constructor ()
      ensures View() == FRESH
    {
      local, report, capability, wire, submission := false, false, Unasked, None, None;
    }

    /** `capabilities`: the first non-empty answer is kept for good. */
    method Capabilities(refresh: bool, answer: ProbeAnswer) returns (code: Option<string>, offer: Capability)
      modifies this
      ensures Probed(View(), code, offer) == Probe(old(View()), refresh, answer)
    {
      code := None;
      if capability.Offered? || (capability.NotOffered? && !refresh) {
        return code, capability;
      }
      if local {
        return code, NotOffered;
      }
      match answer {
        case ProbeFailed(failure) =>
          return Some(failure), NotOffered;
        case NoServerRuns(asked) =>
          report := asked;
          capability := NotOffered;
          if refresh {
            local := true;
          }
        case Offer(settings) =>
          report := false;
          capability := Offered(settings);
      }
      offer := capability;
    }

    /** `_poll_submission`: the loop over the clock. */
    method FollowJob(settings: Settings, tick: nat -> Tick, submitted: Job)
      returns (job: Job, code: Option<string>, ghost posts: seq<Post>)
      requires submission == Some(submitted)
      modifies this`submission
      ensures Polled(posts, job, code) == PollSubmission(old(View()), settings, tick, submitted)
      ensures submission == Some(job)
    {
      job, code, posts := submitted, None, [];
      if !Active(job) {
        return;
      }
      if !Usable(settings.interval) || !Usable(settings.timeout) || wire.None? {
        code := Some(INVALID);
        return;
      }
      var interval := Interval(settings);
      var left := Wait(settings);
      var k: nat := 0;
      hide Poll, Awake;
      ghost var whole := Poll(wire.value, tick, 0, interval, left, job);
      while Active(job)
        invariant submission == Some(job) && wire == old(wire) && wire.Some?
        invariant whole == Prefixed(posts, Poll(wire.value, tick, k, interval, left, job))
        decreases Budget(left)
      {
        var t := tick(k);
        ghost var after := Awake(left, interval, t);
        PollTurn(wire.value, tick, k, interval, left, job, posts);
        left := left - t.passed;
        if left <= 0.0 {
          break;
        }
        left := left - Min(interval, left) - t.overslept;
        assert left == after;
        if left <= 0.0 {
          break;
        }
        posts := posts + [Post(wire.value, t.answer)];
        if t.answer.Failed? {
          code := Some(t.answer.code);
          return;
        }
        if t.answer.job.id != job.id {
          code := Some(INVALID);
          return;
        }
        job := t.answer.job;
        submission := Some(job);
        k := k + 1;
      }
    }

    /** `handoff_if_enabled` after its probe. `posts` is the ghost list of the requests it made, in order. */
    method HandOff(settings: Settings, e: Surroundings) returns (ending: Ending, ghost posts: seq<Post>)
      modifies this
      ensures Settled(View(), posts, ending) == Settle(old(View()), settings, e)
    {
      posts := [];
      if !settings.localFallback && e.delegated.Some? {
        return Raise(e.delegated.value), posts;
      }
      if local {
        return RunHere, posts;
      }
      var submitted := submission;
      var fallback := settings.localFallback;
      if fallback {
        fallback := submitted.None? && wire.None?;
        if fallback && e.serves {
          local := true;
          return RunHere, posts;
        }
        if e.delegated.Some? {
          if fallback && e.delegated.value in LOCAL_CODES {
            local := true;
            return RunHere, posts;
          }
          return Raise(e.delegated.value), posts;
        }
      }
      var job: Job;
      if submitted.None? {
        var bytes := if settings.submissionIds then wire else None;
        if bytes.None? {
          match e.bundle {
            case Refused(code) =>
              if fallback && code in LOCAL_CODES {
                local := true;
                return RunHere, posts;
              }
              return Raise(code), posts;
            case Crashed(code) =>
              return Raise(code), posts;
            case Packed(packed) =>
              bytes := Some(packed);
              if settings.submissionIds {
                wire := bytes;
              }
          }
        }
        posts := [Post(bytes.value, e.first)];
        if e.first.Failed? {
          return Raise(e.first.code), posts;
        }
        job := e.first.job;
        submission := Some(job);
      } else if settings.submissionIds && settings.resultPolling {
        if wire.None? {
          return Raise(INVALID), posts;
        }
        posts := [Post(wire.value, e.first)];
        if e.first.Failed? {
          return Raise(e.first.code), posts;
        }
        job := e.first.job;
        if job.id != submitted.value.id {
          return Raise(INVALID), posts;
        }
        submission := Some(job);
      } else {
        job := submitted.value;
      }
      if settings.submissionIds && settings.resultPolling {
        var code;
        ghost var polls;
        job, code, polls := FollowJob(settings, e.tick, job);
        posts := posts + polls;
        if code.Some? {
          return Raise(code.value), posts;
        }
      }
      var code := SubmissionError(job, e.known);
      if code.Some? {
        if settings.localFallback && IdentityCannotUse(job) {
          local := true;
          return RunHere, posts;
        }
        return Raise(code.value), posts;
      }
      if e.badOutput.Some? {
        return Raise(e.badOutput.value), posts;
      }
      ending := PrintAndExit;
    }
  }
}
