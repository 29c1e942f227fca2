// What every interleaving of the hand-over invocations of one engine keeps
// (src/deepintshield/agentic/managed_execution.py). `HandoffProcess` puts the engines of a process
// and the server together.

module HandoffProtocol {
  import opened Common
  import opened Handoff

  // ---------------------------------------------------------------------------------------------
  // Polling
  // ---------------------------------------------------------------------------------------------

  /** The length of n intervals, added up one by one. */
  ghost function Intervals(n: nat, interval: real): real {
    if n == 0 then 0.0 else interval + Intervals(n - 1, interval)
  }

  lemma {:induction false} IntervalsIsProduct(n: nat, interval: real)
    ensures Intervals(n, interval) == n as real * interval
  {
    if n != 0 {
      IntervalsIsProduct(n - 1, interval);
    }
  }

  /** n requests of a polling loop take longer than n intervals, and all fall before the deadline. */
  lemma {:induction false} PollPacing(wire: Wire, tick: nat -> Tick, k: nat, interval: real, left: real, job: Job)
    requires MIN_INTERVAL <= interval
    ensures var n := |Poll(wire, tick, k, interval, left, job).posts|;
      n != 0 ==> Intervals(n, interval) < left && n < Budget(left)
    decreases Budget(left)
  {
    var after := Awake(left, interval, tick(k));
    var answer := tick(k).answer;
    if Active(job) && 0.0 < after && answer.Accepted? && answer.job.id == job.id {
      PollPacing(wire, tick, k + 1, interval, after, answer.job);
    }
  }

  lemma LongestWait(settings: Settings)
    ensures Budget(Wait(settings)) <= 1201
  {
  }

  /** One polling call makes fewer requests than its wait has intervals, and never more than 1200. */
  lemma PollingIsBounded(s: State, settings: Settings, tick: nat -> Tick, job: Job)
    ensures var n := |PollSubmission(s, settings, tick, job).posts|;
      n != 0 ==> Intervals(n, Interval(settings)) < Wait(settings) && n <= 1200
  {
    var n := |PollSubmission(s, settings, tick, job).posts|;
    if n != 0 {
      PollPacing(s.wire.value, tick, 0, Interval(settings), Wait(settings), job);
      LongestWait(settings);
    }
  }

  ghost predicate Carries(posts: seq<Post>, wire: Option<Wire>) {
    forall p <- posts :: wire == Some(p.wire)
  }

  /** A poll sends the kept bytes only, and what it returns is the first job or the last one accepted. */
  lemma {:induction false} PollPosts(wire: Wire, tick: nat -> Tick, k: nat, interval: real, left: real, job: Job)
    requires MIN_INTERVAL <= interval
    ensures var p := Poll(wire, tick, k, interval, left, job);
      && Carries(p.posts, Some(wire))
      && p.job.id == job.id
      && (p.job == job || Post(wire, Accepted(p.job)) in p.posts)
    decreases Budget(left)
  {
    var after := Awake(left, interval, tick(k));
    var answer := tick(k).answer;
    if Active(job) && 0.0 < after && answer.Accepted? && answer.job.id == job.id {
      PollPosts(wire, tick, k + 1, interval, after, answer.job);
    }
  }

  // ---------------------------------------------------------------------------------------------
  // One locked invocation
  // ---------------------------------------------------------------------------------------------

  /** The kept submission was accepted by an earlier answer, and so its bytes were kept too. */
  predicate Coherent(s: State) {
    s.submission.Some? ==> s.wire.Some?
  }

  /** The job an invocation ends on comes from the cache or from one of its own answers. */
  predicate Witnessed(s: State, posts: seq<Post>, wire: Option<Wire>, job: Job) {
    wire.Some? && (s.submission == Some(job) || Post(wire.value, Accepted(job)) in posts)
  }

  lemma PollSubmissionFacts(s: State, settings: Settings, tick: nat -> Tick, job: Job)
    requires s.wire.Some?
    ensures var p := PollSubmission(s, settings, tick, job);
      && Carries(p.posts, s.wire)
      && p.job.id == job.id
      && (p.job == job || Post(s.wire.value, Accepted(p.job)) in p.posts)
  {
    if Active(job) && Usable(settings.interval) && Usable(settings.timeout) {
      PollPosts(s.wire.value, tick, 0, Interval(settings), Wait(settings), job);
    }
  }

  lemma ConcludeFacts(s: State, settings: Settings, e: Surroundings, job: Job)
    requires !s.local
    ensures var r := Conclude(s, settings, e, job);
      && r.posts == [] && r.state.(local := false) == s
      && (r.ending.RunHere? <==> r.state.local)
      && (r.state.local ==> settings.localFallback && IdentityCannotUse(job))
      && (r.ending.PrintAndExit? ==> job.status.Succeeded?)
  {
  }

  lemma FollowFacts(s: State, settings: Settings, e: Surroundings, job: Job)
    requires !s.local && s.wire.Some? && s.submission == Some(job)
    ensures var r := Follow(s, settings, e, job);
      && r.state.wire == s.wire && Carries(r.posts, s.wire)
      && r.state.capability == s.capability
      && r.state.submission.Some? && r.state.submission.value.id == job.id
      && Witnessed(s, r.posts, s.wire, r.state.submission.value)
      && (r.ending.RunHere? <==> r.state.local)
      && (r.state.local ==> settings.localFallback && IdentityCannotUse(r.state.submission.value))
      && (r.ending.PrintAndExit? ==> r.state.submission.value.status.Succeeded?)
  {
    hide PollSubmission, Conclude, IdentityCannotUse;
    PollSubmissionFacts(s, settings, e.tick, job);
    var p := PollSubmission(s, settings, e.tick, job);
    ConcludeFacts(s, settings, e, job);
    ConcludeFacts(s.(submission := Some(p.job)), settings, e, p.job);
  }

  lemma SubmitFacts(s: State, settings: Settings, e: Surroundings, wire: Wire, expected: Option<string>)
    requires !s.local && s.wire == Some(wire)
    requires s.submission.Some? ==> expected == Some(s.submission.value.id)
    ensures var r := Submit(s, settings, e, wire, expected);
      && r.state.wire == s.wire && Carries(r.posts, s.wire) && r.posts != []
      && r.state.capability == s.capability
      && (s.submission.Some? ==> r.state.submission.Some? && r.state.submission.value.id == s.submission.value.id)
      && (r.state.submission.Some? ==> Witnessed(s, r.posts, s.wire, r.state.submission.value))
      && (r.ending.RunHere? <==> r.state.local)
      && (r.state.local ==>
        settings.localFallback && r.state.submission.Some? && IdentityCannotUse(r.state.submission.value))
      && (r.ending.PrintAndExit? ==>
        r.state.submission.Some? && r.state.submission.value.status.Succeeded?)
  {
    if e.first.Accepted? && (expected.None? || expected.value == e.first.job.id) {
      FollowFacts(s.(submission := Some(e.first.job)), settings, e, e.first.job);
      assert Submit(s, settings, e, wire, expected).posts[0] == Post(wire, e.first);
    }
  }

  /** What one locked region guarantees, from any coherent state, whatever it meets. */
  lemma SettleFacts(s: State, settings: Settings, e: Surroundings)
    requires settings.submissionIds && Coherent(s)
    ensures var r := Settle(s, settings, e);
      && Coherent(r.state)
      && r.state.capability == s.capability
      // the choice to run here is remembered, kept, and ends all submission
      && (r.ending.RunHere? <==> r.state.local && (settings.localFallback || e.delegated.None?))
      && (s.local ==> r.state == s && r.posts == [])
      // one wire for the whole process
      && (s.wire.Some? ==> r.state.wire == s.wire)
      && Carries(r.posts, r.state.wire)
      && (r.state.wire.Some? ==> s.wire.Some? || r.posts != [])
      // one job, always one the gateway named in an answer
      && (s.submission.Some? ==> r.state.submission.Some? && r.state.submission.value.id == s.submission.value.id)
      && (r.state.submission.Some? ==> Witnessed(s, r.posts, r.state.wire, r.state.submission.value))
      // coming back after something was sent takes a run the server ended for its identity
      && (r.state.local && !s.local && r.state.wire.Some? ==>
        settings.localFallback && r.state.submission.Some? && IdentityCannotUse(r.state.submission.value))
      && (r.ending.PrintAndExit? ==>
        r.state.submission.Some? && r.state.submission.value.status.Succeeded?)
  {
    var fallback := settings.localFallback && s.submission.None? && s.wire.None?;
    if s.local || (fallback && e.serves) || e.delegated.Some? {
    } else if s.submission.None? {
      if s.wire.Some? {
        SubmitFacts(s, settings, e, s.wire.value, None);
      } else if e.bundle.Packed? {
        SubmitFacts(s.(wire := Some(e.bundle.wire)), settings, e, e.bundle.wire, None);
      }
    } else if Follows(settings) {
      SubmitFacts(s, settings, e, s.wire.value, Some(s.submission.value.id));
    } else {
      FollowFacts(s, settings, e, s.submission.value);
    }
  }

  // ---------------------------------------------------------------------------------------------
  // One engine: its invocations interleave at the lock
  // ---------------------------------------------------------------------------------------------

  /** What can be seen from outside, in order. */
  datatype Mark = Posted(post: Post) | RanHere | Printed

  /** `held`: the invocations between their probe and the lock, with the settings they were given. */
  datatype Client = Client(engine: State, held: map<nat, Settings>)

  /** An engine with what its own invocations showed so far. */
  datatype Session = Session(client: Client, log: seq<Mark>)

  /**
   * Compile: a compile-time probe. Skip: an invocation that reads the local flag set, without the lock.
   * Bypass: an invocation made while security is off, which never asks.
   * Execute: an invocation that asks, up to and including its probe.
   * Finish: the rest of an invocation.
   */
  datatype Move =
    | Compile(answer: ProbeAnswer)
    | Skip
    | Bypass
    | Execute(id: nat, answer: ProbeAnswer)
    | Finish(id: nat, e: Surroundings)

  function Marks(posts: seq<Post>): (r: seq<Mark>)
    ensures |r| == |posts|
    ensures forall i | 0 <= i < |r| :: r[i] == Posted(posts[i])
  {
    seq(|posts|, i requires 0 <= i < |posts| => Posted(posts[i]))
  }

  function EndMark(ending: Ending): seq<Mark> {
    match ending
    case RunHere => [RanHere]
    case Raise(_) => []
    case PrintAndExit => [Printed]
  }

  /** The answer of the probe a move makes, if it makes one. */
  function Answered(m: Move): Option<ProbeAnswer> {
    if m.Compile? || m.Execute? then Some(m.answer) else None
  }

  predicate Enabled(c: Client, m: Move) {
    match m
    case Compile(_) => true
    case Skip => c.engine.local
    case Bypass => true
    case Execute(id, _) => id !in c.held
    case Finish(id, _) => id in c.held
  }

  /** A client after one move, and what the move showed. */
  datatype Taken = Taken(client: Client, marks: seq<Mark>)

  /** `asks`: not itself the server's worker, and the engine names a gateway. */
  function Take(asks: bool, c: Client, m: Move): Taken
    requires Enabled(c, m)
  {
    match m
    case Compile(answer) =>
      Taken(if asks then c.(engine := Probe(c.engine, false, answer).state) else c, [])
    case Skip => Taken(c, [RanHere])
    case Bypass => Taken(c, [RanHere])
    case Execute(id, answer) =>
      if !asks then Taken(c, [RanHere])
      else
        var r := Probe(c.engine, true, answer);
        if r.code.Some? then Taken(c.(engine := r.state), [])
        else if r.capability.Offered? then Taken(Client(r.state, c.held[id := r.capability.settings]), [])
        else Taken(c.(engine := r.state), [RanHere])
    case Finish(id, e) =>
      var r := Settle(c.engine, c.held[id], e);
      Taken(Client(r.state, c.held - {id}), Marks(r.posts) + EndMark(r.ending))
  }

  function Advance(asks: bool, p: Session, m: Move): Session
    requires Enabled(p.client, m)
  {
    var t := Take(asks, p.client, m);
    Session(t.client, p.log + t.marks)
  }

  const NEW := Client(FRESH, map[])

  // ---------------------------------------------------------------------------------------------
  // The invariant
  // ---------------------------------------------------------------------------------------------

  /** Where a lost answer leaves a trace, or where nothing ever comes back. */
  predicate Guarded(settings: Settings) {
    settings.submissionIds || !settings.localFallback
  }

  predicate HasPost(log: seq<Mark>) {
    exists m <- log :: m.Posted?
  }

  /** Some answer said that the server ended this run for its identity, before its program. */
  predicate Refused(log: seq<Mark>) {
    exists m <- log :: m.Posted? && m.post.answer.Accepted? && IdentityCannotUse(m.post.answer.job)
  }

  predicate Completed(log: seq<Mark>) {
    exists m <- log :: m.Posted? && m.post.answer.Accepted? && m.post.answer.job.status.Succeeded?
  }

  /** Nothing is sent once the program has run here. */
  predicate Exclusive(log: seq<Mark>) {
    forall i, j | 0 <= i < j < |log| :: log[i].RanHere? ==> !log[j].Posted?
  }

  /** The one non-empty answer is kept, and every invocation past its probe holds it. */
  predicate Agreed(p: Session) {
    var s := p.client.engine;
    && (s.capability.Offered? ==> Guarded(s.capability.settings))
    && (forall id <- p.client.held :: s.capability == Offered(p.client.held[id]))
    && (HasPost(p.log) || s.wire.Some? || s.submission.Some? ==> s.capability.Offered?)
  }

  predicate WithIds(s: State) {
    s.capability.Offered? && s.capability.settings.submissionIds
  }

  /** With submission ids: one wire for every request, and a kept job was named by an answer to it. */
  predicate Kept(p: Session) {
    var s := p.client.engine;
    WithIds(s) ==>
      && Coherent(s)
      && (forall m <- p.log :: m.Posted? ==> s.wire == Some(m.post.wire))
      && (s.submission.Some? ==> Posted(Post(s.wire.value, Accepted(s.submission.value))) in p.log)
      && (Printed in p.log ==> Completed(p.log))
  }

  predicate Decided(asks: bool, p: Session) {
    var s := p.client.engine;
    && Exclusive(p.log)
    && (asks && RanHere in p.log ==> s.local)
    && (!asks ==> !HasPost(p.log) && Printed !in p.log && p.client.held == map[])
    && (Printed in p.log ==> s.capability.Offered?)
    && (s.local && s.capability.Offered? ==>
      && WithIds(s) && s.capability.settings.localFallback
      && (s.wire.Some? ==> Refused(p.log)))
  }

  predicate Inv(asks: bool, p: Session) {
    Agreed(p) && Kept(p) && Decided(asks, p)
  }

  /** A log that an invocation extends by its requests and its ending. */
  lemma LogGrows(log: seq<Mark>, posts: seq<Post>, ending: Ending)
    ensures var log' := log + Marks(posts) + EndMark(ending);
      && (forall m <- log' :: m in log || (m.Posted? && m.post in posts) || m in EndMark(ending))
      && (forall m <- log :: m in log')
      && (forall post <- posts :: Posted(post) in log')
      && (Refused(log) ==> Refused(log'))
      && (Completed(log) ==> Completed(log'))
      && (Exclusive(log) && (RanHere in log ==> posts == []) ==> Exclusive(log'))
  {
  }

  lemma FinishWithIds(asks: bool, p: Session, id: nat, e: Surroundings)
    requires Inv(asks, p) && id in p.client.held && WithIds(p.client.engine)
    ensures Inv(asks, Advance(asks, p, Finish(id, e)))
  {
    var s := p.client.engine;
    var r := Settle(s, p.client.held[id], e);
    var q := Advance(asks, p, Finish(id, e));
    SettleFacts(s, p.client.held[id], e);
    LogGrows(p.log, r.posts, r.ending);
    assert q.log == p.log + Marks(r.posts) + EndMark(r.ending);
    assert r.state.wire.Some? && s.submission == r.state.submission && s.submission.Some? ==>
      Posted(Post(r.state.wire.value, Accepted(r.state.submission.value))) in q.log;
    assert Agreed(q);
    assert Kept(q);
  }

  lemma FinishWithoutFallback(asks: bool, p: Session, id: nat, e: Surroundings)
    requires Inv(asks, p) && id in p.client.held
    requires !p.client.held[id].localFallback && !WithIds(p.client.engine)
    ensures Inv(asks, Advance(asks, p, Finish(id, e)))
  {
  }

  /** Of an engine that asks: security is on at every invocation, and every offer is guarded. */
  predicate Careful(asks: bool, m: Move) {
    asks ==>
      && !m.Bypass?
      && (Answered(m).Some? && Answered(m).value.Offer? ==> Guarded(Answered(m).value.settings))
  }

  lemma ProbeKeeps(asks: bool, p: Session, m: Move)
    requires Inv(asks, p) && Enabled(p.client, m) && Careful(asks, m) && !m.Finish?
    ensures Inv(asks, Advance(asks, p, m))
  {
    hide Settle, IdentityCannotUse;
    var q := Advance(asks, p, m);
    assert forall x <- p.log :: x in q.log;
    assert forall x <- q.log :: x in p.log || x == RanHere;
  }

  lemma AdvanceKeeps(asks: bool, p: Session, m: Move)
    requires Inv(asks, p) && Enabled(p.client, m) && Careful(asks, m)
    ensures Inv(asks, Advance(asks, p, m))
  {
    if !m.Finish? {
      ProbeKeeps(asks, p, m);
    } else if WithIds(p.client.engine) {
      FinishWithIds(asks, p, m.id, m.e);
    } else {
      assert Agreed(p);
      FinishWithoutFallback(asks, p, m.id, m.e);
    }
  }

  // ---------------------------------------------------------------------------------------------
  // What a log of a guarded run looks like
  // ---------------------------------------------------------------------------------------------

  /** A return after a request was sent follows an answer that ended the run for its identity. */
  predicate ReturnsOnlyRefused(log: seq<Mark>) {
    forall i, j | 0 <= i < j < |log| && log[i].Posted? && log[j].RanHere? :: Refused(log[..j])
  }

  predicate OneWire(log: seq<Mark>) {
    forall m, n | m in log && n in log && m.Posted? && n.Posted? :: m.post.wire == n.post.wire
  }

  lemma LogOfASession(asks: bool, p: Session)
    requires Inv(asks, p) && (p.client.engine.capability.Offered? ==> WithIds(p.client.engine))
    ensures Exclusive(p.log) && OneWire(p.log) && ReturnsOnlyRefused(p.log)
  {
  }

  lemma CapabilityKept(s: State, settings: Settings, e: Surroundings)
    ensures Settle(s, settings, e).state.capability == s.capability
  {
    hide PollSubmission, SubmissionError, IdentityCannotUse, Interval, Wait;
  }

  // ---------------------------------------------------------------------------------------------
  // Single moves: nothing is forgotten
  // ---------------------------------------------------------------------------------------------

  /** The local choice, the offer and (with submission ids) the wire and the job's id never change again. */
  lemma NothingForgotten(asks: bool, p: Session, m: Move)
    requires Inv(asks, p) && Enabled(p.client, m)
    ensures var s, q := p.client.engine, Advance(asks, p, m).client.engine;
      && (s.local ==> q.local)
      && (s.capability.Offered? ==> q.capability == s.capability)
      && (WithIds(s) && s.wire.Some? ==> q.wire == s.wire)
      && (WithIds(s) && s.submission.Some? ==> q.submission.Some? && q.submission.value.id == s.submission.value.id)
  {
    if m.Finish? {
      CapabilityKept(p.client.engine, p.client.held[m.id], m.e);
      if WithIds(p.client.engine) {
        SettleFacts(p.client.engine, p.client.held[m.id], m.e);
      }
    }
  }
}
