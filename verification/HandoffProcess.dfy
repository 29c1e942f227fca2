// All engines of one process and the server. What an engine remembers is its own, while what is
// handed over is the one script of the process (src/deepintshield/agentic/managed_execution.py).

module HandoffProcess {
  import opened Common
  import opened Handoff
  import opened HandoffProtocol

  // ---------------------------------------------------------------------------------------------
  // The process
  // ---------------------------------------------------------------------------------------------

  /**
   * What the invocations of one engine can meet. `asks`: it names a gateway, and is not on the server
   * itself. `secured`: security is on at each of them. `declines`: a probe may be told that there are
   * no server runs. `offers`: the offers a probe may get.
   */
  datatype Terms = Terms(asks: bool, secured: bool, declines: bool, offers: iset<Settings>)

  datatype Entry = Entry(engine: nat, mark: Mark)

  datatype Process = Process(clients: map<nat, Client>, log: seq<Entry>)

  /** What one engine showed, in order. */
  function Of(log: seq<Entry>, g: nat): seq<Mark> {
    if log == [] then []
    else
      var last := log[|log| - 1];
      Of(log[..|log| - 1], g) + if last.engine == g then [last.mark] else []
  }

  function Tagged(g: nat, marks: seq<Mark>): (r: seq<Entry>)
    ensures |r| == |marks|
    ensures forall i | 0 <= i < |r| :: r[i] == Entry(g, marks[i])
  {
    seq(|marks|, i requires 0 <= i < |marks| => Entry(g, marks[i]))
  }

  function SessionOf(p: Process, g: nat): Session
    requires g in p.clients
  {
    Session(p.clients[g], Of(p.log, g))
  }

  /** A move of one engine. */
  datatype Act = Act(engine: nat, move: Move)

  predicate Possible(terms: map<nat, Terms>, p: Process, a: Act) {
    && a.engine in terms && a.engine in p.clients
    && Enabled(p.clients[a.engine], a.move)
  }

  function Perform(terms: map<nat, Terms>, p: Process, a: Act): Process
    requires Possible(terms, p, a)
  {
    var t := Take(terms[a.engine].asks, p.clients[a.engine], a.move);
    Process(p.clients[a.engine := t.client], p.log + Tagged(a.engine, t.marks))
  }

  lemma {:induction false} OfMember(log: seq<Entry>, g: nat, m: Mark)
    ensures m in Of(log, g) <==> Entry(g, m) in log
  {
    if log != [] {
      OfMember(log[..|log| - 1], g, m);
      assert log == log[..|log| - 1] + [log[|log| - 1]];
    }
  }

  lemma {:induction false} OfTagged(log: seq<Entry>, g: nat, marks: seq<Mark>, h: nat)
    ensures Of(log + Tagged(g, marks), h) == Of(log, h) + if g == h then marks else []
    decreases |marks|
  {
    var all := log + Tagged(g, marks);
    if marks == [] {
      assert all == log;
    } else {
      var most := marks[..|marks| - 1];
      OfTagged(log, g, most, h);
      assert all[..|all| - 1] == log + Tagged(g, most);
      assert marks == most + [marks[|marks| - 1]];
    }
  }

  /** Two marks of one engine stand in its own log as they stand in the log of the process. */
  lemma {:induction false} OfOrder(log: seq<Entry>, g: nat, i: nat, j: nat) returns (a: nat, b: nat)
    requires i < j < |log| && log[i].engine == g && log[j].engine == g
    ensures a < b < |Of(log, g)| && Of(log, g)[a] == log[i].mark && Of(log, g)[b] == log[j].mark
  {
    var most := log[..|log| - 1];
    if j < |most| {
      a, b := OfOrder(most, g, i, j);
    } else {
      b := |Of(most, g)|;
      OfMember(most, g, log[i].mark);
      assert most[i] == Entry(g, log[i].mark);
      a :| 0 <= a < b && Of(most, g)[a] == log[i].mark;
    }
  }

  /** A move changes what its own engine remembers and showed, and nothing of another engine. */
  lemma PerformIsLocal(terms: map<nat, Terms>, p: Process, a: Act, h: nat)
    requires Possible(terms, p, a) && h in p.clients
    ensures SessionOf(Perform(terms, p, a), h)
         == if h == a.engine then Advance(terms[h].asks, SessionOf(p, h), a.move) else SessionOf(p, h)
  {
    OfTagged(p.log, a.engine, Take(terms[a.engine].asks, p.clients[a.engine], a.move).marks, h);
  }

  // ---------------------------------------------------------------------------------------------
  // Process and server together
  // ---------------------------------------------------------------------------------------------

  /** What the server has done with a submission it received. */
  datatype Fate = Waiting | Started | EndedBefore

  /** A request can arrive at any time after it was sent, also one whose answer was lost. */
  datatype World = World(process: Process, server: map<Wire, Fate>)

  /** One move, or none, while the server goes from one table to the next. */
  datatype Turn = Turn(act: Option<Act>, server: map<Wire, Fate>)

  predicate Sends(e: Entry, wire: Wire) {
    e.mark.Posted? && e.mark.post.wire == wire
  }

  /** The server knows what was sent. */
  predicate Received(server: map<Wire, Fate>, log: seq<Entry>) {
    forall w <- server :: exists e <- log :: Sends(e, w)
  }

  /** A program that started has started for good; a run ended before its program never starts. */
  predicate Evolves(before: map<Wire, Fate>, after: map<Wire, Fate>) {
    forall w <- before :: w in after && (before[w].Waiting? || after[w] == before[w])
  }

  /** The gateway's word on a run: ended for its identity means not started, succeeded means started. */
  predicate Truth(m: Mark, server: map<Wire, Fate>) {
    m.Posted? && m.post.answer.Accepted? ==>
      var w, job := m.post.wire, m.post.answer.job;
      && (IdentityCannotUse(job) ==> w in server && server[w] == EndedBefore)
      && (job.status.Succeeded? ==> w in server && server[w] == Started)
  }

  predicate Truthful(log: seq<Entry>, server: map<Wire, Fate>) {
    forall e <- log :: Truth(e.mark, server)
  }

  /** The terms of an engine allow what a move meets. */
  ghost predicate Permits(t: Terms, m: Move) {
    && (m.Bypass? ==> !t.secured)
    && (Answered(m).Some? && t.asks ==>
      match Answered(m).value
      case ProbeFailed(_) => true
      case NoServerRuns(_) => t.declines
      case Offer(settings) => settings in t.offers)
  }

  function Next(terms: map<nat, Terms>, w: World, t: Turn): World
    requires t.act.Some? ==> Possible(terms, w.process, t.act.value)
  {
    World(if t.act.Some? then Perform(terms, w.process, t.act.value) else w.process, t.server)
  }

  ghost predicate Allowed(terms: map<nat, Terms>, w: World, t: Turn) {
    && (t.act.Some? ==>
      Possible(terms, w.process, t.act.value) && Permits(terms[t.act.value.engine], t.act.value.move))
    && var w' := Next(terms, w, t);
      && Evolves(w.server, w'.server)
      && Received(w'.server, w'.process.log)
      && Truthful(w'.process.log, w'.server)
  }

  ghost predicate Legal(terms: map<nat, Terms>, w: World, turns: seq<Turn>)
    decreases |turns|
  {
    turns == [] || (Allowed(terms, w, turns[0]) && Legal(terms, Next(terms, w, turns[0]), turns[1..]))
  }

  ghost function Run(terms: map<nat, Terms>, w: World, turns: seq<Turn>): World
    requires Legal(terms, w, turns)
    decreases |turns|
  {
    if turns == [] then w else Run(terms, Next(terms, w, turns[0]), turns[1..])
  }

  /** A process whose engines have done nothing yet. */
  ghost function Origin(terms: map<nat, Terms>): World {
    World(Process(map g | g in terms :: NEW, []), map[])
  }

  /** A mark of a request whose program the server started. */
  predicate Starts(m: Mark, server: map<Wire, Fate>) {
    m.Posted? && m.post.wire in server && server[m.post.wire] == Started
  }

  /** The server started what an engine sent, or printed what its program gave. */
  predicate StartedBy(w: World, g: nat) {
    exists e <- w.process.log :: e.engine == g && (e.mark.Printed? || Starts(e.mark, w.server))
  }

  /** An invocation of one engine let the script run here, and one of another started it on the server. */
  predicate BothSides(w: World, g: nat, h: nat) {
    Entry(g, RanHere) in w.process.log && StartedBy(w, h)
  }

  /** The script ran here and started on the server, or its output was printed as well. */
  predicate RanTwice(w: World) {
    && (exists e <- w.process.log :: e.mark == RanHere)
    && ((exists x <- w.server :: w.server[x] == Started) || exists e <- w.process.log :: e.mark == Printed)
  }

  // ---------------------------------------------------------------------------------------------
  // What holds of each engine
  // ---------------------------------------------------------------------------------------------

  ghost predicate Serves(t: Terms) {
    t.asks && exists s :: s in t.offers
  }

  ghost predicate FallsBack(t: Terms) {
    exists s :: s in t.offers && s.localFallback
  }

  ghost predicate RunsHere(t: Terms) {
    !t.asks || !t.secured || t.declines || FallsBack(t)
  }

  /** Security stays on, and a lost answer leaves a trace or nothing ever comes back. */
  ghost predicate Prudent(t: Terms) {
    t.asks ==> t.secured && forall s <- t.offers :: Guarded(s)
  }

  /** What an engine remembers and showed is something that its terms allow. */
  ghost predicate Fits(t: Terms, p: Session) {
    && (forall id <- p.client.held :: t.asks && p.client.held[id] in t.offers)
    && (p.client.engine.capability.Offered? ==> t.asks && p.client.engine.capability.settings in t.offers)
    && (p.client.engine.local ==> RunsHere(t))
    && (RanHere in p.log ==> RunsHere(t))
    && (HasPost(p.log) || Printed in p.log ==> Serves(t))
  }

  lemma SettleFits(s: State, settings: Settings, e: Surroundings)
    ensures var r := Settle(s, settings, e);
      r.state.local || r.ending.RunHere? ==> s.local || settings.localFallback
  {
    hide PollSubmission, SubmissionError, IdentityCannotUse, Interval, Wait;
  }

  lemma FitsKept(t: Terms, p: Session, m: Move)
    requires Fits(t, p) && Enabled(p.client, m) && Permits(t, m)
    ensures Fits(t, Advance(t.asks, p, m))
  {
    var q := Advance(t.asks, p, m);
    if m.Finish? {
      var settings := p.client.held[m.id];
      SettleFits(p.client.engine, settings, m.e);
      CapabilityKept(p.client.engine, settings, m.e);
      hide Settle;
      assert settings in t.offers;
    } else {
      var more := Take(t.asks, p.client, m).marks;
      assert more == [] || more == [RanHere];
      assert forall x <- q.log :: x in p.log || x == RanHere;
    }
  }

  lemma TruthOf(w: World, g: nat)
    requires Truthful(w.process.log, w.server)
    ensures forall m <- Of(w.process.log, g) :: Truth(m, w.server)
  {
    forall m <- Of(w.process.log, g)
      ensures Truth(m, w.server)
    {
      OfMember(w.process.log, g, m);
      assert Entry(g, m).mark == m;
    }
  }

  /** A guarded engine never runs the script on both sides by itself. */
  lemma SessionIsSafe(asks: bool, p: Session, server: map<Wire, Fate>)
    requires Inv(asks, p) && RanHere in p.log
    requires forall m <- p.log :: Truth(m, server)
    ensures forall m <- p.log :: !m.Printed? && !Starts(m, server)
  {
  }

  ghost predicate SoundEngine(t: Terms, p: Session) {
    Fits(t, p) && (Prudent(t) ==> Inv(t.asks, p))
  }

  ghost predicate Sound(terms: map<nat, Terms>, w: World) {
    && w.process.clients.Keys == terms.Keys
    && (forall g <- terms :: SoundEngine(terms[g], SessionOf(w.process, g)))
    && Received(w.server, w.process.log)
    && Truthful(w.process.log, w.server)
  }

  lemma SoundKept(t: Terms, p: Session, m: Move)
    requires SoundEngine(t, p) && Enabled(p.client, m) && Permits(t, m)
    ensures SoundEngine(t, Advance(t.asks, p, m))
  {
    FitsKept(t, p, m);
    if Prudent(t) {
      AdvanceKeeps(t.asks, p, m);
    }
  }

  /** Every turn of the process and the server keeps what holds of each engine. */
  lemma NextKeeps(terms: map<nat, Terms>, w: World, t: Turn)
    requires Sound(terms, w) && Allowed(terms, w, t)
    ensures Sound(terms, Next(terms, w, t))
  {
    var w' := Next(terms, w, t);
    if t.act.Some? {
      forall g <- terms
        ensures SoundEngine(terms[g], SessionOf(w'.process, g))
      {
        assert SessionOf(w.process, g).client == w.process.clients[g];
        hide SoundEngine, Advance, SessionOf;
        PerformIsLocal(terms, w.process, t.act.value, g);
        if g == t.act.value.engine {
          SoundKept(terms[g], SessionOf(w.process, g), t.act.value.move);
        }
      }
    }
  }

  lemma {:induction false} RunKeeps(terms: map<nat, Terms>, w: World, turns: seq<Turn>)
    requires Sound(terms, w) && Legal(terms, w, turns)
    ensures Sound(terms, Run(terms, w, turns))
    decreases |turns|
  {
    if turns != [] {
      NextKeeps(terms, w, turns[0]);
      RunKeeps(terms, Next(terms, w, turns[0]), turns[1..]);
    }
  }

  lemma RunIsSound(terms: map<nat, Terms>, turns: seq<Turn>)
    requires Legal(terms, Origin(terms), turns)
    ensures Sound(terms, Run(terms, Origin(terms), turns))
  {
    assert Sound(terms, Origin(terms));
    RunKeeps(terms, Origin(terms), turns);
  }

  // ---------------------------------------------------------------------------------------------
  // One engine among others
  // ---------------------------------------------------------------------------------------------

  /** What the engine ran here it never started on the server, whatever the other engines do. */
  lemma NeverOnBothSides(terms: map<nat, Terms>, turns: seq<Turn>, g: nat)
    requires Legal(terms, Origin(terms), turns)
    requires g in terms && Prudent(terms[g])
    ensures !BothSides(Run(terms, Origin(terms), turns), g, g)
  {
    RunIsSound(terms, turns);
    var w := Run(terms, Origin(terms), turns);
    OfMember(w.process.log, g, RanHere);
    if Entry(g, RanHere) in w.process.log {
      assert SoundEngine(terms[g], SessionOf(w.process, g));
      TruthOf(w, g);
      SessionIsSafe(terms[g].asks, SessionOf(w.process, g), w.server);
      forall e <- w.process.log | e.engine == g
        ensures !e.mark.Printed? && !Starts(e.mark, w.server)
      {
        OfMember(w.process.log, g, e.mark);
      }
    }
  }

  /** The log of an engine that only ever gets offers with submission ids. */
  lemma LogOfARun(terms: map<nat, Terms>, turns: seq<Turn>, g: nat)
    requires Legal(terms, Origin(terms), turns)
    requires g in terms && terms[g].secured
    requires forall s <- terms[g].offers :: s.submissionIds
    ensures var log := Of(Run(terms, Origin(terms), turns).process.log, g);
      Exclusive(log) && OneWire(log) && ReturnsOnlyRefused(log)
  {
    RunIsSound(terms, turns);
    var w := Run(terms, Origin(terms), turns);
    assert SoundEngine(terms[g], SessionOf(w.process, g));
    LogOfASession(terms[g].asks, SessionOf(w.process, g));
  }

  // ---------------------------------------------------------------------------------------------
  // The exact condition on a process
  // ---------------------------------------------------------------------------------------------

  /** No run under these terms runs the script on both sides. */
  ghost predicate SafeUnder(terms: map<nat, Terms>) {
    forall turns | Legal(terms, Origin(terms), turns) :: !RanTwice(Run(terms, Origin(terms), turns))
  }

  /** An engine that may be offered server runs is prudent, and no other may let the script run here. */
  ghost predicate Apart(terms: map<nat, Terms>) {
    forall h <- terms | Serves(terms[h]) ::
      Prudent(terms[h]) && forall g <- terms | g != h :: !RunsHere(terms[g])
  }

  lemma WhoStarted(w: World)
    requires Received(w.server, w.process.log) && RanTwice(w)
    ensures exists g, h :: BothSides(w, g, h)
  {
    var here :| here in w.process.log && here.mark == RanHere;
    assert Entry(here.engine, RanHere) == here;
    if x :| x in w.server && w.server[x] == Started {
      var e :| e in w.process.log && Sends(e, x);
      assert Starts(e.mark, w.server);
      assert BothSides(w, here.engine, e.engine);
    } else {
      var e :| e in w.process.log && e.mark == Printed;
      assert BothSides(w, here.engine, e.engine);
    }
  }

  /** An engine that let the script run here may do so, and one that had it started may. */
  lemma BothFit(terms: map<nat, Terms>, w: World, g: nat, h: nat)
    requires Sound(terms, w) && BothSides(w, g, h) && g in terms && h in terms
    ensures RunsHere(terms[g]) && Serves(terms[h])
  {
    OfMember(w.process.log, g, RanHere);
    assert SoundEngine(terms[g], SessionOf(w.process, g));
    var e :| e in w.process.log && e.engine == h && (e.mark.Printed? || Starts(e.mark, w.server));
    OfMember(w.process.log, h, e.mark);
    assert SoundEngine(terms[h], SessionOf(w.process, h));
  }

  /** Only engines of the process leave marks. */
  ghost predicate Known(terms: map<nat, Terms>, log: seq<Entry>) {
    forall e <- log :: e.engine in terms
  }

  lemma {:induction false} RunIsKnown(terms: map<nat, Terms>, w: World, turns: seq<Turn>)
    requires Legal(terms, w, turns) && Known(terms, w.process.log)
    ensures Known(terms, Run(terms, w, turns).process.log)
    decreases |turns|
  {
    if turns != [] {
      RunIsKnown(terms, Next(terms, w, turns[0]), turns[1..]);
    }
  }

  lemma ApartIsSafe(terms: map<nat, Terms>, turns: seq<Turn>)
    requires Apart(terms) && Legal(terms, Origin(terms), turns)
    ensures !RanTwice(Run(terms, Origin(terms), turns))
  {
    var w := Run(terms, Origin(terms), turns);
    RunIsSound(terms, turns);
    RunIsKnown(terms, Origin(terms), turns);
    if RanTwice(w) {
      WhoStarted(w);
      var g, h :| BothSides(w, g, h);
      assert Entry(g, RanHere).engine == g;
      BothFit(terms, w, g, h);
      NeverOnBothSides(terms, turns, h);
    }
  }

  /** In such a process nothing is sent, by any engine, once an invocation of any engine ran here. */
  lemma NothingSentAfter(terms: map<nat, Terms>, turns: seq<Turn>, i: nat, j: nat)
    requires Apart(terms) && Legal(terms, Origin(terms), turns)
    requires var log := Run(terms, Origin(terms), turns).process.log; i < j < |log| && log[i].mark.RanHere?
    ensures !Run(terms, Origin(terms), turns).process.log[j].mark.Posted?
  {
    var w := Run(terms, Origin(terms), turns);
    var log := w.process.log;
    var g, h := log[i].engine, log[j].engine;
    RunIsSound(terms, turns);
    RunIsKnown(terms, Origin(terms), turns);
    OfMember(log, g, log[i].mark);
    OfMember(log, h, log[j].mark);
    assert log[i] == Entry(g, log[i].mark) && log[j] == Entry(h, log[j].mark);
    assert SoundEngine(terms[g], SessionOf(w.process, g));
    assert SoundEngine(terms[h], SessionOf(w.process, h));
    if g == h {
      var a, b := OfOrder(log, g, i, j);
    }
  }

  // ---------------------------------------------------------------------------------------------
  // Runs that need the condition
  // ---------------------------------------------------------------------------------------------

  lemma {:induction false} Compose(terms: map<nat, Terms>, w: World, a: seq<Turn>, b: seq<Turn>)
    requires Legal(terms, w, a) && Legal(terms, Run(terms, w, a), b)
    ensures Legal(terms, w, a + b) && Run(terms, w, a + b) == Run(terms, Run(terms, w, a), b)
    decreases |a|
  {
    if a == [] {
      assert a + b == b;
    } else {
      Compose(terms, Next(terms, w, a[0]), a[1..], b);
      assert (a + b)[0] == a[0] && (a + b)[1..] == a[1..] + b;
    }
  }

  /** A run of one move of one engine. */
  lemma One(terms: map<nat, Terms>, w: World, a: Act, t: Taken, server: map<Wire, Fate>) returns (turns: seq<Turn>)
    requires Possible(terms, w.process, a) && Permits(terms[a.engine], a.move)
    requires t == Take(terms[a.engine].asks, w.process.clients[a.engine], a.move)
    requires Truthful(w.process.log + Tagged(a.engine, t.marks), server)
    requires Evolves(w.server, server) && Received(server, w.process.log + Tagged(a.engine, t.marks))
    ensures Legal(terms, w, turns)
    ensures Run(terms, w, turns)
         == World(Process(w.process.clients[a.engine := t.client], w.process.log + Tagged(a.engine, t.marks)), server)
  {
    turns := [Turn(Some(a), server)];
    assert Legal(terms, Next(terms, w, turns[0]), turns[1..]);
  }

  function Lost(wire: Wire): Surroundings {
    Surroundings(false, None, Packed(wire), Failed("managed_execution_submission_failed"),
                 _ => Tick(0.0, 0.0, Failed("")), {}, None)
  }

  function Unpackable(): Surroundings {
    Lost([]).(bundle := Bundle.Refused("managed_execution_bundle_unsupported"))
  }

  function Hosted(): Surroundings {
    Lost([]).(serves := true)
  }

  const WIRE: Wire := [7]
  const SENT := Posted(Post(WIRE, Failed("managed_execution_submission_failed")))
  const STARTED: map<Wire, Fate> := map[WIRE := Started]

  function Asked(settings: Settings): State {
    FRESH.(capability := Offered(settings))
  }

  /** The process ran here only, the server knows nothing of it, and engine `h` has done nothing yet. */
  ghost predicate OnlyHere(w: World, h: nat) {
    && w.server == map[]
    && h in w.process.clients && w.process.clients[h] == NEW
    && (forall e <- w.process.log :: e.mark.RanHere?)
  }

  lemma NothingPosted(log: seq<Entry>, g: nat, marks: seq<Mark>)
    requires forall e <- log :: e.mark.RanHere?
    requires marks == [] || marks == [RanHere]
    ensures Truthful(log + Tagged(g, marks), map[])
    ensures forall e <- log + Tagged(g, marks) :: e.mark.RanHere?
  {
  }

  /** What the first invocation of an engine does that is offered server runs, and loses the answer. */
  lemma FirstRequest(settings: Settings)
    ensures var c := Client(Asked(settings), map[0 := settings]);
      var t := Take(true, c, Finish(0, Lost(WIRE)));
      && Take(true, NEW, Execute(0, Offer(settings))) == Taken(c, [])
      && t.marks == [SENT]
      && (!settings.submissionIds ==> t.client == Client(Asked(settings), map[]))
  {
  }

  /** A run with one more request than those of a process that only ran here. */
  lemma OneMore(log: seq<Entry>, h: nat)
    requires forall e <- log :: e.mark.RanHere?
    ensures log + Tagged(h, []) == log
    ensures log + Tagged(h, [SENT]) == log + [Entry(h, SENT)]
    ensures Truthful(log + [Entry(h, SENT)], STARTED) && Received(STARTED, log + [Entry(h, SENT)])
  {
    assert Sends((log + [Entry(h, SENT)])[|log|], WIRE);
  }

  /** An engine that has done nothing yet is offered server runs; its request arrives and starts the script. */
  lemma StartsThere(terms: map<nat, Terms>, w: World, h: nat, settings: Settings) returns (turns: seq<Turn>)
    requires h in terms && terms[h].asks && settings in terms[h].offers && OnlyHere(w, h)
    ensures Legal(terms, w, turns)
    ensures var w' := Run(terms, w, turns);
      && w'.process.log == w.process.log + [Entry(h, SENT)] && w'.server == STARTED
      && w'.process.clients.Keys == w.process.clients.Keys
      && (!settings.submissionIds ==> w'.process.clients[h] == Client(Asked(settings), map[]))
  {
    assert Received(map[], w.process.log);
    hide Take, Legal, Run, Truthful, Received;
    FirstRequest(settings);
    OneMore(w.process.log, h);
    NothingPosted(w.process.log, h, []);
    var c := Client(Asked(settings), map[0 := settings]);
    var first := One(terms, w, Act(h, Execute(0, Offer(settings))), Taken(c, []), map[]);
    var w1 := Run(terms, w, first);
    var t := Take(true, c, Finish(0, Lost(WIRE)));
    var second := One(terms, w1, Act(h, Finish(0, Lost(WIRE))), t, STARTED);
    Compose(terms, w, first, second);
    turns := first + second;
  }

  /** The ways in which an invocation comes to run here, with what it takes. */
  lemma LeadsHere(t: Terms) returns (moves: seq<Move>)
    requires RunsHere(t)
    ensures !t.secured ==> moves == [Bypass]
    ensures |moves| == 1 || |moves| == 2
    ensures Enabled(NEW, moves[0]) && Permits(t, moves[0])
    ensures var one := Take(t.asks, NEW, moves[0]);
      && (moves[0].Bypass? ==> one.client == NEW)
      && (|moves| == 1 ==> one.marks == [RanHere])
      && (|moves| == 2 ==>
        && one.marks == [] && Enabled(one.client, moves[1]) && Permits(t, moves[1])
        && Take(t.asks, one.client, moves[1]).marks == [RanHere])
  {
    if !t.secured {
      moves := [Bypass];
    } else if !t.asks {
      moves := [Execute(0, ProbeFailed(""))];
    } else if t.declines {
      moves := [Execute(0, NoServerRuns(false))];
    } else {
      var s :| s in t.offers && s.localFallback;
      moves := [Execute(0, Offer(s)), Finish(0, Hosted())];
    }
  }

  /** A process that only ran here goes on with a move that at most runs here once more. */
  lemma StaysHere(terms: map<nat, Terms>, w: World, g: nat, move: Move, t: Taken, h: nat) returns (turns: seq<Turn>)
    requires OnlyHere(w, h) && Possible(terms, w.process, Act(g, move)) && Permits(terms[g], move)
    requires t == Take(terms[g].asks, w.process.clients[g], move) && (t.marks == [] || t.marks == [RanHere])
    requires g == h ==> t.client == NEW
    ensures Legal(terms, w, turns) && OnlyHere(Run(terms, w, turns), h)
    ensures Run(terms, w, turns).process
         == Process(w.process.clients[g := t.client], w.process.log + Tagged(g, t.marks))
  {
    NothingPosted(w.process.log, g, t.marks);
    assert Received(map[], w.process.log + Tagged(g, t.marks));
    hide Take, Legal, Run, Permits, Truthful, Received;
    turns := One(terms, w, Act(g, move), t, map[]);
  }

  /** A run on which one engine lets the script run here and the other has done nothing yet. */
  lemma RunsHereFirst(terms: map<nat, Terms>, g: nat, h: nat) returns (turns: seq<Turn>)
    requires g in terms && h in terms && RunsHere(terms[g]) && (g != h || !terms[g].secured)
    ensures Legal(terms, Origin(terms), turns)
    ensures var w := Run(terms, Origin(terms), turns);
      OnlyHere(w, h) && w.process.log == [Entry(g, RanHere)] && w.process.clients.Keys == terms.Keys
  {
    var w := Origin(terms);
    assert OnlyHere(w, h);
    var moves := LeadsHere(terms[g]);
    hide Take, Legal, Run, Enabled, Permits, OnlyHere;
    var t := Take(terms[g].asks, NEW, moves[0]);
    turns := StaysHere(terms, w, g, moves[0], t, h);
    if |moves| == 2 {
      var w1 := Run(terms, w, turns);
      assert w1.process.log == [];
      var more := StaysHere(terms, w1, g, moves[1], Take(terms[g].asks, t.client, moves[1]), h);
      Compose(terms, w, turns, more);
      turns := turns + more;
    }
  }

  /**
   * Two engines: an invocation of one runs the script here, then the other is offered server runs,
   * with submission ids or not, and the server starts the script from its first line.
   */
  lemma TwoEnginesRunTwice(terms: map<nat, Terms>, g: nat, h: nat)
    requires g in terms && h in terms && g != h && RunsHere(terms[g]) && Serves(terms[h])
    ensures !SafeUnder(terms)
  {
    HereThenThere(terms, g, h);
  }

  /** One engine: an invocation made while security is off runs the script here, and the next is offered. */
  lemma UnsecuredRunsTwice(terms: map<nat, Terms>, h: nat)
    requires h in terms && !terms[h].secured && Serves(terms[h])
    ensures !SafeUnder(terms)
  {
    HereThenThere(terms, h, h);
  }

  lemma HereThenThere(terms: map<nat, Terms>, g: nat, h: nat)
    requires g in terms && h in terms && RunsHere(terms[g]) && Serves(terms[h])
    requires g != h || !terms[g].secured
    ensures !SafeUnder(terms)
  {
    var settings :| settings in terms[h].offers;
    var turns := RunsHereFirst(terms, g, h);
    var w := Run(terms, Origin(terms), turns);
    var more := StartsThere(terms, w, h, settings);
    Compose(terms, Origin(terms), turns, more);
    var w' := Run(terms, Origin(terms), turns + more);
    assert w'.process.log[0].mark == RanHere;
    assert w'.server[WIRE] == Started;
    assert RanTwice(w');
  }

  /** Nothing was kept of a request under way: an invocation that cannot package the program runs it here. */
  lemma RunsHereAfterAll(settings: Settings)
    requires !Guarded(settings)
    ensures var c := Client(Asked(settings), map[1 := settings]);
      && Take(true, Client(Asked(settings), map[]), Execute(1, Offer(settings))) == Taken(c, [])
      && Take(true, c, Finish(1, Unpackable())) == Taken(Client(Asked(settings).(local := true), map[]), [RanHere])
  {
  }

  lemma ThereThenHere(terms: map<nat, Terms>, w: World, h: nat, settings: Settings) returns (turns: seq<Turn>)
    requires h in terms && terms[h].asks && settings in terms[h].offers && !Guarded(settings)
    requires w.process.log == [Entry(h, SENT)] && w.server == STARTED
    requires h in w.process.clients && w.process.clients[h] == Client(Asked(settings), map[])
    ensures Legal(terms, w, turns)
    ensures var w' := Run(terms, w, turns);
      w'.process.log == [Entry(h, SENT), Entry(h, RanHere)] && w'.server == STARTED
  {
    hide Take;
    RunsHereAfterAll(settings);
    var c := Client(Asked(settings), map[1 := settings]);
    var sent, both := [Entry(h, SENT)], [Entry(h, SENT), Entry(h, RanHere)];
    assert Sends(sent[0], WIRE) && Sends(both[0], WIRE);
    assert sent + Tagged(h, []) == sent;
    assert sent + Tagged(h, [RanHere]) == both;
    var first := One(terms, w, Act(h, Execute(1, Offer(settings))), Taken(c, []), STARTED);
    var gone := Taken(Client(Asked(settings).(local := true), map[]), [RanHere]);
    var second := One(terms, Run(terms, w, first), Act(h, Finish(1, Unpackable())), gone, STARTED);
    Compose(terms, w, first, second);
    turns := first + second;
  }

  /**
   * One engine, without submission ids but with the fall-back: the answer to a request is lost, the
   * server starts the program, and the next invocation finds nothing kept and runs it here.
   */
  lemma UnguardedRunsTwice(terms: map<nat, Terms>, h: nat, settings: Settings)
    requires h in terms && terms[h].asks && settings in terms[h].offers && !Guarded(settings)
    ensures !SafeUnder(terms)
  {
    hide Take, Next;
    var w := Origin(terms);
    var turns := StartsThere(terms, w, h, settings);
    var w1 := Run(terms, w, turns);
    assert w1.process.log == [Entry(h, SENT)];
    var more := ThereThenHere(terms, w1, h, settings);
    Compose(terms, w, turns, more);
    var w2 := Run(terms, w, turns + more);
    assert w2.process.log[1].mark == RanHere;
    assert w2.server[WIRE] == Started;
    assert RanTwice(w2);
  }

  /** The exact condition: what is offered, when security is on, and which engines share the process. */
  lemma SafeExactlyWhenApart(terms: map<nat, Terms>)
    ensures SafeUnder(terms) <==> Apart(terms)
  {
    if Apart(terms) {
      forall turns | Legal(terms, Origin(terms), turns)
        ensures !RanTwice(Run(terms, Origin(terms), turns))
      {
        ApartIsSafe(terms, turns);
      }
    } else {
      var h :| h in terms && Serves(terms[h])
        && !(Prudent(terms[h]) && forall g <- terms | g != h :: !RunsHere(terms[g]));
      if !terms[h].secured {
        UnsecuredRunsTwice(terms, h);
      } else if s :| s in terms[h].offers && !Guarded(s) {
        UnguardedRunsTwice(terms, h, s);
      } else {
        var g :| g in terms && g != h && RunsHere(terms[g]);
        TwoEnginesRunTwice(terms, g, h);
      }
    }
  }

  /** The common case: one engine that asks, and a gateway that always makes the same offer. */
  lemma SafeExactlyWhenGuarded(g: nat, secured: bool, declines: bool, settings: Settings)
    ensures SafeUnder(map[g := Terms(true, secured, declines, iset{settings})]) <==> secured && Guarded(settings)
  {
    var terms := map[g := Terms(true, secured, declines, iset{settings})];
    SafeExactlyWhenApart(terms);
    assert Serves(terms[g]);
  }
}
