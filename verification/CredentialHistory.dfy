// What the answers that a call acts on have to do with when they were fetched, over every run.

module CredentialHistory {
  import opened Common
  import opened Credential
  import opened CredentialProtocol

  // ---------------------------------------------------------------------------------------------
  // Runs with a log
  // ---------------------------------------------------------------------------------------------

  /** An answer was fetched; a refused key was set aside with its offer. */
  datatype Event = Fetched(info: Info, wall: real) | Dropped(key: Key)

  datatype World = World(state: State, call: Call, log: seq<Event>)

  /** A lookup that asks the gateway and is answered. */
  predicate Fetches(s: State, i: Input) {
    && !(s.failing.Some? && i.mono - s.failedAt <= FAILURE_TTL)
    && !(s.info.Some? && i.wall - s.fetchedAt <= DISCOVERY_TTL)
    && i.look.Answered?
  }

  function FetchEvent(s: State, i: Input): seq<Event> {
    if Fetches(s, i) then [Fetched(i.look.info, i.wall)] else []
  }

  function DropEvent(s: State, key: Key, fault: Fault): seq<Event> {
    if s.provisional == Some(key) && SetAside(s, key, fault).1 then [Dropped(key)] else []
  }

  function Events(s: State, c: Call, m: Move): seq<Event> {
    match m
    case Look(i) => FetchEvent(s, i)
    case Prepare(i) => if s.active.Some? then [] else FetchEvent(s, i)
    case Aside(key, fault) => DropEvent(s, key, fault)
    case Mine(i) =>
      if c.phase.Locking? && s.active.None? then FetchEvent(s, i)
      else if c.phase.Rereading? then FetchEvent(s, i)
      else if c.phase.Refused? && c.attempt == 0 then DropEvent(s, c.phase.key, c.phase.fault)
      else []
    case _ => []
  }

  function Step(w: World, m: Move): World {
    var (s, c) := Next(w.state, w.call, m);
    World(s, c, w.log + Events(w.state, w.call, m))
  }

  function RunAll(w: World, moves: seq<Move>): World
    decreases |moves|
  {
    if moves == [] then w else RunAll(Step(w, moves[0]), moves[1..])
  }

  /** A call that begins in the middle of a run. */
  function Begun(before: seq<Move>, moves: seq<Move>): World {
    var w := RunAll(World(FRESH, NEW, []), before);
    RunAll(w.(call := NEW), moves)
  }

  // ---------------------------------------------------------------------------------------------
  // What the log says
  // ---------------------------------------------------------------------------------------------

  /** The cached answer was fetched when the engine says it was. */
  predicate Dated(w: World) {
    w.state.info.Some? ==> Fetched(w.state.info.value, w.state.fetchedAt) in w.log
  }

  /** If it is an answer, it was fetched after the event at `j`. */
  predicate After(log: seq<Event>, j: nat, info: Option<Info>) {
    info.Some? ==> exists k :: j < k < |log| && log[k].Fetched? && log[k].info == info.value
  }

  /** A set-aside in the log after which the cached answer was fetched. */
  predicate DropAt(log: seq<Event>, j: nat, info: Option<Info>) {
    j < |log| && log[j].Dropped? && After(log, j, info)
  }

  /** The answer that a call acts on. */
  function Acting(p: Phase): Option<Info> {
    match p
    case Sparing(a) => Some(a)
    case Withdrawing(a) => Some(a)
    case Silent(NoAgent(a)) => Some(a)
    case Silent(Unbuilt(a)) => Some(a)
    case Silent(Spared(a)) => Some(a)
    case _ => None
  }

  /** For each key that is set aside, the cached answer came after that. */
  ghost predicate Renewed(w: World) {
    forall key <- w.state.setAside :: exists j: nat :: DropAt(w.log, j, w.state.info) && w.log[j] == Dropped(key)
  }

  /** A call on its second answer: that, and what it acts on, came after a set-aside. */
  ghost predicate Second(w: World) {
    w.call.rereads > 0 ==>
      exists j: nat :: DropAt(w.log, j, w.state.info) && After(w.log, j, Acting(w.call.phase))
  }

  ghost predicate Recorded(w: World) {
    Dated(w) && Renewed(w)
  }

  /** What a step can do to the cached answer: keep it, drop it, or fetch one now. */
  lemma InfoChanges(w: World, m: Move)
    ensures var w' := Step(w, m);
      || w'.state.info.None?
      || (w'.state.info == w.state.info && w'.state.fetchedAt == w.state.fetchedAt)
      || (|w'.log| == |w.log| + 1 && w'.log[|w.log|] == Fetched(w'.state.info.value, w'.state.fetchedAt))
    ensures w.log <= Step(w, m).log
  {
  }

  lemma StepDates(w: World, m: Move)
    requires Dated(w)
    ensures Dated(Step(w, m))
  {
    hide Step;
    InfoChanges(w, m);
    var w' := Step(w, m);
    assert w'.log == w.log + w'.log[|w.log|..];
  }

  /** What came after a set-aside still does. */
  lemma AfterStays(w: World, m: Move, j: nat, info: Option<Info>)
    requires j < |w.log| && After(w.log, j, info)
    ensures After(Step(w, m).log, j, info) && Step(w, m).log[j] == w.log[j]
  {
    hide Step;
    InfoChanges(w, m);
    if info.Some? {
      var k :| j < k < |w.log| && w.log[k].Fetched? && w.log[k].info == info.value;
      assert Step(w, m).log[k] == w.log[k];
    }
  }

  lemma DropStays(w: World, m: Move, j: nat)
    requires DropAt(w.log, j, w.state.info)
    ensures DropAt(Step(w, m).log, j, Step(w, m).state.info) && Step(w, m).log[j] == w.log[j]
  {
    hide Step, After;
    InfoChanges(w, m);
    AfterStays(w, m, j, w.state.info);
    FetchIsAfter(Step(w, m).log, j, |w.log|, Step(w, m).state.info);
  }

  lemma FetchIsAfter(log: seq<Event>, j: nat, k: nat, info: Option<Info>)
    ensures info.None? ==> After(log, j, info)
    ensures info.Some? && j < k < |log| && log[k].Fetched? && log[k].info == info.value ==> After(log, j, info)
  {
  }

  /** A key is set aside with its event, and its answer is gone. */
  lemma NewlyAside(w: World, m: Move)
    ensures var w' := Step(w, m);
      forall key <- w'.state.setAside :: key in w.state.setAside
        || (w'.state.info.None? && |w'.log| == |w.log| + 1 && w'.log[|w.log|] == Dropped(key))
  {
  }

  lemma StepRenews(w: World, m: Move)
    requires Renewed(w)
    ensures Renewed(Step(w, m))
  {
    hide Step, After;
    var w' := Step(w, m);
    NewlyAside(w, m);
    forall key <- w'.state.setAside
      ensures exists j: nat :: DropAt(w'.log, j, w'.state.info) && w'.log[j] == Dropped(key)
    {
      if key in w.state.setAside {
        var j: nat :| DropAt(w.log, j, w.state.info) && w.log[j] == Dropped(key);
        DropStays(w, m, j);
      } else {
        FetchIsAfter(w'.log, |w.log|, 0, w'.state.info);
        assert DropAt(w'.log, |w.log|, w'.state.info);
      }
    }
  }

  /** The re-read begins with a key set aside, by this call or by an earlier one. */
  lemma RereadBegins(w: World, m: Move)
    requires w.call.rereads == 0 && Step(w, m).call.rereads > 0
    ensures exists key :: key in Step(w, m).state.setAside
    ensures Acting(Step(w, m).call.phase).None?
  {
  }

  /** What a call acts on after a step it acted on before, or is cached then. */
  lemma ActsOnCached(w: World, m: Move)
    ensures var w' := Step(w, m);
      var acting := Acting(w'.call.phase);
      acting.None? || acting == Acting(w.call.phase) || acting == w'.state.info
    ensures w.call.rereads <= Step(w, m).call.rereads
  {
  }

  lemma StepSeconds(w: World, m: Move)
    requires Renewed(w) && Second(w)
    ensures Second(Step(w, m))
  {
    hide Step, After, Acting;
    var w' := Step(w, m);
    ActsOnCached(w, m);
    if w.call.rereads > 0 {
      var j: nat :| DropAt(w.log, j, w.state.info) && After(w.log, j, Acting(w.call.phase));
      DropStays(w, m, j);
      AfterStays(w, m, j, Acting(w.call.phase));
      FetchIsAfter(w'.log, j, 0, None);
    } else if w'.call.rereads > 0 {
      RereadBegins(w, m);
      StepRenews(w, m);
      var key :| key in w'.state.setAside;
      var j: nat :| DropAt(w'.log, j, w'.state.info) && w'.log[j] == Dropped(key);
      FetchIsAfter(w'.log, j, 0, None);
    }
  }

  lemma {:induction false} RunRecords(w: World, moves: seq<Move>)
    requires Recorded(w) && Second(w)
    ensures Recorded(RunAll(w, moves)) && Second(RunAll(w, moves))
    decreases |moves|
  {
    hide Dated, Renewed, Second, Step;
    if moves != [] {
      StepDates(w, moves[0]);
      StepRenews(w, moves[0]);
      StepSeconds(w, moves[0]);
      RunRecords(Step(w, moves[0]), moves[1..]);
    }
  }

  lemma BegunRecords(before: seq<Move>, moves: seq<Move>)
    ensures Recorded(Begun(before, moves)) && Second(Begun(before, moves))
  {
    var w := World(FRESH, NEW, []);
    assert Recorded(w) && Second(w);
    RunRecords(w, before);
    var v := RunAll(w, before).(call := NEW);
    assert Recorded(v) && Second(v);
    RunRecords(v, moves);
  }

  // ---------------------------------------------------------------------------------------------
  // Main results
  // ---------------------------------------------------------------------------------------------

  /**
   * On every run, a call that ends without a credential, because its answer needs none or because its
   * optional credential was not built, acts on an answer that was fetched at most an hour before.
   */
  lemma AnswerWithoutCredentialIsRecent(before: seq<Move>, moves: seq<Move>, i: Input)
    ensures var w := Begun(before, moves);
      var w' := Step(w, Mine(i));
      !Over(w.call) && w'.call.phase.Silent? && (w'.call.phase.why.NoAgent? || w'.call.phase.why.Unbuilt?) ==>
        exists wall :: Fetched(w'.call.phase.why.info, wall) in w'.log && i.wall - wall <= DISCOVERY_TTL
  {
    hide Begun, Equip, Discover;
    var w := Begun(before, moves);
    var w' := Step(w, Mine(i));
    BegunRecords(before, moves);
    StepDates(w, Mine(i));
    if !Over(w.call) && w'.call.phase.Silent? && (w'.call.phase.why.NoAgent? || w'.call.phase.why.Unbuilt?) {
      BareIsRecent(w.state, i);
      assert Fetched(w'.call.phase.why.info, w'.state.fetchedAt) in w'.log;
    }
  }

  lemma BareIsRecent(s: State, i: Input)
    ensures var (s', held) := Equip(s, i);
      held.Bare? ==> s'.info == Some(held.info) && i.wall - s'.fetchedAt <= DISCOVERY_TTL
  {
  }

  /** On every run, a call that reads the settings again acts on an answer fetched after a key was set aside. */
  lemma SecondAnswerIsNew(before: seq<Move>, moves: seq<Move>)
    ensures var w := Begun(before, moves);
      w.call.rereads > 0 ==>
        exists j: nat ::
          && j < |w.log| && w.log[j].Dropped?
          && After(w.log, j, w.state.info) && After(w.log, j, Acting(w.call.phase))
  {
    hide Begun, After, Acting;
    BegunRecords(before, moves);
    var w := Begun(before, moves);
    if w.call.rereads > 0 {
      var j: nat :| DropAt(w.log, j, w.state.info) && After(w.log, j, Acting(w.call.phase));
    }
  }

  // ---------------------------------------------------------------------------------------------
  // An answer of any age
  // ---------------------------------------------------------------------------------------------

  lemma {:induction false} RunAllOn(w: World, moves: seq<Move>, m: Move)
    ensures RunAll(w, moves + [m]) == Step(RunAll(w, moves), m)
    decreases |moves|
  {
    hide Step;
    if moves == [] {
      assert RunAll(Step(w, m), []) == Step(w, m) && ([] + [m])[1..] == [];
    } else {
      assert (moves + [m])[1..] == moves[1..] + [m] && (moves + [m])[0] == moves[0];
      RunAllOn(Step(w, moves[0]), moves[1..], m);
    }
  }

  lemma BegunOn(before: seq<Move>, moves: seq<Move>, m: Move)
    ensures Begun(before, moves + [m]) == Step(Begun(before, moves), m)
  {
    RunAllOn(RunAll(World(FRESH, NEW, []), before).(call := NEW), moves, m);
  }

  /** One failed token under an optional answer, from the beginning of the call on, all at one time. */
  lemma FailsToSpared(w: World, a: Info, key: Key, i: Input)
    requires w.state.info == Some(a) && a.optional && w.state.active == w.state.built == Some(key)
    requires w.state.restedAt == 0.0 && !i.off && i.exchange == NotIssued(Unexpected)
    ensures var w1 := Step(w, Mine(i));
      w.call == NEW ==> w1 == w.(call := NEW.(phase := Fresh))
    ensures w.call == NEW.(phase := Fresh) ==> Step(w, Mine(i)) == w.(call := NEW.(phase := Taking))
    ensures w.call == NEW.(phase := Taking) ==> Step(w, Mine(i)) == w.(call := NEW.(phase := Holding(key)))
    ensures w.call == NEW.(phase := Holding(key)) ==> Step(w, Mine(i)) == w.(call := NEW.(phase := Doubting(key)))
    ensures w.call == NEW.(phase := Doubting(key)) ==> Step(w, Mine(i)) == w.(call := NEW.(phase := Asking(key)))
    ensures w.call == NEW.(phase := Asking(key)) ==>
      Step(w, Mine(i)) == w.(call := NEW.(asked := 1, phase := Refused(key, Unexpected)))
    ensures w.call == NEW.(asked := 1, phase := Refused(key, Unexpected)) ==>
      Step(w, Mine(i)) == w.(call := NEW.(asked := 1, phase := Excusing(key, Unexpected, false)))
    ensures w.call == NEW.(asked := 1, phase := Excusing(key, Unexpected, false)) ==>
      Step(w, Mine(i)) == w.(call := NEW.(asked := 1, phase := Weighing(key, Unexpected, false)))
    ensures w.call == NEW.(asked := 1, phase := Weighing(key, Unexpected, false)) ==>
      Step(w, Mine(i)) == w.(call := NEW.(asked := 1, phase := Sparing(a)))
    ensures w.call == NEW.(asked := 1, phase := Sparing(a)) ==>
      Step(w, Mine(i)) == w.(state := Rest(w.state, a, i.mono), call := NEW.(asked := 1, phase := Silent(Spared(a))))
  {
    hide Discover, Equip, Withdraw;
    assert forall l: seq<Event> :: l + [] == l;
  }

  /** A call whose only token fails under an optional answer, after n of its steps. */
  function FailedCall(n: nat, a: Info, key: Key): Call
    requires n <= 10
  {
    if n == 0 then NEW else if n == 1 then NEW.(phase := Fresh) else if n == 2 then NEW.(phase := Taking)
    else if n == 3 then NEW.(phase := Holding(key)) else if n == 4 then NEW.(phase := Doubting(key))
    else if n == 5 then NEW.(phase := Asking(key))
    else if n == 6 then NEW.(asked := 1, phase := Refused(key, Unexpected))
    else if n == 7 then NEW.(asked := 1, phase := Excusing(key, Unexpected, false))
    else if n == 8 then NEW.(asked := 1, phase := Weighing(key, Unexpected, false))
    else if n == 9 then NEW.(asked := 1, phase := Sparing(a))
    else NEW.(asked := 1, phase := Silent(Spared(a)))
  }

  /** A call takes such steps from a state in which a credential was built under an optional answer. */
  lemma FailedSteps(before: seq<Move>, a: Info, key: Key, i: Input, steps: nat) returns (moves: seq<Move>)
    requires var w := Begun(before, []);
      && w.state.info == Some(a) && a.optional && w.state.active == w.state.built == Some(key)
      && w.state.restedAt == 0.0 && w.call == NEW
    requires !i.off && i.exchange == NotIssued(Unexpected) && steps <= 10
    ensures var w := Begun(before, moves);
      && w.call == FailedCall(steps, a, key) && w.log == Begun(before, []).log
      && (steps < 10 ==> w.state == Begun(before, []).state)
    ensures forall m <- moves :: m == Mine(i)
  {
    hide Begun, Step, Rest;
    moves := [];
    for n := 0 to steps
      invariant forall m <- moves :: m == Mine(i)
      invariant var w := Begun(before, moves);
        && w.log == Begun(before, []).log
        && (n < 10 ==> w.state == Begun(before, []).state)
        && w.call == FailedCall(n, a, key)
    {
      FailsToSpared(Begun(before, moves), a, key, i);
      BegunOn(before, moves, Mine(i));
      moves := moves + [Mine(i)];
    }
  }

  function BuiltUnder(a: Info, wall: real): seq<Move> {
    [Prepare(Input(false, Answered(a), Built, Issued, false, wall, 0.0))]
  }

  lemma BuiltUnderIs(a: Info, wall: real)
    requires !NeedsNone(a)
    ensures var w := Begun(BuiltUnder(a, wall), []);
      && w.call == NEW && w.log == [Fetched(a, wall)]
      && w.state.info == Some(a) && w.state.active == w.state.built == Some(0) && w.state.restedAt == 0.0
  {
    var v := World(FRESH, NEW, []);
    var m := BuiltUnder(a, wall)[0];
    assert BuiltUnder(a, wall)[1..] == [];
    assert RunAll(v, [m]) == Step(v, m);
  }

  /**
   * Where a credential was built the answer is not looked up again: its failure is excused by an
   * optional answer of any age.
   */
  lemma SparedByOldAnswer(a: Info, fetched: real, now: real) returns (before: seq<Move>, moves: seq<Move>)
    requires a.optional && !NeedsNone(a)
    ensures var w := Begun(before, moves);
      && w.call.phase == Silent(Spared(a)) && w.log == [Fetched(a, fetched)]
      && forall m <- moves :: m.Mine? && m.input.wall == now
  {
    before := BuiltUnder(a, fetched);
    BuiltUnderIs(a, fetched);
    var i := Input(false, Answered(a), Built, NotIssued(Unexpected), false, now, 1.0);
    moves := FailedSteps(before, a, 0, i, 10);
  }

  // ---------------------------------------------------------------------------------------------
  // Failed builds
  // ---------------------------------------------------------------------------------------------

  /** The build of the credential of an optional answer is tried here, and fails. */
  predicate BuildFails(s: State, a: Info, i: Input) {
    && s.active.None? && Discover(s, i).1 == Found(a) && a.optional && !NeedsNone(a)
    && !Resting(Discover(s, i).0, a, i.mono) && i.build.NotBuilt?
  }

  /** The answer under which a move remembers a failure, if it remembers one. */
  function Remembers(s: State, c: Call, m: Move): Option<Info> {
    match m
    case Spare(b, _) => Some(b)
    case Prepare(i) => FailedUnder(s, i)
    case Mine(i) =>
      if c.phase.Sparing? then Some(c.phase.info) else if c.phase.Locking? then FailedUnder(s, i) else None
    case _ => None
  }

  /** The answer whose credential is tried here in vain. */
  function FailedUnder(s: State, i: Input): Option<Info> {
    var found := Discover(s, i).1;
    if found.Found? && BuildFails(s, found.info, i) then Some(found.info) else None
  }

  /** The answer under which a run remembers its last failure, or `a` if it remembers none. */
  function LastRemembered(s: State, c: Call, moves: seq<Move>, a: Info): Info
    decreases |moves|
  {
    if moves == [] then a
    else
      var (s', c') := Next(s, c, moves[0]);
      var b := Remembers(s, c, moves[0]);
      LastRemembered(s', c', moves[1..], if b.Some? then b.value else a)
  }

  /** The memory of a failure under `last`, not before `first`, or a credential of the application's own. */
  predicate Guarded(s: State, last: Info, first: real) {
    first > 0.0
    && ((s.restedFor == Some(last) && s.restedAt >= first) || (s.active.Some? && s.built.None? && s.provisional.None?))
  }

  /** The time a move takes place, if it looks at the clock. */
  predicate NotBefore(m: Move, first: real) {
    match m
    case Mine(i) => i.mono >= first
    case Look(i) => i.mono >= first
    case Prepare(i) => i.mono >= first
    case Spare(_, mono) => mono >= first
    case Retract(_, mono) => mono >= first
    case _ => true
  }

  /** The answer stays the cached one. */
  predicate Unchanged(s: State, c: Call, moves: seq<Move>, a: Info, first: real)
    decreases |moves|
  {
    moves == [] || (
      var (s', c') := Next(s, c, moves[0]);
      NotBefore(moves[0], first) && s'.info == Some(a) && Unchanged(s', c', moves[1..], a, first))
  }

  lemma FirstFailureGuards(s: State, a: Info, i: Input)
    requires BuildFails(s, a, i) && i.mono > 0.0
    ensures Guarded(Equip(s, i).0, a, i.mono) && Equip(s, i).1 == Bare(a)
  {
  }

  lemma EquipGuards(s: State, i: Input, a: Info, last: Info, first: real)
    requires Guarded(s, last, first) && i.mono >= first && Equip(s, i).0.info == Some(a)
    ensures var b := FailedUnder(s, i);
      Guarded(Equip(s, i).0, if b.Some? then b.value else last, first)
  {
  }

  lemma OthersGuard(s: State, c: Call, m: Move, a: Info, last: Info, first: real)
    requires Guarded(s, last, first) && NotBefore(m, first) && !m.Mine? && Others(s, m).info == Some(a)
    ensures var b := Remembers(s, c, m);
      Guarded(Others(s, m), if b.Some? then b.value else last, first)
  {
    if m.Prepare? {
      EquipGuards(s, m.input, a, last, first);
    }
    hide Equip, FailedUnder;
  }

  lemma MineGuards(s: State, c: Call, i: Input, a: Info, last: Info, first: real)
    requires Guarded(s, last, first) && i.mono >= first && Go(s, c, i).0.info == Some(a)
    ensures var b := Remembers(s, c, Mine(i));
      Guarded(Go(s, c, i).0, if b.Some? then b.value else last, first)
  {
    hide Equip, FailedUnder;
    if c.phase.Locking? {
      EquipGuards(s, i, a, last, first);
    }
  }

  lemma GuardStays(s: State, c: Call, m: Move, a: Info, last: Info, first: real)
    requires Guarded(s, last, first) && NotBefore(m, first) && Next(s, c, m).0.info == Some(a)
    ensures var b := Remembers(s, c, m);
      Guarded(Next(s, c, m).0, if b.Some? then b.value else last, first)
  {
    hide Go, Others, Remembers, Guarded;
    if m.Mine? {
      MineGuards(s, c, m.input, a, last, first);
    } else {
      OthersGuard(s, c, m, a, last, first);
    }
  }

  lemma {:induction false} GuardLasts(s: State, c: Call, moves: seq<Move>, a: Info, last: Info, first: real)
    requires Guarded(s, last, first) && Unchanged(s, c, moves, a, first)
    ensures Guarded(Run(s, c, moves).0, LastRemembered(s, c, moves, last), first)
    decreases |moves|
  {
    hide Guarded, Next, Remembers, NotBefore;
    if moves != [] {
      var b := Remembers(s, c, moves[0]);
      GuardStays(s, c, moves[0], a, last, first);
      var (s', c') := Next(s, c, moves[0]);
      GuardLasts(s', c', moves[1..], a, if b.Some? then b.value else last, first);
    }
  }

  /**
   * Within a minute of a failed optional build, while its answer stays the cached one and whatever other
   * threads do, the build is tried again, and fails again, if and only if there is no credential and the
   * failure remembered last is one under another answer.
   */
  lemma FailedBuildsAreApart(s: State, a: Info, i: Input, c: Call, moves: seq<Move>, j: Input)
    requires BuildFails(s, a, i) && i.mono > 0.0
    requires Unchanged(Equip(s, i).0, c, moves, a, i.mono)
    ensures var s' := Equip(s, i).0;
      var final := Run(s', c, moves).0;
      j.mono - i.mono <= OPTIONAL_RETRY && Discover(final, j).1 == Found(a) && j.build.NotBuilt? ==>
        (BuildFails(final, a, j) <==> final.active.None? && LastRemembered(s', c, moves, a) != a)
  {
    hide Run, Unchanged, Equip, LastRemembered;
    FirstFailureGuards(s, a, i);
    GuardLasts(Equip(s, i).0, c, moves, a, a, i.mono);
  }

  /** A reset of the engine while a call is about to remember its failure, and the next build, which fails. */
  lemma LateRest(w: World, a: Info, b: Info, key: Key, i: Input)
    requires w.state.active == w.state.built == Some(key) && w.call.phase == Sparing(b)
    requires a.optional && !NeedsNone(a) && a != b && i.look == Answered(a) && i.build.NotBuilt? && i.mono > 0.0
    ensures var w1 := Step(w, Refresh);
      var w2 := Step(w1, Prepare(i));
      var w3 := Step(w2, Mine(i));
      && BuildFails(w1.state, a, i) && w2.state == Equip(w1.state, i).0
      && w3.state.info == Some(a) && BuildFails(w3.state, a, i)
  {
  }

  /**
   * A run from a fresh engine on which a build is tried twice at one moment under one answer: a call
   * comes to remember the failure of a token under an earlier answer after the first try.
   */
  lemma LateRestRetries(a: Info, b: Info, i: Input) returns (before: seq<Move>, moves: seq<Move>)
    requires a.optional && !NeedsNone(a) && b.optional && !NeedsNone(b) && a != b
    requires i.look == Answered(a) && i.build.NotBuilt? && i.mono > 0.0
    ensures var w1 := Begun(before, moves);
      var w3 := Begun(before, moves + [Prepare(i)] + [Mine(i)]);
      && BuildFails(w1.state, a, i)
      && w3.state.info == Some(a) && BuildFails(w3.state, a, i)
  {
    hide Begun, Step, BuildFails;
    before := BuiltUnder(b, 0.0);
    BuiltUnderIs(b, 0.0);
    moves := FailedSteps(before, b, 0, Input(false, Answered(b), Built, NotIssued(Unexpected), false, 0.0, 1.0), 9);
    LateRest(Begun(before, moves), a, b, 0, i);
    BegunOn(before, moves, Refresh);
    moves := moves + [Refresh];
    BegunOn(before, moves, Prepare(i));
    BegunOn(before, moves + [Prepare(i)], Mine(i));
  }
}
