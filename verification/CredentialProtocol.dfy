// What holds of the credential fields and of one authorization call over every run, with any other
// calls, overrides, resets and refreshes of the process in between.

module CredentialProtocol {
  import opened Common
  import opened Credential

  /** One step of the observed call, or one region that any other thread enters, with any arguments. */
  datatype Move =
    | Mine(input: Input)
    | Look(input: Input)
    | Prepare(input: Input)
    | Override(key: Key)
    | Refresh
    | Clear
    | Aside(key: Key, fault: Fault)
    | Spare(info: Info, mono: real)
    | Retract(info: Info, mono: real)

  function Others(s: State, m: Move): State {
    match m
    case Look(i) => Discover(s, i).0
    case Prepare(i) => Equip(s, i).0
    case Override(key) => Supply(s, key)
    case Refresh => Reset(s)
    case Clear => ForgetFailure(s)
    case Aside(key, fault) => SetAside(s, key, fault).0
    case Spare(a, mono) => Rest(s, a, mono)
    case Retract(a, mono) => Withdraw(s, a, mono)
    case Mine(_) => s
  }

  function Next(s: State, c: Call, m: Move): (State, Call) {
    if m.Mine? then Go(s, c, m.input) else (Others(s, m), c)
  }

  function Run(s: State, c: Call, moves: seq<Move>): (State, Call)
    decreases |moves|
  {
    if moves == [] then (s, c)
    else
      var (s, c) := Next(s, c, moves[0]);
      Run(s, c, moves[1..])
  }

  // ---------------------------------------------------------------------------------------------
  // Invariants
  // ---------------------------------------------------------------------------------------------

  predicate Below(key: Option<Key>, bound: nat) {
    key.Some? ==> key.value < bound
  }

  /** The provisional and the built credential are each absent or the active one. */
  predicate Linked(s: State) {
    && (s.provisional.Some? ==> s.provisional == s.active)
    && (s.built.Some? ==> s.built == s.active)
    && (s.provisional.Some? ==> s.provisional == s.built)
  }

  /** Every credential was made before the next one; an application's own credential is not set aside. */
  predicate Known(s: State) {
    && Below(s.active, s.made)
    && (forall key <- s.setAside :: key < s.made)
    && (s.active.Some? && s.built.None? ==> s.active.value !in s.setAside)
  }

  predicate Inv(s: State) {
    Linked(s) && Known(s)
  }

  predicate Excused(why: Why) {
    match why
    case SecurityOff => true
    case NoAgent(a) => NeedsNone(a)
    case Unbuilt(a) => a.optional
    case Spared(a) => a.optional
    case Vanished => false
  }

  /** The credential a call holds at a phase. */
  function KeyOf(p: Phase): Option<Key> {
    match p
    case Holding(key) => Some(key)
    case Doubting(key) => Some(key)
    case Asking(key) => Some(key)
    case Refused(key, _) => Some(key)
    case Excusing(key, _, _) => Some(key)
    case Weighing(key, _, _) => Some(key)
    case Falling(key, _) => Some(key)
    case Reading(key, _) => Some(key)
    case _ => None
  }

  /** Before a credential is taken, and where only one of the engine's own leads. */
  predicate OwnOnly(p: Phase) {
    || p.Entering? || p.Fresh? || p.Taking? || p.Locking? || p.Doubting? || p.Rereading? || p.Weighing?
    || p.Sparing? || p.Reading? || p.Withdrawing? || p.Silent?
  }

  /** At most one re-read, and one token request for each answer read. */
  predicate Counted(c: Call) {
    if c.phase.Rereading? then c.attempt == 0 && c.rereads == 1 && c.asked == 1
    else if c.phase.Withdrawing? || Over(c) then c.attempt <= c.rereads <= 1 && c.asked <= c.attempt + 1
    else
      && c.rereads == c.attempt <= 1
      && c.asked == c.attempt + (if AfterAsking(c.phase) then 1 else 0)
  }

  predicate AfterAsking(p: Phase) {
    p.Refused? || p.Excusing? || p.Weighing? || p.Sparing? || p.Falling? || p.Reading?
  }

  /** A foreign credential stays one: never the engine's own again, never set aside. */
  predicate Foreign(s: State, key: Key) {
    s.built != Some(key) && s.provisional != Some(key) && key !in s.setAside
  }

  predicate CallInv(s: State, c: Call) {
    && Counted(c)
    && Below(KeyOf(c.phase), s.made)
    && (c.phase.Silent? ==> Excused(c.phase.why) || c.phase.why.Vanished?)
    && (c.phase.Sparing? ==> c.phase.info.optional)
    && (c.phase.Withdrawing? ==> Offer(c.phase.info))
    && (c.foreign ==> !OwnOnly(c.phase))
    && (c.foreign && KeyOf(c.phase).Some? ==> Foreign(s, KeyOf(c.phase).value))
  }

  lemma OthersKeep(s: State, m: Move)
    requires Inv(s) && !m.Mine?
    ensures Inv(Others(s, m)) && s.made <= Others(s, m).made
    ensures forall key: Key | key < s.made && Foreign(s, key) :: Foreign(Others(s, m), key)
  {
  }

  lemma GoKeepsState(s: State, c: Call, i: Input)
    requires Inv(s)
    ensures Inv(Go(s, c, i).0) && s.made <= Go(s, c, i).0.made
    ensures forall key: Key | key < s.made && Foreign(s, key) :: Foreign(Go(s, c, i).0, key)
  {
  }

  lemma LockingKeeps(s: State, c: Call, i: Input)
    requires Inv(s) && CallInv(s, c) && c.phase.Locking?
    ensures CallInv(Go(s, c, i).0, Go(s, c, i).1)
  {
  }

  lemma RefusedKeeps(s: State, c: Call, i: Input)
    requires Inv(s) && CallInv(s, c) && (c.phase.Refused? || c.phase.Rereading?)
    ensures CallInv(Go(s, c, i).0, Go(s, c, i).1)
  {
  }

  lemma EndKeeps(s: State, c: Call, i: Input)
    requires CallInv(s, c) && (c.phase.Sparing? || c.phase.Withdrawing?)
    ensures CallInv(Go(s, c, i).0, Go(s, c, i).1)
  {
  }

  /** Steps that only read, before the token is asked for. */
  predicate Before(p: Phase) {
    p.Entering? || p.Fresh? || p.Taking? || p.Holding? || p.Doubting? || p.Asking?
  }

  lemma BeforeKeeps(s: State, c: Call, i: Input)
    requires Inv(s) && CallInv(s, c) && Before(c.phase)
    ensures CallInv(Go(s, c, i).0, Go(s, c, i).1)
  {
    hide Equip, Discover, SetAside, Withdraw, Rest;
  }

  /** Steps that only read, after the failure of a token. */
  lemma AfterKeeps(s: State, c: Call, i: Input)
    requires CallInv(s, c)
    requires c.phase.Excusing? || c.phase.Weighing? || c.phase.Falling? || c.phase.Reading? || Over(c)
    ensures CallInv(Go(s, c, i).0, Go(s, c, i).1)
  {
  }

  lemma GoKeepsCall(s: State, c: Call, i: Input)
    requires Inv(s) && CallInv(s, c)
    ensures CallInv(Go(s, c, i).0, Go(s, c, i).1)
  {
    hide Go, Inv, CallInv;
    if c.phase.Locking? {
      LockingKeeps(s, c, i);
    } else if c.phase.Refused? || c.phase.Rereading? {
      RefusedKeeps(s, c, i);
    } else if c.phase.Sparing? || c.phase.Withdrawing? {
      EndKeeps(s, c, i);
    } else if Before(c.phase) {
      BeforeKeeps(s, c, i);
    } else {
      AfterKeeps(s, c, i);
    }
  }

  lemma {:induction false} RunKeeps(s: State, c: Call, moves: seq<Move>)
    requires Inv(s) && CallInv(s, c)
    ensures var (s', c') := Run(s, c, moves); Inv(s') && CallInv(s', c')
    decreases |moves|
  {
    hide Inv, CallInv, Go, Others;
    if moves != [] {
      NextKeeps(s, c, moves[0]);
      var (s', c') := Next(s, c, moves[0]);
      RunKeeps(s', c', moves[1..]);
    }
  }

  lemma NextKeeps(s: State, c: Call, m: Move)
    requires Inv(s) && CallInv(s, c)
    ensures var (s', c') := Next(s, c, m); Inv(s') && CallInv(s', c')
  {
    hide Inv, Others, Go;
    if m.Mine? {
      GoKeepsState(s, c, m.input);
      GoKeepsCall(s, c, m.input);
    } else {
      OthersKeep(s, m);
    }
  }

  // ---------------------------------------------------------------------------------------------
  // Main results
  // ---------------------------------------------------------------------------------------------

  /** Another thread leaves a credential that there is; it does not while two reads are not separated. */
  predicate Leaves(s: State, c: Call, m: Move) {
    c.phase.Taking? && !m.Mine? && s.active.Some? ==> Others(s, m).active.Some?
  }

  /** No credential goes between the test for it and its reading. */
  predicate Steady(s: State, c: Call, moves: seq<Move>)
    decreases |moves|
  {
    moves == [] || (Leaves(s, c, moves[0]) && Steady(Next(s, c, moves[0]).0, Next(s, c, moves[0]).1, moves[1..]))
  }

  /** What is about to be read is there. */
  predicate Present(s: State, c: Call) {
    (c.phase.Taking? ==> s.active.Some?) && !(c.phase.Silent? && c.phase.why.Vanished?)
  }

  lemma NextIsPresent(s: State, c: Call, m: Move)
    requires Present(s, c) && Leaves(s, c, m)
    ensures Present(Next(s, c, m).0, Next(s, c, m).1)
  {
    hide Equip, Discover, SetAside, Withdraw, Rest, Others;
  }

  lemma {:induction false} SteadyIsPresent(s: State, c: Call, moves: seq<Move>)
    requires Present(s, c) && Steady(s, c, moves)
    ensures Present(Run(s, c, moves).0, Run(s, c, moves).1)
    decreases |moves|
  {
    hide Present, Leaves, Next;
    if moves != [] {
      NextIsPresent(s, c, moves[0]);
      SteadyIsPresent(Next(s, c, moves[0]).0, Next(s, c, moves[0]).1, moves[1..]);
    }
  }

  /** Somewhere in the run the call reads the credential it found before, and there is none. */
  predicate ReadsNothing(s: State, c: Call, moves: seq<Move>)
    decreases |moves|
  {
    moves != [] && (
      || (moves[0].Mine? && c.phase.Taking? && s.active.None?)
      || ReadsNothing(Next(s, c, moves[0]).0, Next(s, c, moves[0]).1, moves[1..]))
  }

  lemma {:induction false} VanishesAtTheRead(s: State, c: Call, moves: seq<Move>)
    ensures Run(s, c, moves).1.phase == Silent(Vanished) <==> c.phase == Silent(Vanished) || ReadsNothing(s, c, moves)
    decreases |moves|
  {
    hide Next;
    if moves != [] {
      VanishesNow(s, c, moves[0]);
      VanishesAtTheRead(Next(s, c, moves[0]).0, Next(s, c, moves[0]).1, moves[1..]);
    }
  }

  lemma VanishesNow(s: State, c: Call, m: Move)
    ensures Next(s, c, m).1.phase == Silent(Vanished) <==>
      c.phase == Silent(Vanished) || (m.Mine? && c.phase.Taking? && s.active.None?)
  {
    hide Equip, Discover, SetAside, Withdraw, Rest, Others;
  }

  /**
   * Over every run from a fresh engine, with one call observed from any point of it on: a call that
   * sends no token is excused exactly when it did not read a credential that is no longer there, and
   * it reads none of those unless another thread took a credential away between its two reads.
   */
  lemma CredentialsAreSound(before: seq<Move>, moves: seq<Move>)
    ensures var (s, _) := Run(FRESH, NEW, before);
      var (s', c) := Run(s, NEW, moves);
      && Linked(s')
      && (c.phase.Silent? ==> !c.foreign && (Excused(c.phase.why) <==> !ReadsNothing(s, NEW, moves)))
      && (ReadsNothing(s, NEW, moves) ==> c.phase.Silent?)
      && (Steady(s, NEW, moves) ==> !ReadsNothing(s, NEW, moves))
      && c.rereads <= 1 && c.asked <= 2
  {
    hide Run, Steady, ReadsNothing;
    RunKeeps(FRESH, NEW, before);
    var s := Run(FRESH, NEW, before).0;
    RunKeeps(s, NEW, moves);
    VanishesAtTheRead(s, NEW, moves);
    if Steady(s, NEW, moves) {
      SteadyIsPresent(s, NEW, moves);
    }
  }

  /** What takes a credential away: a reset, or the end of an offer that it was built from. */
  lemma TakenAwayBy(s: State, m: Move)
    requires Inv(s) && s.active.Some? && !m.Mine?
    ensures Others(s, m).active.None? <==>
      || m.Refresh? || (m.Retract? && s.provisional.Some?)
      || (m.Aside? && s.provisional == Some(m.key) && SetAside(s, m.key, m.fault).1)
  {
  }

  /** A reset between the two reads: the call sends no token although its answer asks for one. */
  lemma ResetBetweenReads(key: Key, i: Input)
    requires !i.off
    ensures var (s, c) := Run(FRESH, NEW, [Override(key), Mine(i), Mine(i), Refresh, Mine(i)]);
      c.phase == Silent(Vanished)
  {
    var s := Supply(FRESH, key);
    var moves := [Mine(i), Mine(i), Refresh, Mine(i)];
    assert Run(FRESH, NEW, [Override(key)] + moves) == Run(s, NEW, moves) && ([Override(key)] + moves)[1..] == moves;
    assert [Override(key)] + moves == [Override(key), Mine(i), Mine(i), Refresh, Mine(i)];
    FourMoves(s, Mine(i), Mine(i), Refresh, Mine(i));
  }

  lemma FourMoves(s: State, m: Move, n: Move, o: Move, p: Move)
    ensures var (s1, c1) := Next(s, NEW, m);
      var (s2, c2) := Next(s1, c1, n);
      var (s3, c3) := Next(s2, c2, o);
      Run(s, NEW, [m, n, o, p]) == Next(s3, c3, p)
  {
    hide Next;
    var (s1, c1) := Next(s, NEW, m);
    var (s2, c2) := Next(s1, c1, n);
    var (s3, c3) := Next(s2, c2, o);
    assert [m, n, o, p][1..] == [n, o, p] && [n, o, p][1..] == [o, p] && [o, p][1..] == [p] && [p][1..] == [];
    assert Run(s3, c3, [p]) == Next(s3, c3, p);
    assert Run(s2, c2, [o, p]) == Next(s3, c3, p);
    assert Run(s1, c1, [n, o, p]) == Next(s3, c3, p);
  }

  lemma ForeignGoes(s: State, c: Call, m: Move)
    requires Inv(s) && CallInv(s, c) && c.foreign && (KeyOf(c.phase).Some? || Over(c))
    ensures var (_, c') := Next(s, c, m);
      && c'.foreign && c'.attempt == c.attempt && c'.rereads == c.rereads
      && (KeyOf(c'.phase).Some? || Over(c'))
      && (KeyOf(c'.phase).Some? ==> KeyOf(c'.phase) == KeyOf(c.phase))
  {
    hide Equip, Discover, Withdraw, Rest, Others;
  }

  lemma {:induction false} ForeignStays(s: State, c: Call, moves: seq<Move>)
    requires Inv(s) && CallInv(s, c) && c.foreign && (KeyOf(c.phase).Some? || Over(c))
    ensures var (_, c') := Run(s, c, moves);
      && c'.foreign && c'.attempt == c.attempt && c'.rereads == c.rereads
      && (KeyOf(c'.phase).Some? || Over(c'))
    decreases |moves|
  {
    hide Inv, CallInv, Next, KeyOf, Over;
    if moves != [] {
      NextKeeps(s, c, moves[0]);
      ForeignGoes(s, c, moves[0]);
      var (s', c') := Next(s, c, moves[0]);
      ForeignStays(s', c', moves[1..]);
    }
  }

  /**
   * A call that takes a credential the application supplied ends in its token or in an error, with
   * no further re-read, whatever other threads do meanwhile.
   */
  lemma SuppliedSendsOrFails(s: State, c: Call, i: Input, moves: seq<Move>)
    requires Inv(s) && CallInv(s, c) && (c.phase.Taking? || c.phase.Locking?) && s.active.Some? && s.built != s.active
    ensures var (s1, c1) := Go(s, c, i);
      var (_, c2) := Run(s1, c1, moves);
      && KeyOf(c1.phase) == s.active
      && (Over(c2) ==> c2.phase.Sent? || c2.phase.Raised?)
      && c2.rereads == c.rereads && c2.attempt == c.attempt
  {
    hide Inv, CallInv, Run;
    var (s1, c1) := Go(s, c, i);
    NextKeeps(s, c, Mine(i));
    ForeignStays(s1, c1, moves);
    RunKeeps(s1, c1, moves);
    OwnOnlyEnds(Run(s1, c1, moves).0, Run(s1, c1, moves).1);
  }

  lemma OwnOnlyEnds(s: State, c: Call)
    requires CallInv(s, c)
    ensures c.foreign ==> !c.phase.Silent?
  {
  }
}
