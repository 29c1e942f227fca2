// Which credential is the provisional one, told by what happened, and the re-read after it is refused
// (src/deepintshield/agentic/engine.py).

module CredentialOffers {
  import opened Common
  import opened Credential
  import opened CredentialProtocol

  // ---------------------------------------------------------------------------------------------
  // What happens to credentials
  // ---------------------------------------------------------------------------------------------

  /**
   * Made: a credential was built from an answer. Supplied: the application gave its own. Cleared: a reset.
   * Refused: the key was refused at enrolment or challenge. Ended: the offer turned out to be pending.
   */
  datatype Event = Made(key: Key, info: Info) | Supplied(key: Key) | Cleared | Refused(key: Key) | Ended

  const KEY_REFUSED := Governed(AuthenticationFailed, true)

  /** Where there is no credential, one is built if the answer asks for one and it does not rest. */
  function Building(s: State, i: Input): seq<Event> {
    var (t, found) := Discover(s, i);
    if s.active.None? && found.Found? && (found.info.configured || found.info.mode)
      && !Resting(t, found.info, i.mono) && i.build.Built?
    then [Made(s.made, found.info)] else []
  }

  function Refusing(key: Key, fault: Fault): seq<Event> {
    if fault == KEY_REFUSED then [Event.Refused(key)] else []
  }

  function EventsOf(s: State, c: Call, m: Move): seq<Event> {
    match m
    case Prepare(i) => Building(s, i)
    case Override(key) => [Supplied(key)]
    case Refresh => [Cleared]
    case Aside(key, fault) => Refusing(key, fault)
    case Retract(_, _) => [Ended]
    case Mine(i) =>
      (match c.phase
       case Locking => Building(s, i)
       case Refused(key, fault) => if c.attempt == 0 then Refusing(key, fault) else []
       case Withdrawing(_) => [Ended]
       case _ => [])
    case _ => []
  }

  // ---------------------------------------------------------------------------------------------
  // What that leaves
  // ---------------------------------------------------------------------------------------------

  /** `offered`: the credential of a provisional offer, as long as it stands. */
  datatype Account = Account(active: Option<Key>, built: Option<Key>, offered: Option<Key>, aside: set<Key>)

  const NONE := Account(None, None, None, {})

  /** The offer with its credential is gone. */
  function Dropped(a: Account): Account {
    if a.offered.Some? then a.(active := None, built := None, offered := None) else a
  }

  function After(a: Account, e: Event): Account {
    match e
    case Made(key, info) =>
      a.(active := Some(key), built := Some(key),
         offered := if info.provisional && info.pending then Some(key) else None)
    case Supplied(key) => Account(Some(key), None, None, a.aside - {key})
    case Cleared => Account(None, None, None, a.aside)
    case Refused(key) => if a.offered == Some(key) then Dropped(a).(aside := a.aside + {key}) else a
    case Ended => Dropped(a)
  }

  function Tally(a: Account, events: seq<Event>): Account
    decreases |events|
  {
    if events == [] then a else Tally(After(a, events[0]), events[1..])
  }

  /** What happens on a run. */
  function History(s: State, c: Call, moves: seq<Move>): seq<Event>
    decreases |moves|
  {
    if moves == [] then []
    else
      var (s', c') := Next(s, c, moves[0]);
      EventsOf(s, c, moves[0]) + History(s', c', moves[1..])
  }

  function AccountOf(s: State): Account {
    Account(s.active, s.built, s.provisional, s.setAside)
  }

  lemma {:induction false} TallyConcat(a: Account, first: seq<Event>, rest: seq<Event>)
    ensures Tally(a, first + rest) == Tally(Tally(a, first), rest)
    decreases |first|
  {
    if first == [] {
      assert first + rest == rest;
    } else {
      assert (first + rest)[1..] == first[1..] + rest;
      TallyConcat(After(a, first[0]), first[1..], rest);
    }
  }

  lemma TallyOne(a: Account, e: Event)
    ensures Tally(a, [e]) == After(a, e) && Tally(a, []) == a
  {
    assert [e][1..] == [];
  }

  /** Building is what the engine does under its lock. */
  lemma EquipTallies(s: State, i: Input)
    requires Linked(s)
    ensures AccountOf(Equip(s, i).0) == Tally(AccountOf(s), Building(s, i))
  {
    if Building(s, i) != [] {
      TallyOne(AccountOf(s), Building(s, i)[0]);
    }
  }

  lemma SetAsideTallies(s: State, key: Key, fault: Fault)
    requires Linked(s)
    ensures AccountOf(SetAside(s, key, fault).0) == Tally(AccountOf(s), Refusing(key, fault))
  {
    TallyOne(AccountOf(s), Event.Refused(key));
  }

  lemma WithdrawTallies(s: State, a: Info, mono: real)
    requires Linked(s)
    ensures AccountOf(Withdraw(s, a, mono)) == Tally(AccountOf(s), [Ended])
  {
    TallyOne(AccountOf(s), Ended);
  }

  lemma DiscoverKeeps(s: State, i: Input)
    ensures AccountOf(Discover(s, i).0) == AccountOf(s)
  {
  }

  lemma MineTallies(s: State, c: Call, i: Input)
    requires Linked(s)
    ensures AccountOf(Go(s, c, i).0) == Tally(AccountOf(s), EventsOf(s, c, Mine(i)))
  {
    hide Equip, SetAside, Withdraw, Discover, Tally, Building, Refusing;
    TallyOne(AccountOf(s), Ended);
    DiscoverKeeps(s, i);
    match c.phase {
      case Locking => EquipTallies(s, i);
      case Refused(key, fault) => SetAsideTallies(s, key, fault);
      case Withdrawing(a) => WithdrawTallies(s, a, i.mono);
      case _ =>
    }
  }

  lemma NextTallies(s: State, c: Call, m: Move)
    requires Linked(s)
    ensures AccountOf(Next(s, c, m).0) == Tally(AccountOf(s), EventsOf(s, c, m))
  {
    hide Equip, SetAside, Withdraw, Discover, Tally, Building, Refusing, Go;
    TallyOne(AccountOf(s), Cleared);
    match m {
      case Mine(i) => MineTallies(s, c, i);
      case Look(i) => DiscoverKeeps(s, i);
      case Prepare(i) => EquipTallies(s, i);
      case Override(key) => TallyOne(AccountOf(s), Supplied(key));
      case Aside(key, fault) => SetAsideTallies(s, key, fault);
      case Retract(a, mono) => WithdrawTallies(s, a, mono);
      case _ =>
    }
  }

  lemma {:induction false} RunTallies(s: State, c: Call, moves: seq<Move>)
    requires Inv(s) && CallInv(s, c)
    ensures AccountOf(Run(s, c, moves).0) == Tally(AccountOf(s), History(s, c, moves))
    decreases |moves|
  {
    hide CallInv, Next, Tally, EventsOf, AccountOf;
    if moves == [] {
      TallyOne(AccountOf(s), Cleared);
    } else {
      var (s', c') := Next(s, c, moves[0]);
      NextKeeps(s, c, moves[0]);
      NextTallies(s, c, moves[0]);
      RunTallies(s', c', moves[1..]);
      TallyConcat(AccountOf(s), EventsOf(s, c, moves[0]), History(s', c', moves[1..]));
    }
  }

  // ---------------------------------------------------------------------------------------------
  // Main results
  // ---------------------------------------------------------------------------------------------

  /** Everything that happened before a call that begins in the middle of a run, and during it. */
  function WholeHistory(before: seq<Move>, moves: seq<Move>): seq<Event> {
    History(FRESH, NEW, before) + History(Run(FRESH, NEW, before).0, NEW, moves)
  }

  /**
   * On every run the credential fields say what happened: the provisional one is the last that was built
   * from a provisional offer to a pending registration, until it is overridden, reset, set aside or withdrawn.
   */
  lemma CredentialsTellHistory(before: seq<Move>, moves: seq<Move>)
    ensures var s := Run(Run(FRESH, NEW, before).0, NEW, moves).0;
      AccountOf(s) == Tally(NONE, WholeHistory(before, moves))
  {
    hide Run, History, Tally;
    RunKeeps(FRESH, NEW, before);
    RunTallies(FRESH, NEW, before);
    var s := Run(FRESH, NEW, before).0;
    assert CallInv(s, NEW);
    RunTallies(s, NEW, moves);
    TallyConcat(NONE, History(FRESH, NEW, before), History(s, NEW, moves));
  }

  /**
   * On every run: a token refused at a key endpoint leads to a second reading of the settings if and only
   * if it is the first of its call, and its key is that of the standing offer, or one that was set
   * aside and is not the active one.
   */
  lemma RefusalRereadsExactlyWhen(before: seq<Move>, moves: seq<Move>, i: Input)
    ensures var (s, c) := Run(Run(FRESH, NEW, before).0, NEW, moves);
      var a := Tally(NONE, WholeHistory(before, moves));
      c.phase.Refused? ==>
        var key := c.phase.key;
        (Go(s, c, i).1.phase.Rereading? <==>
          && c.attempt == 0 && c.phase.fault == KEY_REFUSED
          && (a.offered == Some(key) || (key in a.aside && a.active != Some(key))))
  {
    hide Run, History, Tally;
    CredentialsTellHistory(before, moves);
  }

  // ---------------------------------------------------------------------------------------------
  // What decides about a lookup, a build and a failure
  // ---------------------------------------------------------------------------------------------

  /** An answer is used for an hour and an error for a quarter of a second; otherwise the gateway is asked. */
  lemma LookupAsks(s: State, i: Input)
    ensures var (t, found) := Discover(s, i);
      var fails := s.failing.Some? && i.mono - s.failedAt <= 0.25;
      var cached := s.info.Some? && i.wall - s.fetchedAt <= 3600.0;
      && (fails ==> t == s && found == Lost(Governed(s.failing.value, false)))
      && (!fails && cached ==> t == s && found == Found(s.info.value))
      && (!fails && !cached && i.look.Answered? ==>
        && found == Found(i.look.info) && t.info == Some(i.look.info) && t.fetchedAt == i.wall && t.failing.None?)
      && (!fails && !cached && i.look.Rejected? ==>
        && found == Lost(Governed(i.look.code, false)) && t.failing == Some(i.look.code) && t.failedAt == i.mono
        && t.info == s.info)
      && (!fails && !cached && i.look.Unreached? ==> t == s && found == Lost(i.look.fault))
  {
  }

  /** A credential that there is, or one built now; without one, the answer that excuses it, or an error. */
  lemma CredentialIsGiven(s: State, i: Input)
    ensures var (t, held) := Equip(s, i);
      var (u, found) := Discover(s, i);
      && (held.Held? <==> s.active.Some? || Building(s, i) != [])
      && (s.active.Some? ==> held == Held(s.active.value) && t == s)
      && (s.active.None? && held.Held? ==> held.key == s.made && t.active == t.built == Some(s.made))
      && (held.Bare? <==>
        && s.active.None? && found.Found?
        && ((!found.info.configured && !found.info.mode)
            || (found.info.optional && (Resting(u, found.info, i.mono) || i.build.NotBuilt?))))
      && (held.Bare? ==> held.info == found.info)
  {
  }

  /** The failure of a token is excused exactly by the cached answer, for a credential that was built. */
  lemma FailureIsExcused(s: State, c: Call, i: Input)
    requires c.phase.Excusing?
    ensures var p := c.phase;
      var c1 := Go(s, c, i).1;
      var c2 := Go(s, c1, i).1;
      if s.built == Some(p.key) && s.info.Some? && s.info.value.optional then c2.phase == Sparing(s.info.value)
      else
        var last := if c1.phase.Weighing? then c2.phase else c1.phase;
        if p.blank || !p.fault.Governed? then last.Raised? else last == Falling(p.key, p.fault)
  {
  }

  /** What is not excused is raised, unless it is the key of the standing offer that the gateway does not know yet. */
  lemma FailureIsRaised(s: State, c: Call, i: Input)
    requires c.phase.Falling?
    ensures var p := c.phase;
      var c1 := Go(s, c, i).1;
      var c2 := Go(s, c1, i).1;
      var pending := && s.provisional == Some(p.key) && i.unenrolled
        && s.info.Some? && s.info.value.provisional && s.info.value.pending
        && p.fault.Governed? && p.fault.code.Unusable?;
      if pending then c2.phase == Withdrawing(s.info.value)
      else (if c1.phase.Reading? then c2.phase else c1.phase) in {Raised(p.fault), Raised(Translated(p.fault))}
  {
  }

  // ---------------------------------------------------------------------------------------------
  // An offer that turned out to be pending
  // ---------------------------------------------------------------------------------------------

  /** What was said last is that the registration is pending, at that time. */
  predicate SaysPending(s: State, since: real) {
    s.failing == Some(Pending) && s.failedAt == since && s.info.None? && s.provisional.None?
  }

  /** Within a quarter of a second, and no reset. */
  predicate Soon(m: Move, since: real) {
    match m
    case Mine(i) => i.mono - since <= 0.25
    case Look(i) => i.mono - since <= 0.25
    case Prepare(i) => i.mono - since <= 0.25
    case Refresh => false
    case Clear => false
    case _ => true
  }

  lemma StaysPending(s: State, c: Call, m: Move, since: real)
    requires SaysPending(s, since) && Soon(m, since)
    ensures SaysPending(Next(s, c, m).0, since)
  {
  }

  lemma {:induction false} PendingLasts(s: State, c: Call, moves: seq<Move>, since: real)
    requires SaysPending(s, since) && forall m <- moves :: Soon(m, since)
    ensures SaysPending(Run(s, c, moves).0, since)
    decreases |moves|
  {
    hide SaysPending, Next, Soon;
    if moves != [] {
      StaysPending(s, c, moves[0], since);
      PendingLasts(Next(s, c, moves[0]).0, Next(s, c, moves[0]).1, moves[1..], since);
    }
  }

  /**
   * The answer of an offer that ended reads as a pending registration for a quarter of a second, for every
   * lookup of every thread, and the gateway is asked by the next one after that.
   */
  lemma EndedOfferReadsPending(s: State, a: Info, since: real, c: Call, moves: seq<Move>, i: Input)
    requires s.info == Some(a) && forall m <- moves :: Soon(m, since)
    ensures var final := Run(Withdraw(s, a, since), c, moves).0;
      Discover(final, i).1 ==
        if i.mono - since <= 0.25 then Lost(Governed(Pending, false))
        else match i.look {
          case Answered(b) => Found(b)
          case Rejected(code) => Lost(Governed(code, false))
          case Unreached(fault) => Lost(fault)
        }
  {
    PendingLasts(Withdraw(s, a, since), c, moves, since);
  }

  // ---------------------------------------------------------------------------------------------
  // An approval that ends an offer
  // ---------------------------------------------------------------------------------------------

  /** One step of a call, at one time: what it meets. */
  function Meets(look: Info, exchange: Exchange): Input {
    Input(false, Answered(look), Built, exchange, false, 0.0, 0.0)
  }

  lemma {:induction false} RunOn(s: State, c: Call, moves: seq<Move>, m: Move)
    ensures Run(s, c, moves + [m]) == Next(Run(s, c, moves).0, Run(s, c, moves).1, m)
    decreases |moves|
  {
    hide Next;
    if moves == [] {
      assert Run(Next(s, c, m).0, Next(s, c, m).1, []) == Next(s, c, m) && ([] + [m])[1..] == [];
    } else {
      assert (moves + [m])[1..] == moves[1..] + [m] && (moves + [m])[0] == moves[0];
      RunOn(Next(s, c, moves[0]).0, Next(s, c, moves[0]).1, moves[1..], m);
    }
  }

  /** The call after n of its steps, and the engine. */
  ghost predicate Approving(offer: Info, answer: Info, n: nat, s: State, c: Call) {
    var second := Call(1, 1, 1, false, Fresh);
    match n
    case 0 => s == FRESH && c == NEW
    case 1 => s == FRESH && c == NEW.(phase := Fresh)
    case 2 => s == FRESH && c == NEW.(phase := Locking)
    case 3 => HasOffer(offer, s) && c == NEW.(phase := Holding(0))
    case 4 => HasOffer(offer, s) && c == NEW.(phase := Doubting(0))
    case 5 => HasOffer(offer, s) && c == NEW.(phase := Asking(0))
    case 6 => HasOffer(offer, s) && c == NEW.(asked := 1, phase := Phase.Refused(0, KEY_REFUSED))
    case 7 => HasDropped(s) && c == Call(0, 1, 1, false, Rereading(0))
    case 8 => HasReread(answer, s) && c == second
    case 9 => HasReread(answer, s) && c == second.(phase := Locking)
    case 10 => HasAnswer(answer, s) && c == second.(phase := Holding(1))
    case 11 => HasAnswer(answer, s) && c == second.(phase := Doubting(1))
    case 12 => HasAnswer(answer, s) && c == second.(phase := Asking(1))
    case _ => HasAnswer(answer, s) && c == second.(asked := 2, phase := Sent)
  }

  predicate HasOffer(offer: Info, s: State) {
    s == State(Some(offer), 0.0, None, 0.0, Some(0), Some(0), Some(0), 0.0, None, {}, 1)
  }

  predicate HasDropped(s: State) {
    s == State(None, 0.0, None, 0.0, None, None, None, 0.0, None, {0}, 1)
  }

  predicate HasReread(answer: Info, s: State) {
    s == State(Some(answer), 0.0, None, 0.0, None, None, None, 0.0, None, {0}, 1)
  }

  predicate HasAnswer(answer: Info, s: State) {
    s == State(Some(answer), 0.0, None, 0.0, Some(1), None, Some(1), 0.0, None, {0}, 2)
  }

  function StepInput(offer: Info, answer: Info, n: nat): Input {
    if n < 7 then Meets(offer, NotIssued(KEY_REFUSED)) else Meets(answer, Issued)
  }

  lemma FirstHalf(offer: Info, answer: Info, n: nat, s: State, c: Call)
    requires n < 7 && Approving(offer, answer, n, s, c) && offer.provisional && offer.pending && !NeedsNone(offer)
    ensures var (s', c') := Go(s, c, StepInput(offer, answer, n)); Approving(offer, answer, n + 1, s', c')
  {
  }

  lemma SecondHalf(offer: Info, answer: Info, n: nat, s: State, c: Call)
    requires 7 <= n < 13 && Approving(offer, answer, n, s, c)
    requires !(answer.provisional && answer.pending) && !NeedsNone(answer)
    ensures var (s', c') := Go(s, c, StepInput(offer, answer, n)); Approving(offer, answer, n + 1, s', c')
  {
  }

  /**
   * From a fresh engine: the key of a provisional offer is refused, because the registration was approved;
   * the settings are read again, and the call goes out with a credential of the new answer.
   */
  lemma ApprovalIsNoticed(offer: Info, answer: Info) returns (moves: seq<Move>)
    requires offer.provisional && offer.pending && !NeedsNone(offer)
    requires !(answer.provisional && answer.pending) && !NeedsNone(answer)
    ensures var (s, c) := Run(FRESH, NEW, moves);
      c == Call(1, 1, 2, false, Sent) && s.active == s.built == Some(1) && s.provisional == None && s.setAside == {0}
    ensures forall m <- moves :: m.Mine?
  {
    hide Run, Go, Approving, StepInput;
    moves := [];
    assert Run(FRESH, NEW, []) == (FRESH, NEW) && Approving(offer, answer, 0, FRESH, NEW) by {
      ApprovingStarts(offer, answer);
    }
    for n := 0 to 13
      invariant forall m <- moves :: m.Mine?
      invariant var (s, c) := Run(FRESH, NEW, moves); Approving(offer, answer, n, s, c)
    {
      var (s, c) := Run(FRESH, NEW, moves);
      var m := Mine(StepInput(offer, answer, n));
      RunOn(FRESH, NEW, moves, m);
      if n < 7 {
        FirstHalf(offer, answer, n, s, c);
      } else {
        SecondHalf(offer, answer, n, s, c);
      }
      moves := moves + [m];
    }
    ApprovingEnds(offer, answer, Run(FRESH, NEW, moves).0, Run(FRESH, NEW, moves).1);
  }

  lemma ApprovingStarts(offer: Info, answer: Info)
    ensures Run(FRESH, NEW, []) == (FRESH, NEW) && Approving(offer, answer, 0, FRESH, NEW)
  {
  }

  lemma ApprovingEnds(offer: Info, answer: Info, s: State, c: Call)
    requires Approving(offer, answer, 13, s, c)
    ensures c == Call(1, 1, 2, false, Sent)
    ensures s.active == s.built == Some(1) && s.provisional == None && s.setAside == {0}
  {
  }
}
