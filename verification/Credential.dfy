// Which agent credential a call sends, and when it sends none
// (src/deepintshield/agentic/engine.py, `credential_info` to `agent_credential`, `decide`, `agent_token`
// and the provisional and optional credentials). Each function over `State` is one region under the
// credential lock, or one read outside of it; `Engine` is the object whose fields they update.

module Credential {
  import opened Common

  const DISCOVERY_TTL := 3600.0
  const FAILURE_TTL := 0.25
  const OPTIONAL_RETRY := 60.0

  // ---------------------------------------------------------------------------------------------
  // What the gateway, the credential builder and the credential can answer
  // ---------------------------------------------------------------------------------------------

  /** One credential-info answer; `id` is which object it is. */
  datatype Info = Info(id: nat, configured: bool, mode: bool, optional: bool, provisional: bool, pending: bool)

  /** Error codes: a pending registration, a key store not usable here, a refused runtime key, any other. */
  datatype Code = Pending | Unusable | AuthenticationFailed | OtherCode

  /** A governed error, with whether it came from enrolment or challenge; a missing module; anything else. */
  datatype Fault = Governed(code: Code, keyEndpoint: bool) | MissingModule | Unexpected

  /** A lookup: an answer, a configuration error (remembered for a moment), or any other failure. */
  datatype Lookup = Answered(info: Info) | Rejected(code: Code) | Unreached(fault: Fault)

  datatype Build = Built | NotBuilt(fault: Fault)

  datatype Exchange = Issued | Blank | NotIssued(fault: Fault)

  /** What one step meets; `unenrolled` is whether the credential says that it is not enrolled yet. */
  datatype Input = Input(
    off: bool, look: Lookup, build: Build, exchange: Exchange, unenrolled: bool, wall: real, mono: real)

  // ---------------------------------------------------------------------------------------------
  // The engine's credential fields
  // ---------------------------------------------------------------------------------------------

  /** Which credential object it is. */
  type Key = nat

  datatype State = State(
    info: Option<Info>, fetchedAt: real, failing: Option<Code>, failedAt: real,
    active: Option<Key>, provisional: Option<Key>, built: Option<Key>,
    restedAt: real, restedFor: Option<Info>, setAside: set<Key>, made: nat)

  const FRESH := State(None, 0.0, None, 0.0, None, None, None, 0.0, None, {}, 0)

  /** The answer is the provisional offer to a pending registration. */
  predicate Offer(a: Info) {
    a.provisional && a.pending
  }

  predicate NeedsNone(a: Info) {
    !a.configured && !a.mode
  }

  predicate Resting(s: State, a: Info, mono: real) {
    s.restedAt > 0.0 && s.restedFor == Some(a) && a.optional && mono - s.restedAt <= OPTIONAL_RETRY
  }

  function Rest(s: State, a: Info, mono: real): State {
    s.(restedAt := mono, restedFor := Some(a))
  }

  datatype Found = Found(info: Info) | Lost(fault: Fault)

  /** `credential_info`. */
  function Discover(s: State, i: Input): (State, Found) {
    if s.failing.Some? && i.mono - s.failedAt <= FAILURE_TTL then (s, Lost(Governed(s.failing.value, false)))
    else if s.info.Some? && i.wall - s.fetchedAt <= DISCOVERY_TTL then (s, Found(s.info.value))
    else
      match i.look
      case Answered(a) =>
        (s.(info := Some(a), fetchedAt := i.wall, failing := None, failedAt := 0.0), Found(a))
      case Rejected(code) => (s.(failing := Some(code), failedAt := i.mono), Lost(Governed(code, false)))
      case Unreached(fault) => (s, Lost(fault))
  }

  /** `_provisional_offer_pending`: the offer and its key go, as after a pending answer. */
  function Withdraw(s: State, a: Info, mono: real): State {
    var s := if s.info == Some(a)
      then s.(info := None, fetchedAt := 0.0, failing := Some(Pending), failedAt := mono) else s;
    s.(active := if s.active == s.provisional then None else s.active,
       built := if s.built == s.provisional then None else s.built,
       provisional := None)
  }

  datatype Held = Held(key: Key) | Bare(info: Info) | Missed(fault: Fault)

  /** `agent_credential`: the active credential, or one built now from the answer. */
  function Equip(s: State, i: Input): (State, Held) {
    if s.active.Some? then (s, Held(s.active.value))
    else
      var (s, found) := Discover(s, i);
      if found.Lost? then (s, Missed(found.fault))
      else
        var a := found.info;
        if NeedsNone(a) || Resting(s, a, i.mono) then (s, Bare(a))
        else
          match i.build
          case Built =>
            (s.(active := Some(s.made), provisional := if Offer(a) then Some(s.made) else None,
                built := Some(s.made), made := s.made + 1), Held(s.made))
          case NotBuilt(fault) =>
            if a.optional then (Rest(s, a, i.mono), Bare(a))
            else if fault.Governed? && Offer(a) && fault.code.Unusable?
              then (Withdraw(s, a, i.mono), Missed(Governed(Pending, false)))
            else (s, Missed(fault))
  }

  /** `set_agent_credential`: the application's own credential. */
  function Supply(s: State, key: Key): State {
    s.(active := Some(key), provisional := None, built := None, restedAt := 0.0, restedFor := None,
       setAside := s.setAside - {key}, made := if key < s.made then s.made else key + 1)
  }

  /** What `decide` does after a 401 or 403. */
  function Reset(s: State): State {
    s.(info := None, fetchedAt := 0.0, failing := None, failedAt := 0.0,
       active := None, provisional := None, built := None, restedAt := 0.0, restedFor := None)
  }

  function ForgetFailure(s: State): State {
    s.(failing := None, failedAt := 0.0)
  }

  /** `_set_aside_refused_provisional_key`. */
  function SetAside(s: State, key: Key, fault: Fault): (State, bool) {
    if !fault.Governed? || !fault.code.AuthenticationFailed? || !fault.keyEndpoint then (s, false)
    else if s.provisional == Some(key) then
      (s.(active := if s.active == Some(key) then None else s.active,
          built := if s.built == Some(key) then None else s.built,
          provisional := None, info := None, fetchedAt := 0.0, failing := None, failedAt := 0.0,
          setAside := s.setAside + {key}), true)
    else (s, key in s.setAside && s.active != Some(key))
  }

  // ---------------------------------------------------------------------------------------------
  // One authorization call, step by step
  // ---------------------------------------------------------------------------------------------

  /**
   * Why a call sends no token: Unbuilt: an optional credential that cannot be built or rests; Spared: one
   * that was built and gave no token or rests; Vanished: the credential was gone when it was read.
   */
  datatype Why = SecurityOff | NoAgent(info: Info) | Unbuilt(info: Info) | Spared(info: Info) | Vanished

  /**
   * Where a call of `agent_token(fail_closed=True)` is. From `Fresh` on: it tests for the credential
   * outside of the lock, and then reads it (Taking) or goes for the lock (Locking); tells whether the
   * engine built it and whether that rests; asks for a token; on a failure sets a refused key aside and
   * reads the answer again, or is excused by an optional answer, or finds the offer pending.
   */
  datatype Phase =
    | Entering
    | Fresh
    | Taking
    | Locking
    | Holding(key: Key)
    | Doubting(key: Key)
    | Asking(key: Key)
    | Refused(key: Key, fault: Fault)
    | Rereading(refused: Key)
    | Excusing(key: Key, fault: Fault, blank: bool)
    | Weighing(key: Key, fault: Fault, blank: bool)
    | Sparing(info: Info)
    | Falling(key: Key, fault: Fault)
    | Reading(key: Key, fault: Fault)
    | Withdrawing(info: Info)
    | Sent
    | Silent(why: Why)
    | Raised(fault: Fault)

  /** `foreign`: the credential it holds was not the engine's own when it took it. */
  datatype Call = Call(attempt: nat, rereads: nat, asked: nat, foreign: bool, phase: Phase)

  const NEW := Call(0, 0, 0, false, Entering)

  predicate Over(c: Call) {
    c.phase.Sent? || c.phase.Silent? || c.phase.Raised?
  }

  /** Errors leave the call translated. */
  function Translated(fault: Fault): Fault {
    if fault.Governed? then fault else Governed(OtherCode, false)
  }

  function Unexcused(key: Key, fault: Fault, blank: bool): Phase {
    if blank || !fault.Governed? then Raised(Translated(fault)) else Falling(key, fault)
  }

  function Go(s: State, c: Call, i: Input): (State, Call) {
    match c.phase
    case Entering => (s, c.(phase := if i.off then Silent(SecurityOff) else Fresh))
    case Fresh => (s, c.(phase := if s.active.Some? then Taking else Locking))
    case Taking =>
      (s, if s.active.None? then c.(phase := Silent(Vanished))
          else c.(phase := Holding(s.active.value), foreign := s.built != s.active))
    case Locking =>
      var (s, held) := Equip(s, i);
      (match held
       case Held(key) => (s, c.(phase := Holding(key), foreign := s.built != Some(key)))
       case Bare(a) => (s, c.(phase := Silent(if NeedsNone(a) then NoAgent(a) else Unbuilt(a))))
       case Missed(fault) => (s, c.(phase := Raised(Translated(fault)))))
    case Holding(key) => (s, c.(phase := if s.built == Some(key) then Doubting(key) else Asking(key)))
    case Doubting(key) =>
      (s, c.(phase := if s.info.Some? && Resting(s, s.info.value, i.mono) then Silent(Spared(s.info.value))
                      else Asking(key)))
    case Asking(key) =>
      (s, c.(asked := c.asked + 1,
             phase := match i.exchange
               case Issued => Sent
               case Blank => Excusing(key, Governed(OtherCode, false), true)
               case NotIssued(fault) => Refused(key, fault)))
    case Refused(key, fault) =>
      var (s', aside) := if c.attempt == 0 then SetAside(s, key, fault) else (s, false);
      (s', if aside then c.(rereads := c.rereads + 1, phase := Rereading(key))
           else c.(phase := Excusing(key, fault, false)))
    case Rereading(_) =>
      var (s, found) := Discover(s, i);
      (match found
       case Lost(fault) => (s, c.(phase := Raised(Translated(fault))))
       case Found(a) =>
         (s, if Offer(a) then c.(phase := Withdrawing(a))
             else c.(attempt := c.attempt + 1, foreign := false, phase := Fresh)))
    case Excusing(key, fault, blank) =>
      (s, c.(phase := if s.built == Some(key) then Weighing(key, fault, blank) else Unexcused(key, fault, blank)))
    case Weighing(key, fault, blank) =>
      (s, c.(phase := if s.info.Some? && s.info.value.optional then Sparing(s.info.value)
                      else Unexcused(key, fault, blank)))
    case Sparing(a) => (Rest(s, a, i.mono), c.(phase := Silent(Spared(a))))
    case Falling(key, fault) =>
      (s, c.(phase := if s.provisional == Some(key) && i.unenrolled then Reading(key, fault) else Raised(fault)))
    case Reading(key, fault) =>
      (s, c.(phase := if s.info.Some? && Offer(s.info.value) && fault.Governed? && fault.code.Unusable?
                      then Withdrawing(s.info.value) else Raised(Translated(fault))))
    case Withdrawing(a) => (Withdraw(s, a, i.mono), c.(phase := Raised(Governed(Pending, false))))
    case _ => (s, c)
  }

  /** The call's own steps, alone. */
  function GoAll(s: State, c: Call, inputs: seq<Input>): (State, Call) {
    if inputs == [] then (s, c)
    else
      var (s, c) := GoAll(s, c, inputs[..|inputs| - 1]);
      Go(s, c, inputs[|inputs| - 1])
  }

  lemma GoOn(s: State, c: Call, inputs: seq<Input>, i: Input)
    ensures var (s', c') := GoAll(s, c, inputs); GoAll(s, c, inputs + [i]) == Go(s', c', i)
  {
  }

  // ---------------------------------------------------------------------------------------------
  // The object
  // ---------------------------------------------------------------------------------------------

  /** The inputs are entries of the script, in its order, before a place in it. */
  ghost predicate Drawn(script: nat -> Input, inputs: seq<Input>, upto: nat)
    decreases |inputs|
  {
    if inputs == [] then true
    else
      exists n: nat :: n < upto && script(n) == inputs[|inputs| - 1] && Drawn(script, inputs[..|inputs| - 1], n)
  }

  /** Inputs of the script up to a place, in its order, lead to this state of the engine and of the call. */
  ghost predicate Led(script: nat -> Input, inputs: seq<Input>, upto: nat, s: State, s': State, c: Call) {
    Drawn(script, inputs, upto) && GoAll(s, NEW, inputs) == (s', c)
  }

  /** One more input for the call, from the next place on. */
  lemma Then(script: nat -> Input, inputs: seq<Input>, upto: nat, n: nat, s: State, s': State, c: Call)
    requires Led(script, inputs, upto, s, s', c) && upto <= n
    ensures Led(script, inputs + [script(n)], n + 1, s, Go(s', c, script(n)).0, Go(s', c, script(n)).1)
  {
    hide Go;
    GoOn(s, NEW, inputs, script(n));
    var longer := inputs + [script(n)];
    assert longer[..|longer| - 1] == inputs && longer[|longer| - 1] == script(n);
    DrawnLater(script, inputs, upto, n);
  }

  lemma DrawnLater(script: nat -> Input, inputs: seq<Input>, upto: nat, n: nat)
    requires Drawn(script, inputs, upto) && upto <= n
    ensures Drawn(script, inputs, n)
  {
  }

  lemma LedLater(script: nat -> Input, inputs: seq<Input>, upto: nat, n: nat, s: State, s': State, c: Call)
    requires Led(script, inputs, upto, s, s', c) && upto <= n
    ensures Led(script, inputs, n, s, s', c)
  {
    DrawnLater(script, inputs, upto, n);
  }

  class Engine {
    var info: Option<Info>
    var fetchedAt: real
    var failing: Option<Code>
    var failedAt: real
    var active: Option<Key>
    var provisional: Option<Key>
    var built: Option<Key>
    var restedAt: real
    var restedFor: Option<Info>
    var setAside: set<Key>
    var made: nat

    function View(): State reads this {
      State(info, fetchedAt, failing, failedAt, active, provisional, built, restedAt, restedFor, setAside, made)
    }

    constructor ()
      ensures View() == FRESH
    {
      info, fetchedAt, failing, failedAt := None, 0.0, None, 0.0;
      active, provisional, built, restedAt, restedFor, setAside, made := None, None, None, 0.0, None, {}, 0;
    }

    /** `credential_info`: the answer is kept for an hour, a configuration error for a moment. */
    method CredentialInfo(i: Input) returns (found: Found)
      modifies this
      ensures (View(), found) == Discover(old(View()), i)
    {
      if failing.Some? && i.mono - failedAt <= FAILURE_TTL {
        return Lost(Governed(failing.value, false));
      }
      if info.None? || i.wall - fetchedAt > DISCOVERY_TTL {
        match i.look {
          case Rejected(code) =>
            failing, failedAt := Some(code), i.mono;
            return Lost(Governed(code, false));
          case Unreached(fault) =>
            return Lost(fault);
          case Answered(a) =>
            info, fetchedAt, failing, failedAt := Some(a), i.wall, None, 0.0;
        }
      }
      found := Found(info.value);
    }

    method SetAgentCredential(key: Key)
      modifies this
      ensures View() == Supply(old(View()), key)
    {
      active, provisional := Some(key), None;
      built, restedAt, restedFor := None, 0.0, None;
      setAside := setAside - {key};
      made := if key < made then made else key + 1;
    }

    /** The reset of `decide` after a refused request. */
    method Refresh()
      modifies this
      ensures View() == Reset(old(View()))
    {
      info, fetchedAt, failing, failedAt := None, 0.0, None, 0.0;
      active, provisional := None, None;
      built, restedAt, restedFor := None, 0.0, None;
    }

    method OfferPending(a: Info, mono: real)
      modifies this
      ensures View() == Withdraw(old(View()), a, mono)
    {
      if info == Some(a) {
        info, fetchedAt, failing, failedAt := None, 0.0, Some(Pending), mono;
      }
      if active == provisional {
        active := None;
      }
      if built == provisional {
        built := None;
      }
      provisional := None;
    }

    method AgentCredential(i: Input) returns (held: Held)
      modifies this
      ensures (View(), held) == Equip(old(View()), i)
    {
      if active.Some? {
        return Held(active.value);
      }
      var found := CredentialInfo(i);
      if found.Lost? {
        return Missed(found.fault);
      }
      var a := found.info;
      if NeedsNone(a) || Resting(View(), a, i.mono) {
        return Bare(a);
      }
      if i.build.NotBuilt? {
        var fault := i.build.fault;
        if a.optional {
          restedAt, restedFor := i.mono, Some(a);
          return Bare(a);
        }
        if fault.Governed? && Offer(a) && fault.code.Unusable? {
          OfferPending(a, i.mono);
          return Missed(Governed(Pending, false));
        }
        return Missed(fault);
      }
      active, made := Some(made), made + 1;
      provisional := if Offer(a) then active else None;
      built := active;
      held := Held(active.value);
    }

    method SetAsideRefused(key: Key, fault: Fault) returns (aside: bool)
      modifies this
      ensures (View(), aside) == SetAside(old(View()), key, fault)
    {
      if !fault.Governed? || !fault.code.AuthenticationFailed? || !fault.keyEndpoint {
        return false;
      }
      if provisional == Some(key) {
        if active == Some(key) {
          active := None;
        }
        if built == Some(key) {
          built := None;
        }
        provisional, info, fetchedAt, failing, failedAt := None, None, 0.0, None, 0.0;
        setAside := setAside + {key};
      } else if key !in setAside || active == Some(key) {
        return false;
      }
      aside := true;
    }

    /** `_provisional_token_fallback`: a key that cannot be used here, and its offer, read as pending. */
    method FallBack(key: Key, fault: Fault, script: nat -> Input, from: nat,
        ghost s: State, ghost c: Call, ghost trace: seq<Input>)
      returns (outcome: Phase, ghost trace': seq<Input>)
      requires c.phase == Falling(key, fault) && fault.Governed? && Led(script, trace, from, s, View(), c)
      modifies this
      ensures Led(script, trace', from + 3, s, View(), c.(phase := outcome)) && Over(c.(phase := outcome))
    {
      hide Led;
      Then(script, trace, from, from, s, View(), c);
      trace' := trace + [script(from)];
      if provisional != Some(key) || !script(from).unenrolled {
        LedLater(script, trace', from + 1, from + 3, s, View(), c.(phase := Raised(fault)));
        return Raised(fault), trace';
      }
      Then(script, trace', from + 1, from + 1, s, View(), c.(phase := Reading(key, fault)));
      trace' := trace' + [script(from + 1)];
      if info.None? || !Offer(info.value) || !fault.code.Unusable? {
        LedLater(script, trace', from + 2, from + 3, s, View(), c.(phase := Raised(fault)));
        return Raised(fault), trace';
      }
      Then(script, trace', from + 2, from + 2, s, View(), c.(phase := Withdrawing(info.value)));
      trace' := trace' + [script(from + 2)];
      OfferPending(info.value, script(from + 2).mono);
      outcome := Raised(Governed(Pending, false));
    }

    /** What a failure of the credential leads to: an optional answer, a pending offer, or the error. */
    method Settle(key: Key, fault: Fault, blank: bool, script: nat -> Input, from: nat,
        ghost s: State, ghost c: Call, ghost trace: seq<Input>)
      returns (outcome: Phase, ghost trace': seq<Input>)
      requires c.phase == Excusing(key, fault, blank) && Led(script, trace, from, s, View(), c)
      modifies this
      ensures Led(script, trace', from + 5, s, View(), c.(phase := outcome)) && Over(c.(phase := outcome))
    {
      hide Led;
      Then(script, trace, from, from, s, View(), c);
      trace' := trace + [script(from)];
      if built == Some(key) {
        Then(script, trace', from + 1, from + 1, s, View(), c.(phase := Weighing(key, fault, blank)));
        trace' := trace' + [script(from + 1)];
        if info.Some? && info.value.optional {
          Then(script, trace', from + 2, from + 2, s, View(), c.(phase := Sparing(info.value)));
          trace' := trace' + [script(from + 2)];
          restedAt, restedFor := script(from + 2).mono, info;
          outcome := Silent(Spared(info.value));
          LedLater(script, trace', from + 3, from + 5, s, View(), c.(phase := outcome));
          return;
        }
      } else {
        LedLater(script, trace', from + 1, from + 2, s, View(), c.(phase := Unexcused(key, fault, blank)));
      }
      if blank || !fault.Governed? {
        outcome := Raised(Translated(fault));
        LedLater(script, trace', from + 2, from + 5, s, View(), c.(phase := outcome));
        return;
      }
      outcome, trace' := FallBack(key, fault, script, from + 2, s, c.(phase := Falling(key, fault)), trace');
    }

    /** The credential to use, unless there is none, or it rests. */
    method Take(script: nat -> Input, from: nat, ghost s: State, ghost c: Call, ghost trace: seq<Input>)
      returns (outcome: Phase, ghost c': Call, ghost trace': seq<Input>)
      requires c.phase == Fresh && Led(script, trace, from, s, View(), c)
      modifies this
      ensures Led(script, trace', from + 4, s, View(), c') && c' == c.(phase := outcome, foreign := c'.foreign)
      ensures outcome.Asking? || Over(c')
    {
      hide Led, Discover;
      Then(script, trace, from, from, s, View(), c);
      trace' := trace + [script(from)];
      c' := c.(phase := if active.Some? then Taking else Locking);
      Then(script, trace', from + 1, from + 1, s, View(), c');
      trace' := trace' + [script(from + 1)];
      var held := AgentCredential(script(from + 1));
      if held.Bare? || held.Missed? {
        outcome := if held.Missed? then Raised(Translated(held.fault))
          else Silent(if NeedsNone(held.info) then NoAgent(held.info) else Unbuilt(held.info));
        c' := c.(phase := outcome);
        LedLater(script, trace', from + 2, from + 4, s, View(), c');
        return;
      }
      c' := c.(phase := Holding(held.key), foreign := built != Some(held.key));
      outcome, c', trace' := Doubt(held.key, script, from + 2, s, c', trace');
    }

    /** Whether the engine built it, and whether it rests. */
    method Doubt(key: Key, script: nat -> Input, from: nat, ghost s: State, ghost c: Call, ghost trace: seq<Input>)
      returns (outcome: Phase, ghost c': Call, ghost trace': seq<Input>)
      requires c.phase == Holding(key) && Led(script, trace, from, s, View(), c)
      ensures Led(script, trace', from + 2, s, View(), c') && c' == c.(phase := outcome)
      ensures outcome ==
        if built == Some(key) && info.Some? && Resting(View(), info.value, script(from + 1).mono)
        then Silent(Spared(info.value)) else Asking(key)
    {
      hide Led;
      outcome := Asking(key);
      c' := c.(phase := outcome);
      Then(script, trace, from, from, s, View(), c);
      trace' := trace + [script(from)];
      if built == Some(key) {
        Then(script, trace', from + 1, from + 1, s, View(), c.(phase := Doubting(key)));
        trace' := trace' + [script(from + 1)];
        if info.Some? && Resting(View(), info.value, script(from + 1).mono) {
          outcome := Silent(Spared(info.value));
          c' := c.(phase := outcome);
        }
      } else {
        LedLater(script, trace', from + 1, from + 2, s, View(), c');
      }
    }

    /** `_reread_after_refused_provisional_key`: one more answer, which must not repeat the offer. */
    method Reread(script: nat -> Input, from: nat, ghost s: State, ghost c: Call, ghost trace: seq<Input>)
      returns (outcome: Phase, ghost c': Call, ghost trace': seq<Input>)
      requires c.phase.Rereading? && Led(script, trace, from, s, View(), c)
      modifies this
      ensures Led(script, trace', from + 2, s, View(), c')
      ensures if outcome.Fresh? then c' == c.(attempt := c.attempt + 1, foreign := false, phase := Fresh)
        else c' == c.(phase := outcome) && Over(c')
    {
      hide Led, Discover;
      Then(script, trace, from, from, s, View(), c);
      trace' := trace + [script(from)];
      var found := CredentialInfo(script(from));
      if found.Found? && Offer(found.info) {
        Then(script, trace', from + 1, from + 1, s, View(), c.(phase := Withdrawing(found.info)));
        trace' := trace' + [script(from + 1)];
        OfferPending(found.info, script(from + 1).mono);
        outcome := Raised(Governed(Pending, false));
        return outcome, c.(phase := outcome), trace';
      }
      if found.Lost? {
        outcome := Raised(Translated(found.fault));
        c' := c.(phase := outcome);
      } else {
        outcome, c' := Fresh, c.(attempt := c.attempt + 1, foreign := false, phase := Fresh);
      }
      LedLater(script, trace', from + 1, from + 2, s, View(), c');
    }

    /** A refused key of the engine's own offer is set aside, once; any other failure is settled. */
    method Fail(key: Key, fault: Fault, script: nat -> Input, from: nat, attempt: nat,
        ghost s: State, ghost c: Call, ghost trace: seq<Input>)
      returns (outcome: Phase, ghost c': Call, ghost trace': seq<Input>)
      requires c.phase == Refused(key, fault) && c.attempt == attempt && Led(script, trace, from, s, View(), c)
      modifies this
      ensures Led(script, trace', from + 6, s, View(), c') && c'.phase == outcome
      ensures if outcome.Fresh? then attempt == 0 && c'.attempt == 1 else Over(c')
    {
      hide Led, SetAside;
      Then(script, trace, from, from, s, View(), c);
      trace' := trace + [script(from)];
      var aside := false;
      if attempt == 0 {
        aside := SetAsideRefused(key, fault);
      }
      if aside {
        c' := c.(rereads := c.rereads + 1, phase := Rereading(key));
        outcome, c', trace' := Reread(script, from + 1, s, c', trace');
        LedLater(script, trace', from + 3, from + 6, s, View(), c');
      } else {
        c' := c.(phase := Excusing(key, fault, false));
        outcome, trace' := Settle(key, fault, false, script, from + 1, s, c', trace');
        c' := c'.(phase := outcome);
      }
    }

    /** `get_token`, and what follows from its answer. */
    method Ask(key: Key, script: nat -> Input, from: nat, attempt: nat,
        ghost s: State, ghost c: Call, ghost trace: seq<Input>)
      returns (outcome: Phase, ghost c': Call, ghost trace': seq<Input>)
      requires c.phase == Asking(key) && c.attempt == attempt && Led(script, trace, from, s, View(), c)
      modifies this
      ensures Led(script, trace', from + 7, s, View(), c') && c'.phase == outcome
      ensures if outcome.Fresh? then attempt == 0 && c'.attempt == 1 else Over(c')
    {
      hide Led;
      Then(script, trace, from, from, s, View(), c);
      trace' := trace + [script(from)];
      c' := c.(asked := c.asked + 1);
      match script(from).exchange {
        case Issued =>
          outcome, c' := Sent, c'.(phase := Sent);
          LedLater(script, trace', from + 1, from + 7, s, View(), c');
        case Blank =>
          c' := c'.(phase := Excusing(key, Governed(OtherCode, false), true));
          outcome, trace' := Settle(key, Governed(OtherCode, false), true, script, from + 1, s, c', trace');
          c' := c'.(phase := outcome);
          LedLater(script, trace', from + 6, from + 7, s, View(), c');
        case NotIssued(fault) =>
          c' := c'.(phase := Refused(key, fault));
          outcome, c', trace' := Fail(key, fault, script, from + 1, attempt, s, c', trace');
      }
    }

    /**
     * `agent_token(fail_closed=True)`: with nothing else at work, the loop takes the steps of a call
     * in its order, with what the script gives, in its order; it never runs into a third pass.
     */
    method AgentToken(script: nat -> Input)
      returns (outcome: Phase, ghost c: Call, ghost trace: seq<Input>)
      modifies this
      ensures Led(script, trace, 23, old(View()), View(), c) && c.phase == outcome && Over(c)
    {
      ghost var s := View();
      assert Led(script, [], 0, s, s, NEW);
      hide Led;
      Then(script, [], 0, 0, s, s, NEW);
      trace := [] + [script(0)];
      if script(0).off {
        outcome, c := Silent(SecurityOff), NEW.(phase := Silent(SecurityOff));
        LedLater(script, trace, 1, 23, s, View(), c);
        return;
      }
      c := NEW.(phase := Fresh);
      for attempt: nat := 0 to 2
        invariant attempt <= 1
        invariant Led(script, trace, 11 * attempt + 1, s, View(), c) && c.phase == Fresh && c.attempt == attempt
      {
        outcome, c, trace := Take(script, 11 * attempt + 1, s, c, trace);
        if !outcome.Asking? {
          LedLater(script, trace, 11 * attempt + 5, 23, s, View(), c);
          return;
        }
        outcome, c, trace := Ask(outcome.key, script, 11 * attempt + 5, attempt, s, c, trace);
        if !outcome.Fresh? {
          LedLater(script, trace, 11 * attempt + 12, 23, s, View(), c);
          return;
        }
      }
      assert false;
    }
  }
}
