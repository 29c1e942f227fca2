// The registry of Gemini context caches (src/deepintshield/_gemini_cache.py, `GeminiCacheManager`).

module GeminiCache {
  import opened Common

  /** The hash of a prefix; empty when there is nothing to cache. */
  type Prefix = string

  datatype Entry = Entry(name: string, expires: int)

  /** A creation: claimed by a caller, and then in the pool. */
  datatype Flight = Flight(prefix: Prefix, submitted: bool)

  /**
   * What a creation gave: a name and its lifetime in seconds; nothing, also after an ordinary
   * exception; or an exception that is none of these (an exit, a cancellation).
   */
  datatype Creation = Created(name: string, ttl: int) | NotCreated | Aborted

  /** A cache that was created: for which prefix, under which name, and until when it is remembered. */
  datatype Made = Made(prefix: Prefix, entry: Entry)

  // ---------------------------------------------------------------------------------------------
  // The registry
  // ---------------------------------------------------------------------------------------------

  class Manager {
    const ttl: int
    const minimum: int
    var entries: map<Prefix, Entry>
    var pending: set<Prefix>

    constructor (ttl: int, minimum: int)
      ensures this.ttl == (if ttl < 60 then 60 else ttl) && this.minimum == (if minimum < 0 then 0 else minimum)
      ensures entries == map[] && pending == {}
    {
      this.ttl := if ttl < 60 then 60 else ttl;
      this.minimum := if minimum < 0 then 0 else minimum;
      entries, pending := map[], {};
    }

    function View(): Registry reads this {
      Registry(entries, pending)
    }

    /** `lookup_active`: an entry found expired is dropped. */
    method LookupActive(prefix: Prefix, now: int) returns (name: Option<string>)
      modifies this`entries
      ensures (View(), name) == Lookup(old(View()), prefix, now)
    {
      if prefix == "" || prefix !in entries {
        return None;
      }
      var entry := entries[prefix];
      if now >= entry.expires {
        entries := entries - {prefix};
        return None;
      }
      name := Some(entry.name);
    }

    method Remember(prefix: Prefix, name: string, ttl: int, now: int)
      modifies this
      ensures View() == Keep(old(View()), prefix, name, ttl, now)
    {
      if prefix == "" || name == "" {
        return;
      }
      entries := entries[prefix := Entry(name, now + ttl * 1000)];
      pending := pending - {prefix};
    }

    method Forget(prefix: Prefix)
      modifies this
      ensures View() == Drop(old(View()), prefix)
    {
      entries := entries - {prefix};
      pending := pending - {prefix};
    }

    method MarkPending(prefix: Prefix) returns (mine: bool)
      modifies this`pending
      ensures (View(), mine) == Claim(old(View()), prefix)
    {
      if prefix == "" || prefix in pending || prefix in entries {
        return false;
      }
      pending := pending + {prefix};
      mine := true;
    }

    /**
     * `attach`, with nothing else at work: the caller's own cache, or the one kept for the prefix;
     * otherwise nothing, and a creation for later calls when the prefix is large enough.
     */
    method Attach(existing: string, prefix: Prefix, estimate: Option<int>, now: int)
      returns (name: Option<string>, create: bool)
      requires NoEmptyName()
      modifies this
      ensures existing != "" ==> name == Some(existing) && View() == old(View())
      ensures existing == "" ==> name == Lookup(old(View()), prefix, now).1
      ensures create <==>
        && existing == "" && prefix != "" && name.None? && prefix !in old(pending)
        && (estimate.Some? ==> estimate.value >= minimum)
      ensures create ==> prefix in pending
      ensures forall p | p in old(entries) && p != prefix :: p in entries && entries[p] == old(entries)[p]
      ensures forall p | p != prefix :: p in pending <==> p in old(pending)
      ensures NoEmptyName()
    {
      create := false;
      if existing != "" {
        return Some(existing), false;
      }
      if prefix == "" {
        return None, false;
      }
      name := LookupActive(prefix, now);
      if name.Some? || (estimate.Some? && estimate.value < minimum) {
        return;
      }
      create := MarkPending(prefix);
    }

    predicate NoEmptyName() reads this {
      forall p <- entries :: entries[p].name != ""
    }
  }

  datatype Registry = Registry(entries: map<Prefix, Entry>, pending: set<Prefix>)

  function Lookup(r: Registry, prefix: Prefix, now: int): (Registry, Option<string>) {
    if prefix == "" || prefix !in r.entries then (r, None)
    else if now >= r.entries[prefix].expires then (r.(entries := r.entries - {prefix}), None)
    else (r, Some(r.entries[prefix].name))
  }

  function Keep(r: Registry, prefix: Prefix, name: string, ttl: int, now: int): Registry {
    if prefix == "" || name == "" then r
    else r.(entries := r.entries[prefix := Entry(name, now + ttl * 1000)], pending := r.pending - {prefix})
  }

  function Drop(r: Registry, prefix: Prefix): Registry {
    r.(entries := r.entries - {prefix}, pending := r.pending - {prefix})
  }

  function Claim(r: Registry, prefix: Prefix): (Registry, bool) {
    if prefix == "" || prefix in r.pending || prefix in r.entries then (r, false)
    else (r.(pending := r.pending + {prefix}), true)
  }

  // ---------------------------------------------------------------------------------------------
  // Interleavings
  // ---------------------------------------------------------------------------------------------

  /**
   * The registry with the creations on their way; `lost` are claims whose creation will never report:
   * the pool refused it, or it gave an empty name, or it was aborted.
   */
  datatype World = World(registry: Registry, flights: seq<Flight>, lost: set<Prefix>, made: set<Made>)

  const FRESH := World(Registry(map[], {}), [], {}, {})

  /** A region of one call of `attach` or of one creation in the pool. */
  datatype Step =
    | Look(prefix: Prefix, now: int)
    | Mark(prefix: Prefix)
    | Submit(flight: nat, accepted: bool)
    | Report(flight: nat, creation: Creation, now: int)

  predicate Enabled(w: World, step: Step) {
    match step
    case Submit(i, _) => i < |w.flights| && !w.flights[i].submitted
    case Report(i, _, _) => i < |w.flights| && w.flights[i].submitted
    case _ => true
  }

  function Without(flights: seq<Flight>, i: nat): seq<Flight>
    requires i < |flights|
  {
    flights[..i] + flights[i + 1..]
  }

  function Apply(w: World, step: Step): World
    requires Enabled(w, step)
  {
    match step
    case Look(prefix, now) => w.(registry := Lookup(w.registry, prefix, now).0)
    case Mark(prefix) =>
      var (registry, mine) := Claim(w.registry, prefix);
      w.(registry := registry, flights := w.flights + if mine then [Flight(prefix, false)] else [])
    case Submit(i, accepted) =>
      if accepted then w.(flights := w.flights[i := w.flights[i].(submitted := true)])
      else w.(flights := Without(w.flights, i), lost := w.lost + {w.flights[i].prefix})
    case Report(i, creation, now) =>
      var prefix := w.flights[i].prefix;
      match creation
      case Aborted => w.(flights := Without(w.flights, i), lost := w.lost + {prefix})
      case NotCreated => w.(registry := Drop(w.registry, prefix), flights := Without(w.flights, i))
      case Created(name, ttl) =>
        if name == "" then w.(flights := Without(w.flights, i), lost := w.lost + {prefix})
        else w.(registry := Keep(w.registry, prefix, name, ttl, now), flights := Without(w.flights, i),
          made := w.made + {Made(prefix, Entry(name, now + ttl * 1000))})
  }

  predicate InFlight(flights: seq<Flight>, prefix: Prefix) {
    exists f <- flights :: f.prefix == prefix
  }

  /** One creation for a prefix; pending are exactly those on their way, and the lost ones. */
  ghost predicate Claims(w: World) {
    && (forall i, j | 0 <= i < j < |w.flights| :: w.flights[i].prefix != w.flights[j].prefix)
    && (forall f <- w.flights :: f.prefix != "" && f.prefix !in w.lost)
    && forall p: Prefix :: p in w.registry.pending <==> InFlight(w.flights, p) || p in w.lost
  }

  /** Each entry was made for its own prefix, and nothing is created for a prefix that has one. */
  ghost predicate Entries(w: World) {
    && w.registry.entries.Keys !! w.registry.pending
    && forall p <- w.registry.entries ::
         Made(p, w.registry.entries[p]) in w.made && w.registry.entries[p].name != ""
  }

  ghost predicate Inv(w: World) {
    Claims(w) && Entries(w)
  }

  lemma FlightGone(flights: seq<Flight>, i: nat, p: Prefix)
    requires i < |flights| && forall j, k | 0 <= j < k < |flights| :: flights[j].prefix != flights[k].prefix
    ensures InFlight(Without(flights, i), p) <==> InFlight(flights, p) && p != flights[i].prefix
  {
  }

  lemma SubmitKeepsClaims(w: World, i: nat, accepted: bool)
    requires Inv(w) && Enabled(w, Submit(i, accepted))
    ensures Claims(Apply(w, Submit(i, accepted)))
  {
    var w' := Apply(w, Submit(i, accepted));
    var prefix := w.flights[i].prefix;
    assert InFlight(w.flights, prefix);
    forall p: Prefix
      ensures InFlight(w'.flights, p) <==> InFlight(w.flights, p) && (accepted || p != prefix)
    {
      SubmitFlight(w.flights, i, p);
      FlightGone(w.flights, i, p);
    }
    hide InFlight;
  }

  /** The creation ends, with or without its claim. */
  lemma ReportKeepsClaims(w: World, i: nat, registry: Registry, lost: set<Prefix>, made: set<Made>)
    requires Inv(w) && i < |w.flights|
    requires registry.pending == w.registry.pending - ({w.flights[i].prefix} - lost)
    requires lost == w.lost || lost == w.lost + {w.flights[i].prefix}
    ensures Claims(World(registry, Without(w.flights, i), lost, made))
  {
    var prefix := w.flights[i].prefix;
    assert InFlight(w.flights, prefix);
    forall p: Prefix
      ensures InFlight(Without(w.flights, i), p) <==> InFlight(w.flights, p) && p != prefix
    {
      FlightGone(w.flights, i, p);
    }
    hide InFlight;
  }

  lemma StepKeepsClaims(w: World, step: Step)
    requires Inv(w) && Enabled(w, step)
    ensures Claims(Apply(w, step))
  {
    hide Claims, Without, Entries;
    match step {
      case Look(prefix, now) => SameClaims(w, Apply(w, step));
      case Mark(prefix) => MarkKeepsClaims(w, prefix);
      case Submit(i, accepted) => SubmitKeepsClaims(w, i, accepted);
      case Report(i, creation, now) =>
        var w' := Apply(w, step);
        NamedFlight(w, i);
        ReportKeepsClaims(w, i, w'.registry, w'.lost, w'.made);
    }
  }

  lemma NamedFlight(w: World, i: nat)
    requires Claims(w) && i < |w.flights|
    ensures w.flights[i].prefix != "" && w.flights[i].prefix !in w.lost
  {
  }

  lemma SameClaims(w: World, w': World)
    requires Claims(w) && w'.registry.pending == w.registry.pending && w'.flights == w.flights && w'.lost == w.lost
    ensures Claims(w')
  {
  }

  lemma SubmitFlight(flights: seq<Flight>, i: nat, p: Prefix)
    requires i < |flights|
    ensures InFlight(flights[i := flights[i].(submitted := true)], p) <==> InFlight(flights, p)
  {
    var after := flights[i := flights[i].(submitted := true)];
    assert forall j | 0 <= j < |flights| :: after[j].prefix == flights[j].prefix;
  }

  lemma MarkKeepsClaims(w: World, prefix: Prefix)
    requires Inv(w)
    ensures Claims(Apply(w, Mark(prefix)))
  {
  }

  lemma StepKeepsEntries(w: World, step: Step)
    requires Inv(w) && Enabled(w, step)
    ensures Entries(Apply(w, step))
  {
  }

  ghost predicate Leads(w: World, steps: seq<Step>, w': World)
    decreases |steps|
  {
    if steps == [] then w' == w else Enabled(w, steps[0]) && Leads(Apply(w, steps[0]), steps[1..], w')
  }

  lemma {:induction false} RunKeeps(w: World, steps: seq<Step>, w': World)
    requires Inv(w) && Leads(w, steps, w')
    ensures Inv(w')
    decreases |steps|
  {
    hide Claims, Entries, Apply, Enabled;
    if steps != [] {
      StepKeepsClaims(w, steps[0]);
      StepKeepsEntries(w, steps[0]);
      RunKeeps(Apply(w, steps[0]), steps[1..], w');
    }
  }

  // ---------------------------------------------------------------------------------------------
  // Main results
  // ---------------------------------------------------------------------------------------------

  /**
   * On every run: entries and pending are disjoint, each prefix has at most one creation, and a name
   * is given out only for the prefix it was created for, and strictly before it expires.
   */
  lemma RegistryIsSound(steps: seq<Step>, w: World, prefix: Prefix, now: int)
    requires Leads(FRESH, steps, w)
    ensures w.registry.entries.Keys !! w.registry.pending
    ensures forall i, j | 0 <= i < j < |w.flights| :: w.flights[i].prefix != w.flights[j].prefix
    ensures forall p: Prefix :: p in w.registry.pending <==> InFlight(w.flights, p) || p in w.lost
    ensures var name := Lookup(w.registry, prefix, now).1;
      name.Some? ==> name.value != "" && exists m <- w.made ::
        m.prefix == prefix && m.entry.name == name.value && now < m.entry.expires
  {
    RunKeeps(FRESH, steps, w);
    if Lookup(w.registry, prefix, now).1.Some? {
      assert Made(prefix, w.registry.entries[prefix]) in w.made;
    }
  }

  /** A creation that failed frees its slot: the next call for the prefix may create it. */
  lemma FailureFreesSlot(steps: seq<Step>, w: World, i: nat, now: int)
    requires Leads(FRESH, steps, w) && Enabled(w, Report(i, NotCreated, now))
    ensures Claim(Apply(w, Report(i, NotCreated, now)).registry, w.flights[i].prefix).1
  {
    RunKeeps(FRESH, steps, w);
    assert w.flights[i].prefix != "";
  }

  /** No lookup of the prefix at or after a time. */
  predicate NoLateLook(steps: seq<Step>, prefix: Prefix, until: int) {
    forall step <- steps :: step.Look? && step.prefix == prefix ==> step.now < until
  }

  lemma EntryStays(w: World, step: Step, prefix: Prefix)
    requires Inv(w) && Enabled(w, step) && prefix in w.registry.entries
    requires step.Look? && step.prefix == prefix ==> step.now < w.registry.entries[prefix].expires
    ensures var r := Apply(w, step).registry;
      prefix in r.entries && r.entries[prefix] == w.registry.entries[prefix]
  {
    if step.Report? {
      assert InFlight(w.flights, w.flights[step.flight].prefix);
    }
  }

  lemma {:induction false} EntryLasts(w: World, steps: seq<Step>, w': World, prefix: Prefix)
    requires Inv(w) && Leads(w, steps, w') && prefix in w.registry.entries
    requires NoLateLook(steps, prefix, w.registry.entries[prefix].expires)
    ensures prefix in w'.registry.entries && w'.registry.entries[prefix] == w.registry.entries[prefix]
    decreases |steps|
  {
    hide Claims, Entries, Apply, Enabled;
    if steps != [] {
      StepKeepsClaims(w, steps[0]);
      StepKeepsEntries(w, steps[0]);
      EntryStays(w, steps[0], prefix);
      EntryLasts(Apply(w, steps[0]), steps[1..], w', prefix);
    }
  }

  /**
   * A cache that was created is given out for its prefix by every lookup until it expires, whatever
   * happens meanwhile, and by none after that.
   */
  lemma CacheIsServed(before: seq<Step>, w: World, i: nat, name: string, ttl: int, now: int,
      after: seq<Step>, w': World, later: int)
    requires Leads(FRESH, before, w) && Enabled(w, Report(i, Created(name, ttl), now)) && name != ""
    requires Leads(Apply(w, Report(i, Created(name, ttl), now)), after, w')
    requires NoLateLook(after, w.flights[i].prefix, now + 1000 * ttl)
    ensures Lookup(w'.registry, w.flights[i].prefix, later).1 == if later < now + 1000 * ttl then Some(name) else None
  {
    RunKeeps(FRESH, before, w);
    var created := Apply(w, Report(i, Created(name, ttl), now));
    StepKeepsClaims(w, Report(i, Created(name, ttl), now));
    StepKeepsEntries(w, Report(i, Created(name, ttl), now));
    NamedFlight(w, i);
    EntryLasts(created, after, w', w.flights[i].prefix);
  }

  /** A prefix can be claimed exactly when it has no entry, no creation on its way and no lost claim. */
  lemma ClaimableExactlyWhenFree(steps: seq<Step>, w: World, prefix: Prefix)
    requires Leads(FRESH, steps, w)
    ensures Claim(w.registry, prefix).1 <==>
      prefix != "" && prefix !in w.registry.entries && !InFlight(w.flights, prefix) && prefix !in w.lost
  {
    RunKeeps(FRESH, steps, w);
  }

  /** A lost claim is never given up: no later call creates that cache. */
  lemma {:induction false} LostForGood(w: World, steps: seq<Step>, w': World, prefix: Prefix, now: int)
    requires Inv(w) && Leads(w, steps, w') && prefix in w.lost
    ensures prefix in w'.lost && !Claim(w'.registry, prefix).1 && Lookup(w'.registry, prefix, now).1.None?
    decreases |steps|
  {
    if steps != [] {
      StepKeepsClaims(w, steps[0]);
      StepKeepsEntries(w, steps[0]);
      LostForGood(Apply(w, steps[0]), steps[1..], w', prefix, now);
    }
  }

  /** The pool refuses a creation, or one gives an empty name or is aborted. */
  predicate Loses(step: Step) {
    || (step.Submit? && !step.accepted)
    || (step.Report? && (step.creation.Aborted? || (step.creation.Created? && step.creation.name == "")))
  }

  lemma OneLoss(w: World, step: Step)
    requires Enabled(w, step)
    ensures Apply(w, step).lost != {} <==> w.lost != {} || Loses(step)
  {
  }

  lemma {:induction false} LostExactly(w: World, steps: seq<Step>, w': World)
    requires Leads(w, steps, w')
    ensures w'.lost != {} <==> w.lost != {} || exists step <- steps :: Loses(step)
    decreases |steps|
  {
    if steps != [] {
      OneLoss(w, steps[0]);
      LostExactly(Apply(w, steps[0]), steps[1..], w');
      assert steps == [steps[0]] + steps[1..];
    }
  }

  /** Pending are exactly the prefixes being created as long as no step loses a claim, and only then. */
  lemma PendingIsInFlight(steps: seq<Step>, w: World)
    requires Leads(FRESH, steps, w)
    ensures (forall p: Prefix :: p in w.registry.pending <==> InFlight(w.flights, p))
      <==> forall step <- steps :: !Loses(step)
  {
    RunKeeps(FRESH, steps, w);
    LostExactly(FRESH, steps, w);
    forall p | p in w.lost
      ensures !InFlight(w.flights, p) && p in w.registry.pending
    {
      NotInFlight(w, p);
    }
  }

  lemma NotInFlight(w: World, p: Prefix)
    requires Claims(w) && p in w.lost
    ensures !InFlight(w.flights, p)
  {
  }

  /** Each of the three ways happens: a claim, and then a refusal, an empty name or an abort. */
  lemma ClaimsAreLost(prefix: Prefix, creation: Creation, now: int)
    requires prefix != "" && (creation == Aborted || (creation.Created? && creation.name == ""))
    ensures exists w :: Leads(FRESH, [Mark(prefix), Submit(0, false)], w) && prefix in w.lost
    ensures exists w :: Leads(FRESH, [Mark(prefix), Submit(0, true), Report(0, creation, now)], w) && prefix in w.lost
  {
    var claimed := Apply(FRESH, Mark(prefix));
    assert claimed.flights == [Flight(prefix, false)];
    TwoSteps(Mark(prefix), Submit(0, false));
    var sent := Apply(claimed, Submit(0, true));
    assert sent.flights == [Flight(prefix, true)];
    ThreeSteps(Mark(prefix), Submit(0, true), Report(0, creation, now));
  }

  lemma TwoSteps(a: Step, b: Step)
    requires Enabled(FRESH, a) && Enabled(Apply(FRESH, a), b)
    ensures Leads(FRESH, [a, b], Apply(Apply(FRESH, a), b))
  {
    hide Apply, Enabled;
    var w := Apply(Apply(FRESH, a), b);
    assert Leads(w, [], w);
    assert [a, b][1..] == [b] && [b][1..] == [];
    assert Leads(Apply(FRESH, a), [b], w);
  }

  lemma ThreeSteps(a: Step, b: Step, c: Step)
    requires Enabled(FRESH, a) && Enabled(Apply(FRESH, a), b) && Enabled(Apply(Apply(FRESH, a), b), c)
    ensures Leads(FRESH, [a, b, c], Apply(Apply(Apply(FRESH, a), b), c))
  {
    hide Apply, Enabled;
    var v := Apply(Apply(FRESH, a), b);
    var w := Apply(v, c);
    assert Leads(w, [], w);
    assert [a, b, c][1..] == [b, c] && [b, c][1..] == [c] && [c][1..] == [];
    assert Leads(v, [c], w);
    assert Leads(Apply(FRESH, a), [b, c], w);
  }
}
