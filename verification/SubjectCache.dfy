// The least-recently-used cache of resolved subjects (src/deepintshield/agentic/identity.py,
// `_cache_get` and `_cache_put`).

module SubjectCache {
  import opened Common

  const MAX_SIZE := 512

  /** Client, scope, kind and identifier, as one number for each combination. */
  type Key = nat

  datatype Entry = Entry(key: Key, subject: string)

  // ---------------------------------------------------------------------------------------------
  // Specification: the entries, the most recently used last
  // ---------------------------------------------------------------------------------------------

  function Without(entries: seq<Entry>, key: Key): (r: seq<Entry>)
    ensures |r| <= |entries|
  {
    if entries == [] then []
    else if entries[0].key == key then entries[1..]
    else [entries[0]] + Without(entries[1..], key)
  }

  function Find(entries: seq<Entry>, key: Key): Option<string> {
    if entries == [] then None
    else if entries[0].key == key then Some(entries[0].subject)
    else Find(entries[1..], key)
  }

  function Get(entries: seq<Entry>, key: Key): (seq<Entry>, Option<string>) {
    var hit := Find(entries, key);
    if hit.None? then (entries, None) else (Without(entries, key) + [Entry(key, hit.value)], hit)
  }

  function Last(entries: seq<Entry>): (r: seq<Entry>) {
    if |entries| > MAX_SIZE then entries[|entries| - MAX_SIZE..] else entries
  }

  function Put(entries: seq<Entry>, key: Key, subject: string): seq<Entry> {
    Last(Without(entries, key) + [Entry(key, subject)])
  }

  predicate Distinct(entries: seq<Entry>) {
    forall i, j | 0 <= i < j < |entries| :: entries[i].key != entries[j].key
  }

  // ---------------------------------------------------------------------------------------------
  // The ordered dictionary
  // ---------------------------------------------------------------------------------------------

  /** A value in its place. */
  function Assign(entries: seq<Entry>, key: Key, subject: string): seq<Entry> {
    if entries == [] then [Entry(key, subject)]
    else if entries[0].key == key then [Entry(key, subject)] + entries[1..]
    else [entries[0]] + Assign(entries[1..], key, subject)
  }

  class Cache {
    var entries: seq<Entry>

    constructor ()
      ensures entries == []
    {
      entries := [];
    }

    /** `_cache_get`: what is found becomes the most recent. */
    method CacheGet(key: Key) returns (hit: Option<string>)
      modifies this
      ensures (entries, hit) == Get(old(entries), key)
    {
      hit := Find(entries, key);
      if hit.Some? {
        MoveToEnd(key);
      }
    }

    method MoveToEnd(key: Key)
      requires Find(entries, key).Some?
      modifies this
      ensures entries == Without(old(entries), key) + [Entry(key, Find(old(entries), key).value)]
    {
      entries := Without(entries, key) + [Entry(key, Find(entries, key).value)];
    }

    /** `_cache_put`: the entry becomes the most recent, and the oldest ones go while there are too many. */
    method CachePut(key: Key, subject: string)
      modifies this
      ensures entries == Put(old(entries), key, subject)
    {
      AssignFacts(entries, key, subject);
      entries := Assign(entries, key, subject);
      MoveToEnd(key);
      ghost var all := entries;
      while |entries| > MAX_SIZE
        invariant |entries| <= |all| && entries == all[|all| - |entries|..]
        invariant |all| > MAX_SIZE ==> |entries| >= MAX_SIZE
        invariant |all| <= MAX_SIZE ==> entries == all
      {
        entries := entries[1..];
      }
    }
  }

  lemma {:induction false} AssignFacts(entries: seq<Entry>, key: Key, subject: string)
    ensures Find(Assign(entries, key, subject), key) == Some(subject)
    ensures Without(Assign(entries, key, subject), key) == Without(entries, key)
  {
    if entries != [] && entries[0].key != key {
      AssignFacts(entries[1..], key, subject);
    }
  }

  // ---------------------------------------------------------------------------------------------
  // Runs
  // ---------------------------------------------------------------------------------------------

  datatype Use = Lookup(key: Key) | Store(key: Key, subject: string)

  function After(entries: seq<Entry>, use: Use): seq<Entry> {
    match use
    case Lookup(key) => Get(entries, key).0
    case Store(key, subject) => Put(entries, key, subject)
  }

  function Run(entries: seq<Entry>, uses: seq<Use>): seq<Entry>
    decreases |uses|
  {
    if uses == [] then entries else Run(After(entries, uses[0]), uses[1..])
  }

  /** Where an entry is. */
  ghost predicate At(entries: seq<Entry>, i: nat, key: Key, subject: string) {
    i < |entries| && entries[i] == Entry(key, subject)
  }

  /** Taking a key out of distinct entries takes out its entry and nothing else. */
  lemma WithoutKeeps(entries: seq<Entry>, key: Key)
    requires Distinct(entries)
    ensures Distinct(Without(entries, key))
    ensures forall i | 0 <= i < |Without(entries, key)| :: Without(entries, key)[i].key != key
    ensures forall e :: e in Without(entries, key) <==> e in entries && e.key != key
    ensures |Without(entries, key)| == if Find(entries, key).Some? then |entries| - 1 else |entries|
  {
    hide Distinct, Without, Find;
    WithoutDistinct(entries, key);
    WithoutSize(entries, key);
    forall e
      ensures e in Without(entries, key) <==> e in entries && e.key != key
    {
      WithoutMember(entries, key, e);
    }
    forall i | 0 <= i < |Without(entries, key)|
      ensures Without(entries, key)[i].key != key
    {
      WithoutMember(entries, key, Without(entries, key)[i]);
    }
  }

  lemma DistinctTail(entries: seq<Entry>, e: Entry)
    requires entries != [] && Distinct(entries)
    ensures Distinct(entries[1..])
    ensures e in entries <==> e == entries[0] || e in entries[1..]
    ensures e in entries[1..] ==> e.key != entries[0].key
  {
    assert entries == [entries[0]] + entries[1..];
  }

  lemma {:induction false} WithoutMember(entries: seq<Entry>, key: Key, e: Entry)
    requires Distinct(entries)
    ensures e in Without(entries, key) <==> e in entries && e.key != key
  {
    hide Distinct;
    if entries != [] {
      DistinctTail(entries, e);
      WithoutMember(entries[1..], key, e);
    }
  }

  lemma {:induction false} WithoutSize(entries: seq<Entry>, key: Key)
    ensures |Without(entries, key)| == if Find(entries, key).Some? then |entries| - 1 else |entries|
  {
    if entries != [] {
      WithoutSize(entries[1..], key);
    }
  }

  lemma {:induction false} WithoutDistinct(entries: seq<Entry>, key: Key)
    requires Distinct(entries)
    ensures Distinct(Without(entries, key))
  {
    if entries != [] && entries[0].key != key {
      var rest := entries[1..];
      WithoutDistinct(rest, key);
      forall i | 0 <= i < |Without(rest, key)|
        ensures Without(rest, key)[i].key != entries[0].key
      {
        DistinctTail(entries, Without(rest, key)[i]);
        WithoutMember(rest, key, Without(rest, key)[i]);
      }
    }
  }

  lemma {:induction false} FindIs(entries: seq<Entry>, key: Key)
    requires Distinct(entries)
    ensures forall subject :: Find(entries, key) == Some(subject) <==> Entry(key, subject) in entries
  {
    if entries != [] {
      FindIs(entries[1..], key);
      assert entries == [entries[0]] + entries[1..];
      assert forall e | e in entries[1..] :: e.key != entries[0].key;
    }
  }

  lemma AppendDistinct(entries: seq<Entry>, e: Entry)
    requires Distinct(entries) && forall i | 0 <= i < |entries| :: entries[i].key != e.key
    ensures Distinct(entries + [e]) && Distinct(Last(entries + [e]))
  {
  }

  /** The keys stay distinct, and there are never more than 512. */
  lemma AfterKeeps(entries: seq<Entry>, use: Use)
    requires Distinct(entries) && |entries| <= MAX_SIZE
    ensures Distinct(After(entries, use)) && |After(entries, use)| <= MAX_SIZE
  {
    AfterDistinct(entries, use);
    hide Distinct, Without;
    WithoutKeeps(entries, use.key);
  }

  lemma AfterDistinct(entries: seq<Entry>, use: Use)
    requires Distinct(entries)
    ensures Distinct(After(entries, use))
  {
    hide Distinct, Last, Without;
    WithoutKeeps(entries, use.key);
    match use {
      case Lookup(key) =>
        if Find(entries, key).Some? {
          AppendDistinct(Without(entries, key), Entry(key, Find(entries, key).value));
        }
      case Store(key, subject) => AppendDistinct(Without(entries, key), Entry(key, subject));
    }
  }

  lemma {:induction false} RunIsBounded(uses: seq<Use>, entries: seq<Entry>)
    requires Distinct(entries) && |entries| <= MAX_SIZE
    ensures Distinct(Run(entries, uses)) && |Run(entries, uses)| <= 512
    decreases |uses|
  {
    if uses != [] {
      AfterKeeps(entries, uses[0]);
      RunIsBounded(uses[1..], After(entries, uses[0]));
    }
  }

  /** The subject stored last for a key. */
  function LastStored(uses: seq<Use>, key: Key): Option<string> {
    if uses == [] then None
    else
      var use := uses[|uses| - 1];
      if use.Store? && use.key == key then Some(use.subject) else LastStored(uses[..|uses| - 1], key)
  }

  lemma {:induction false} RunSplits(entries: seq<Entry>, uses: seq<Use>)
    requires uses != []
    ensures Run(entries, uses) == After(Run(entries, uses[..|uses| - 1]), uses[|uses| - 1])
    decreases |uses|
  {
    if |uses| > 1 {
      RunSplits(After(entries, uses[0]), uses[1..]);
      assert uses[1..][..|uses| - 2] == uses[..|uses| - 1][1..];
    }
  }

  /** What one use leaves at another key, or at its own. */
  lemma AfterFinds(entries: seq<Entry>, use: Use, key: Key)
    requires Distinct(entries)
    ensures var found := Find(After(entries, use), key);
      found.None? || found == if use.Store? && use.key == key then Some(use.subject) else Find(entries, key)
  {
    WithoutKeeps(entries, use.key);
    FindIs(entries, key);
    FindIs(entries, use.key);
    var found := Find(After(entries, use), key);
    if found.Some? {
      AfterDistinct(entries, use);
      FindIs(After(entries, use), key);
    }
  }

  /** A hit gives the subject that was stored last. */
  lemma {:induction false} HitIsLastStored(uses: seq<Use>, key: Key)
    ensures Find(Run([], uses), key).None? || Find(Run([], uses), key) == LastStored(uses, key)
    decreases |uses|
  {
    if uses != [] {
      var before := uses[..|uses| - 1];
      HitIsLastStored(before, key);
      RunSplits([], uses);
      RunIsBounded(before, []);
      AfterFinds(Run([], before), uses[|uses| - 1], key);
    }
  }

  // ---------------------------------------------------------------------------------------------
  // What is used often stays
  // ---------------------------------------------------------------------------------------------

  /** The entry is there, and what is more recent has keys of `others`. */
  ghost predicate Recent(entries: seq<Entry>, key: Key, subject: string, others: set<Key>) {
    exists i: nat :: At(entries, i, key, subject) && forall j | i < j < |entries| :: entries[j].key in others
  }

  lemma {:induction false} DistinctKeysFit(entries: seq<Entry>, keys: set<Key>)
    requires Distinct(entries) && forall i | 0 <= i < |entries| :: entries[i].key in keys
    ensures |entries| <= |keys|
  {
    if entries != [] {
      DistinctKeysFit(entries[1..], keys - {entries[0].key});
    }
  }

  lemma {:induction false} WithoutAt(entries: seq<Entry>, other: Key, key: Key, subject: string, others: set<Key>)
    requires Distinct(entries) && Recent(entries, key, subject, others) && other != key
    ensures Recent(Without(entries, other), key, subject, others)
  {
    var i: nat :| At(entries, i, key, subject) && forall j | i < j < |entries| :: entries[j].key in others;
    if entries[0].key == other {
      assert At(entries[1..], i - 1, key, subject);
    } else if i == 0 {
      WithoutSubset(entries[1..], other, others);
      assert At(Without(entries, other), 0, key, subject);
    } else {
      assert At(entries[1..], i - 1, key, subject);
      WithoutAt(entries[1..], other, key, subject, others);
      var k: nat :| At(Without(entries[1..], other), k, key, subject)
        && forall j | k < j < |Without(entries[1..], other)| :: Without(entries[1..], other)[j].key in others;
      assert At(Without(entries, other), k + 1, key, subject);
    }
  }

  lemma {:induction false} WithoutSubset(entries: seq<Entry>, other: Key, others: set<Key>)
    requires forall j | 0 <= j < |entries| :: entries[j].key in others
    ensures forall j | 0 <= j < |Without(entries, other)| :: Without(entries, other)[j].key in others
  {
    if entries != [] {
      WithoutSubset(entries[1..], other, others);
    }
  }

  lemma AppendRecent(entries: seq<Entry>, e: Entry, key: Key, subject: string, others: set<Key>)
    requires Recent(entries, key, subject, others) && e.key in others
    ensures Recent(entries + [e], key, subject, others)
  {
    var i: nat :| At(entries, i, key, subject) && forall j | i < j < |entries| :: entries[j].key in others;
    assert At(entries + [e], i, key, subject);
  }

  /** Only older entries go. */
  lemma LastKeeps(entries: seq<Entry>, key: Key, subject: string, others: set<Key>)
    requires Distinct(entries) && Recent(entries, key, subject, others) && |others| < MAX_SIZE
    ensures Recent(Last(entries), key, subject, others)
  {
    var i: nat :| At(entries, i, key, subject) && forall j | i < j < |entries| :: entries[j].key in others;
    DistinctKeysFit(entries[i + 1..], others);
    if |entries| > MAX_SIZE {
      assert At(Last(entries), i - (|entries| - MAX_SIZE), key, subject);
    }
  }

  lemma UseKeepsRecent(entries: seq<Entry>, use: Use, key: Key, subject: string, others: set<Key>)
    requires Distinct(entries) && Recent(entries, key, subject, others) && |others| < MAX_SIZE
    requires use.key in others || use == Lookup(key)
    requires key !in others
    ensures Recent(After(entries, use), key, subject, others)
  {
    hide Recent;
    WithoutKeeps(entries, use.key);
    if use.key == key {
      RecentIsFound(entries, key, subject, others);
      NewIsRecent(Without(entries, key), key, subject, others);
    } else {
      WithoutAt(entries, use.key, key, subject, others);
      var hit := Find(entries, use.key);
      if use.Store? {
        AppendRecent(Without(entries, use.key), Entry(use.key, use.subject), key, subject, others);
        LastKeeps(Without(entries, use.key) + [Entry(use.key, use.subject)], key, subject, others);
      } else if hit.Some? {
        AppendRecent(Without(entries, use.key), Entry(use.key, hit.value), key, subject, others);
      }
    }
  }

  lemma NewIsRecent(entries: seq<Entry>, key: Key, subject: string, others: set<Key>)
    ensures Recent(entries + [Entry(key, subject)], key, subject, others)
  {
    assert At(entries + [Entry(key, subject)], |entries|, key, subject);
  }

  lemma RecentIsFound(entries: seq<Entry>, key: Key, subject: string, others: set<Key>)
    requires Distinct(entries) && Recent(entries, key, subject, others)
    ensures Find(entries, key) == Some(subject)
  {
    FindIs(entries, key);
    assert Entry(key, subject) in entries;
  }

  lemma {:induction false} RunKeepsRecent(entries: seq<Entry>, uses: seq<Use>, key: Key, subject: string,
      others: set<Key>)
    requires Distinct(entries) && |entries| <= MAX_SIZE && Recent(entries, key, subject, others)
    requires |others| < MAX_SIZE && key !in others
    requires forall use <- uses :: use.key in others || use == Lookup(key)
    ensures Find(Run(entries, uses), key) == Some(subject)
    decreases |uses|
  {
    hide Recent, After;
    if uses == [] {
      RecentIsFound(entries, key, subject, others);
    } else {
      UseKeepsRecent(entries, uses[0], key, subject, others);
      AfterKeeps(entries, uses[0]);
      RunKeepsRecent(After(entries, uses[0]), uses[1..], key, subject, others);
    }
  }

  /** A stored subject is found as long as fewer than 512 other keys are used after it. */
  lemma StaysWhileFew(before: seq<Use>, key: Key, subject: string, uses: seq<Use>, others: set<Key>)
    requires |others| < 512 && key !in others
    requires forall use <- uses :: use.key in others || use == Lookup(key)
    ensures Find(Run(Put(Run([], before), key, subject), uses), key) == Some(subject)
  {
    hide Recent, Run;
    RunIsBounded(before, []);
    var entries := Run([], before);
    AfterKeeps(entries, Store(key, subject));
    WithoutKeeps(entries, key);
    NewIsRecent(Without(entries, key), key, subject, others);
    LastKeeps(Without(entries, key) + [Entry(key, subject)], key, subject, others);
    RunKeepsRecent(Put(entries, key, subject), uses, key, subject, others);
  }
}
