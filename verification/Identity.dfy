// Canonical subjects, and the cache of resolved ones (src/deepintshield/agentic/identity.py).

module Identity {
  import opened Common
  import ChatEvents

  const MAX_SLUG := 96
  const DIGEST_LENGTH := 32
  const MAX_READABLE := 63

  // ---------------------------------------------------------------------------------------------
  // Characters
  // ---------------------------------------------------------------------------------------------

  predicate Alnum(c: char) {
    'a' <= c <= 'z' || '0' <= c <= '9'
  }

  /** Lower-case letters, digits, and the signs of a subject. */
  predicate Simple(s: string) {
    forall c <- s :: Alnum(c) || c == '-' || c == ':' || c == '_'
  }

  predicate Hex(s: string) {
    |s| == DIGEST_LENGTH && forall c <- s :: '0' <= c <= '9' || 'a' <= c <= 'f'
  }

  /** Lower-casing as Python does it, and the digest of a text: 32 hexadecimal digits. */
  datatype Reader = Reader(lower: string -> string, digest: string -> string)

  ghost predicate Faithful(r: Reader) {
    (forall s: string | Simple(s) :: r.lower(s) == s) && forall s: string :: Hex(r.digest(s))
  }

  // ---------------------------------------------------------------------------------------------
  // Slugs
  // ---------------------------------------------------------------------------------------------

  function AfterRun(s: string): (rest: string)
    ensures |rest| <= |s| && (rest == "" || Alnum(rest[0]))
  {
    if s == "" || Alnum(s[0]) then s else AfterRun(s[1..])
  }

  /** Every run of other characters becomes one dash. */
  function Collapse(s: string): string
    decreases |s|
  {
    if s == "" then ""
    else if Alnum(s[0]) then [s[0]] + Collapse(s[1..])
    else "-" + Collapse(AfterRun(s[1..]))
  }

  function TrimLeft(s: string): string {
    if s != "" && s[0] == '-' then TrimLeft(s[1..]) else s
  }

  function TrimRight(s: string): string {
    if s != "" && s[|s| - 1] == '-' then TrimRight(s[..|s| - 1]) else s
  }

  function Slugify(r: Reader, value: string): string {
    TrimRight(TrimLeft(Collapse(r.lower(ChatEvents.Strip(value)))))
  }

  /** The start of a long slug. */
  function Readable(slug: string): string {
    TrimRight(if |slug| > MAX_READABLE then slug[..MAX_READABLE] else slug)
  }

  /** The part of `_derive_subject` after the type. */
  function IdOf(r: Reader, normalized: string): string {
    var slug, digest := Slugify(r, normalized), r.digest(normalized);
    var id :=
      if slug == "" then "id-" + digest
      else if slug != normalized then (if |slug| > MAX_READABLE then Readable(slug) else slug) + "-" + digest
      else slug;
    if |id| > MAX_SLUG then Readable(id) + "-" + digest else id
  }

  function Kind(r: Reader, kind: string): string {
    if r.lower(ChatEvents.Strip(kind)) == "service_account" then "service_account" else "user"
  }

  function Normalized(r: Reader, identifier: string): string {
    r.lower(ChatEvents.Strip(identifier))
  }

  /** `_derive_subject`. */
  function Derive(r: Reader, kind: string, identifier: string): string {
    Kind(r, kind) + ":" + IdOf(r, Normalized(r, identifier))
  }

  function Find(s: string, c: char): (i: Option<nat>)
    ensures i.Some? ==> i.value < |s|
  {
    if s == "" then None
    else if s[0] == c then Some(0)
    else
      var i := Find(s[1..], c);
      if i.None? then None else Some(i.value + 1)
  }

  /** `local_subject`. */
  function LocalSubject(r: Reader, value: string, kind: string): string {
    var raw := ChatEvents.Strip(value);
    var marker := Find(raw, ':');
    if marker.None? || marker.value == 0 then Derive(r, kind, raw)
    else
      var typ := r.lower(raw[..marker.value]);
      if typ != "user" && typ != "service_account" then Derive(r, kind, raw)
      else
        var local := Normalized(r, raw[marker.value + 1..]);
        var slug := Slugify(r, local);
        if slug != "" && slug == local then typ + ":" + slug else Derive(r, typ, local)
  }

  // ---------------------------------------------------------------------------------------------
  // What a slug is
  // ---------------------------------------------------------------------------------------------

  predicate Tidy(s: string) {
    && (forall c <- s :: Alnum(c) || c == '-')
    && forall i | 0 <= i < |s| - 1 :: !(s[i] == '-' && s[i + 1] == '-')
  }

  /** Lower-case letters and digits in groups with one dash between two of them. */
  predicate IsSlug(s: string) {
    Tidy(s) && s != "" && s[0] != '-' && s[|s| - 1] != '-'
  }

  lemma {:induction false} CollapseIsTidy(s: string)
    ensures Tidy(Collapse(s))
    ensures Collapse(s) != "" && Collapse(s)[0] == '-' ==> s != "" && !Alnum(s[0])
    decreases |s|
  {
    if s != "" {
      CollapseIsTidy(if Alnum(s[0]) then s[1..] else AfterRun(s[1..]));
    }
  }

  lemma {:induction false} TrimLeftTrims(s: string)
    requires Tidy(s)
    ensures Tidy(TrimLeft(s)) && (TrimLeft(s) == "" || TrimLeft(s)[0] != '-')
  {
  }

  lemma TidyPart(s: string, i: nat, j: nat)
    requires Tidy(s) && i <= j <= |s|
    ensures Tidy(s[i..j])
  {
  }

  lemma {:induction false} TrimRightTrims(s: string)
    requires Tidy(s) && (s == "" || s[0] != '-')
    ensures TrimRight(s) == "" || IsSlug(TrimRight(s))
    ensures s != "" ==> TrimRight(s) != ""
    ensures |TrimRight(s)| <= |s|
  {
  }

  lemma SlugifyMakesSlug(r: Reader, value: string)
    ensures Slugify(r, value) == "" || IsSlug(Slugify(r, value))
  {
    var s := Collapse(r.lower(ChatEvents.Strip(value)));
    CollapseIsTidy(r.lower(ChatEvents.Strip(value)));
    TrimLeftTrims(s);
    TrimRightTrims(TrimLeft(s));
  }

  lemma {:induction false} CollapseKeeps(s: string)
    requires Tidy(s) && (s == "" || s[|s| - 1] != '-')
    ensures Collapse(s) == s
    decreases |s|
  {
    if s != "" {
      TidyPart(s, 1, |s|);
      assert s[1..|s|] == s[1..];
      if !Alnum(s[0]) {
        assert s[0] == '-' && s[1] != '-';
        assert AfterRun(s[1..]) == s[1..];
      }
      CollapseKeeps(s[1..]);
    }
  }

  lemma StripKeeps(s: string)
    requires Simple(s)
    ensures ChatEvents.Strip(s) == s
  {
    if s != "" {
      assert s[0] in s && s[|s| - 1] in s;
    }
  }

  /** A slug is its own slug. */
  lemma SlugOfSlug(r: Reader, s: string)
    requires Faithful(r) && IsSlug(s)
    ensures Slugify(r, s) == s && Normalized(r, s) == s
  {
    StripKeeps(s);
    CollapseKeeps(s);
  }

  lemma ReadableIsSlug(s: string)
    requires IsSlug(s)
    ensures IsSlug(Readable(s)) && |Readable(s)| <= MAX_READABLE
  {
    var cut := if |s| > MAX_READABLE then s[..MAX_READABLE] else s;
    TidyPart(s, 0, |cut|);
    assert cut == s[0..|cut|];
    TrimRightTrims(cut);
  }

  lemma GlueIsSlug(a: string, b: string)
    requires IsSlug(a) && IsSlug(b)
    ensures IsSlug(a + "-" + b)
  {
  }

  lemma DigestIsSlug(r: Reader, s: string)
    requires Faithful(r)
    ensures IsSlug(r.digest(s)) && |r.digest(s)| == DIGEST_LENGTH
  {
    var d := r.digest(s);
    assert Hex(d);
    assert forall i | 0 <= i < |d| :: d[i] in d;
  }

  // ---------------------------------------------------------------------------------------------
  // Main results
  // ---------------------------------------------------------------------------------------------

  /** An identifier that is its own slug, and short enough. */
  predicate Verbatim(r: Reader, normalized: string) {
    normalized != "" && Slugify(r, normalized) == normalized && |normalized| <= MAX_SLUG
  }

  /** What precedes the digest. */
  function Stem(r: Reader, normalized: string): string {
    if Slugify(r, normalized) == "" then "id" else Readable(Slugify(r, normalized))
  }

  /** A derived id is a slug of at most 96 characters: the identifier as it is, or a stem with its digest. */
  lemma IdShape(r: Reader, normalized: string)
    requires Faithful(r)
    ensures IsSlug(IdOf(r, normalized)) && |IdOf(r, normalized)| <= MAX_SLUG
    ensures IdOf(r, normalized) ==
      if Verbatim(r, normalized) then normalized else Stem(r, normalized) + "-" + r.digest(normalized)
  {
    hide Slugify, IsSlug, Tidy;
    var slug, digest := Slugify(r, normalized), r.digest(normalized);
    SlugifyMakesSlug(r, normalized);
    DigestIsSlug(r, normalized);
    if slug == "" {
      IdIsSlug();
      assert "id" + "-" + digest == "id-" + digest;
    } else {
      ReadableIsSlug(slug);
      ShortIsReadable(slug);
    }
    GlueIsSlug(Stem(r, normalized), digest);
  }

  lemma IdIsSlug()
    ensures IsSlug("id")
  {
  }

  lemma ShortIsReadable(slug: string)
    requires IsSlug(slug)
    ensures slug != "" && (|slug| <= MAX_READABLE ==> Readable(slug) == slug)
  {
  }

  /** A subject in normal form. */
  predicate Canonical(typ: string, id: string) {
    (typ == "user" || typ == "service_account") && IsSlug(id)
  }

  lemma SubjectShape(r: Reader, value: string, kind: string) returns (typ: string, id: string)
    requires Faithful(r)
    ensures Canonical(typ, id) && LocalSubject(r, value, kind) == typ + ":" + id
  {
    hide Slugify, IsSlug, IdOf, Normalized;
    var raw := ChatEvents.Strip(value);
    var marker := Find(raw, ':');
    typ, id := Kind(r, kind), IdOf(r, Normalized(r, raw));
    IdShape(r, Normalized(r, raw));
    if marker.Some? && marker.value > 0 {
      var t := r.lower(raw[..marker.value]);
      if t == "user" || t == "service_account" {
        var local := Normalized(r, raw[marker.value + 1..]);
        SlugifyMakesSlug(r, local);
        if Slugify(r, local) != "" && Slugify(r, local) == local {
          typ, id := t, local;
        } else {
          typ, id := Kind(r, t), IdOf(r, Normalized(r, local));
          IdShape(r, Normalized(r, local));
        }
      }
    }
  }

  lemma {:induction false} FindFirst(a: string, c: char, b: string)
    requires c !in a
    ensures Find(a + [c] + b, c) == Some(|a|)
  {
    if a != "" {
      assert (a + [c] + b)[1..] == a[1..] + [c] + b;
      FindFirst(a[1..], c, b);
    }
  }

  lemma SlugIsSimple(id: string)
    requires IsSlug(id)
    ensures Simple(id)
  {
  }

  lemma CanonicalStays(r: Reader, typ: string, id: string, kind: string)
    requires Faithful(r) && Canonical(typ, id)
    ensures LocalSubject(r, typ + ":" + id, kind) == typ + ":" + id
  {
    hide Slugify, IsSlug, Normalized, Find;
    var y := typ + ":" + id;
    SlugIsSimple(id);
    assert Simple(typ);
    assert Simple(y);
    StripKeeps(y);
    assert ':' !in typ;
    FindFirst(typ, ':', id);
    assert typ + [':'] + id == y;
    assert y[..|typ|] == typ && y[|typ| + 1..] == id;
    SlugOfSlug(r, id);
    SlugIsNotEmpty(id);
  }

  lemma SlugIsNotEmpty(id: string)
    requires IsSlug(id)
    ensures id != ""
  {
  }

  /** Deriving a subject from a subject changes nothing, for every value and every two kinds. */
  lemma SubjectIsNormalForm(r: Reader, value: string, kind: string, kind': string)
    requires Faithful(r)
    ensures LocalSubject(r, LocalSubject(r, value, kind), kind') == LocalSubject(r, value, kind)
  {
    hide LocalSubject, Canonical;
    var typ, id := SubjectShape(r, value, kind);
    CanonicalStays(r, typ, id, kind');
  }

  /** What an identifier that is not kept verbatim becomes. */
  function Derived(r: Reader, normalized: string): string {
    Stem(r, normalized) + "-" + r.digest(normalized)
  }

  /**
   * Two identifiers whose digests differ share an id exactly when one of them is kept verbatim and is
   * the stem and digest of the other; so two that both carry a digest never do.
   */
  lemma SharedExactlyWhenSpelled(r: Reader, a: string, b: string)
    requires Faithful(r) && a != b && r.digest(a) != r.digest(b)
    ensures IdOf(r, a) == IdOf(r, b) <==>
      || (Verbatim(r, a) && !Verbatim(r, b) && a == Derived(r, b))
      || (Verbatim(r, b) && !Verbatim(r, a) && b == Derived(r, a))
    ensures !Verbatim(r, a) && !Verbatim(r, b) ==> IdOf(r, a) != IdOf(r, b)
  {
    hide IdOf, Verbatim, Stem;
    IdShape(r, a);
    IdShape(r, b);
    DigestIsSlug(r, a);
    DigestIsSlug(r, b);
    if !Verbatim(r, a) && !Verbatim(r, b) {
      LastDiffers(Stem(r, a), r.digest(a), Stem(r, b), r.digest(b));
    }
  }

  /** Such a pair exists for every identifier that carries a digest: its id, taken as an identifier. */
  lemma EveryDigestCanBeSpelled(r: Reader, b: string)
    requires Faithful(r) && !Verbatim(r, b)
    ensures var a := IdOf(r, b);
      a != b && Normalized(r, a) == a && Verbatim(r, a) && IdOf(r, a) == IdOf(r, b)
  {
    hide IdOf, Slugify, Normalized;
    var a := IdOf(r, b);
    IdShape(r, b);
    SlugOfSlug(r, a);
    SlugIsNotEmpty(a);
    assert Verbatim(r, a);
    IdShape(r, a);
  }

  lemma LastDiffers(a: string, da: string, b: string, db: string)
    requires |da| == |db| && da != db
    ensures a + "-" + da != b + "-" + db
  {
    assert (a + "-" + da)[|a| + 1..] == da && (b + "-" + db)[|b| + 1..] == db;
  }

  /** Two identifiers that both carry a digest, and different ones, never share a subject. */
  lemma SubjectsDiffer(r: Reader, a: string, b: string, kindA: string, kindB: string)
    requires Faithful(r) && a != b && r.digest(a) != r.digest(b) && !Verbatim(r, a) && !Verbatim(r, b)
    ensures Kind(r, kindA) + ":" + IdOf(r, a) != Kind(r, kindB) + ":" + IdOf(r, b)
  {
    hide IdOf, Verbatim;
    SharedExactlyWhenSpelled(r, a, b);
    var s, t := Kind(r, kindA) + ":" + IdOf(r, a), Kind(r, kindB) + ":" + IdOf(r, b);
    if Kind(r, kindA) == Kind(r, kindB) {
      assert s[|Kind(r, kindA)| + 1..] == IdOf(r, a) && t[|Kind(r, kindB)| + 1..] == IdOf(r, b);
    } else {
      assert s[0] == Kind(r, kindA)[0] && t[0] == Kind(r, kindB)[0];
    }
  }
}
