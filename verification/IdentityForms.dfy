// What a canonical subject is made of (src/deepintshield/agentic/identity.py).

module IdentityForms {
  import opened Common
  import opened Identity
  import ChatEvents
  import ChatText

  // ---------------------------------------------------------------------------------------------
  // Slugs
  // ---------------------------------------------------------------------------------------------

  /** How many letters and digits a text begins with. */
  function RunLength(s: string): (n: nat)
    ensures n <= |s| && (forall i | 0 <= i < n :: Alnum(s[i])) && (n < |s| ==> !Alnum(s[n]))
  {
    if s == "" || !Alnum(s[0]) then 0 else 1 + RunLength(s[1..])
  }

  /** The groups of letters and digits of a text, in order. */
  function Groups(s: string): seq<string>
    decreases |s|
  {
    if s == "" then []
    else if !Alnum(s[0]) then Groups(s[1..])
    else [s[..RunLength(s)]] + Groups(s[RunLength(s)..])
  }

  function Dashed(groups: seq<string>): string {
    if groups == [] then ""
    else if |groups| == 1 then groups[0]
    else groups[0] + "-" + Dashed(groups[1..])
  }

  lemma {:induction false} GroupsAfterRun(s: string)
    ensures Groups(AfterRun(s)) == Groups(s)
    decreases |s|
  {
    if s != "" && !Alnum(s[0]) {
      GroupsAfterRun(s[1..]);
    }
  }

  /** Letters and digits in front join the first group. */
  lemma GroupsGrow(c: char, s: string)
    requires Alnum(c)
    ensures Groups([c] + s) ==
      if s != "" && Alnum(s[0]) then [[c] + Groups(s)[0]] + Groups(s)[1..] else [[c]] + Groups(s)
  {
    var t := [c] + s;
    assert t[1..] == s;
    var n := RunLength(s);
    assert RunLength(t) == 1 + n;
    assert t[..1 + n] == [c] + s[..n] && t[1 + n..] == s[n..];
    if s == "" || !Alnum(s[0]) {
      assert s[n..] == s && [c] + s[..n] == [c];
    }
  }

  lemma {:induction false} GroupsOfCollapse(s: string)
    ensures Groups(Collapse(s)) == Groups(s)
    decreases |s|
  {
    if s == "" {
    } else if Alnum(s[0]) {
      GroupsOfCollapse(s[1..]);
      assert [s[0]] + s[1..] == s;
      GroupsGrow(s[0], s[1..]);
      GroupsGrow(s[0], Collapse(s[1..]));
    } else {
      GroupsOfCollapse(AfterRun(s[1..]));
      GroupsAfterRun(s[1..]);
      assert ("-" + Collapse(AfterRun(s[1..])))[1..] == Collapse(AfterRun(s[1..]));
    }
  }

  lemma {:induction false} GroupsOfTrimLeft(s: string)
    ensures Groups(TrimLeft(s)) == Groups(s)
  {
    if s != "" && s[0] == '-' {
      GroupsOfTrimLeft(s[1..]);
    }
  }

  /** A dash at the end belongs to no group. */
  lemma {:induction false} GroupsBeforeDash(s: string)
    ensures Groups(s + "-") == Groups(s)
    decreases |s|
  {
    var t := s + "-";
    if s == "" {
      assert t[1..] == "";
    } else if Alnum(s[0]) {
      GroupsBeforeDash(s[1..]);
      assert [s[0]] + s[1..] == s && [s[0]] + (s[1..] + "-") == t;
      GroupsGrow(s[0], s[1..]);
      GroupsGrow(s[0], s[1..] + "-");
    } else {
      GroupsBeforeDash(s[1..]);
      assert t[1..] == s[1..] + "-";
    }
  }

  lemma {:induction false} GroupsOfTrimRight(s: string)
    ensures Groups(TrimRight(s)) == Groups(s)
    decreases |s|
  {
    if s != "" && s[|s| - 1] == '-' {
      var most := s[..|s| - 1];
      GroupsOfTrimRight(most);
      GroupsBeforeDash(most);
      assert most + "-" == s;
    }
  }

  lemma SlugTail(s: string, n: nat)
    requires IsSlug(s) && n < |s| && s[n] == '-'
    ensures IsSlug(s[n + 1..])
  {
    assert n + 1 < |s| && s[n + 1] != '-';
    TidyPart(s, n + 1, |s|);
    var rest := s[n + 1..];
    assert s[n + 1..|s|] == rest;
    assert rest[0] == s[n + 1] && rest[|rest| - 1] == s[|s| - 1];
    hide Tidy;
  }

  /** A slug is one group, or a group, a dash and a slug. */
  lemma SlugParts(s: string)
    requires IsSlug(s)
    ensures var n := RunLength(s);
      && n > 0 && (n < |s| ==> s[n] == '-' && IsSlug(s[n + 1..]))
  {
    var n := RunLength(s);
    assert s[0] in s;
    if n < |s| {
      assert s[n] in s && s[n] == '-';
      hide Tidy, RunLength;
      SlugTail(s, n);
    }
  }

  lemma GroupsOfSlug(s: string)
    requires IsSlug(s)
    ensures var n := RunLength(s);
      Groups(s) == if n == |s| then [s] else [s[..n]] + Groups(s[n + 1..])
    ensures Groups(s) != []
  {
    SlugParts(s);
    var n := RunLength(s);
    if n == |s| {
      assert s[..n] == s && s[n..] == "";
    } else {
      assert s[n..][0] == '-' && s[n..][1..] == s[n + 1..];
    }
  }

  /** A slug is its groups with single dashes between. */
  lemma {:induction false} SlugIsDashed(s: string)
    requires s == "" || IsSlug(s)
    ensures s == Dashed(Groups(s))
    decreases |s|
  {
    if s != "" {
      SlugParts(s);
      GroupsOfSlug(s);
      var n := RunLength(s);
      if n < |s| {
        var rest := s[n + 1..];
        SlugIsDashed(rest);
        GroupsOfSlug(rest);
        hide Groups, IsSlug;
        assert Groups(s)[1..] == Groups(rest);
        assert s[..n] + "-" + rest == s;
      }
    }
  }

  /** A slug is made of the groups of letters and digits of the trimmed, lower-case text, in order. */
  lemma SlugHasTheGroups(r: Reader, value: string)
    ensures Slugify(r, value) == Dashed(Groups(r.lower(ChatEvents.Strip(value))))
  {
    hide Groups, Dashed, Collapse, TrimLeft, TrimRight;
    var s := r.lower(ChatEvents.Strip(value));
    SlugifyMakesSlug(r, value);
    GroupsOfCollapse(s);
    GroupsOfTrimLeft(Collapse(s));
    GroupsOfTrimRight(TrimLeft(Collapse(s)));
    SlugIsDashed(Slugify(r, value));
  }

  // ---------------------------------------------------------------------------------------------
  // Ids and subjects
  // ---------------------------------------------------------------------------------------------

  /** The longest start of at most 63 characters that does not end in a dash. */
  predicate IsStem(slug: string, stem: string) {
    && stem <= slug && |stem| <= 63 && (stem == "" || stem[|stem| - 1] != '-')
    && forall i | |stem| <= i < |slug| && i < 63 :: slug[i] == '-'
  }

  lemma {:induction false} TrimRightIs(s: string)
    ensures var t := TrimRight(s);
      && t <= s && (t == "" || t[|t| - 1] != '-') && forall i | |t| <= i < |s| :: s[i] == '-'
    decreases |s|
  {
    if s != "" && s[|s| - 1] == '-' {
      TrimRightIs(s[..|s| - 1]);
      assert s[..|s| - 1] <= s;
    }
  }

  lemma ReadableIsStem(slug: string)
    ensures IsStem(slug, Readable(slug))
  {
    TrimRightIs(if |slug| > MAX_READABLE then slug[..MAX_READABLE] else slug);
    hide TrimRight;
  }

  /**
   * An id is the identifier itself where that is a slug of at most 96 characters; otherwise the digest with a
   * readable stem of the slug before it, or with "id" where nothing can be read.
   */
  lemma IdIs(r: Reader, normalized: string)
    ensures var slug, digest := Slugify(r, normalized), r.digest(normalized);
      var id := IdOf(r, normalized);
      Faithful(r) ==>
        if slug == "" then id == "id-" + digest
        else if slug == normalized && |slug| <= 96 then id == normalized
        else exists stem :: IsStem(slug, stem) && id == stem + "-" + digest
  {
    hide Slugify, Readable, IsStem;
    var slug, digest := Slugify(r, normalized), r.digest(normalized);
    ReadableIsStem(slug);
    if Faithful(r) && slug != "" {
      SlugifyMakesSlug(r, normalized);
      StemIsShort(slug);
      assert |digest| == 32 by {
        assert Hex(r.digest(normalized));
      }
    }
  }

  lemma StemIsShort(slug: string)
    requires IsSlug(slug)
    ensures |Readable(slug)| <= 63 && (|slug| <= 63 ==> Readable(slug) == slug)
  {
    ReadableIsStem(slug);
    hide Readable;
  }

  /** The first colon of a text. */
  predicate FirstColon(s: string, m: nat) {
    m < |s| && s[m] == ':' && ':' !in s[..m]
  }

  lemma {:induction false} FindIs(s: string, m: nat)
    ensures Find(s, ':').None? <==> ':' !in s
    ensures Find(s, ':') == Some(m) <==> FirstColon(s, m)
  {
    if s != "" {
      FindIs(s[1..], if m > 0 then m - 1 else 0);
      assert s == [s[0]] + s[1..];
      if 0 < m < |s| {
        assert s[..m] == [s[0]] + s[1..][..m - 1];
      }
    }
  }

  predicate IsType(typ: string) {
    typ == "user" || typ == "service_account"
  }

  lemma KindOfType(r: Reader, typ: string)
    requires Faithful(r) && IsType(typ)
    ensures Kind(r, typ) == typ
  {
    StripKeeps(typ);
    assert Simple(typ);
  }

  /** A value that begins with a type keeps it, and keeps what follows where that is a slug. */
  lemma TypedSubjectIs(r: Reader, value: string, kind: string, m: nat)
    requires Faithful(r)
    requires var raw := ChatEvents.Strip(value); FirstColon(raw, m) && m > 0 && IsType(r.lower(raw[..m]))
    ensures var raw := ChatEvents.Strip(value);
      var local := Normalized(r, raw[m + 1..]);
      LocalSubject(r, value, kind)
      == r.lower(raw[..m]) + ":"
         + if local != "" && Slugify(r, local) == local then local else IdOf(r, Normalized(r, local))
  {
    hide Slugify, IdOf, Find, Kind;
    var raw := ChatEvents.Strip(value);
    FindIs(raw, m);
    KindOfType(r, r.lower(raw[..m]));
  }

  /** Every other value is of the kind given: a service account only where that says so. */
  lemma OtherSubjectIs(r: Reader, value: string, kind: string)
    requires var raw := ChatEvents.Strip(value);
      forall m: nat | FirstColon(raw, m) && m > 0 :: !IsType(r.lower(raw[..m]))
    ensures var raw := ChatEvents.Strip(value);
      LocalSubject(r, value, kind)
      == (if r.lower(ChatEvents.Strip(kind)) == "service_account" then "service_account" else "user")
         + ":" + IdOf(r, Normalized(r, raw))
  {
    hide Slugify, IdOf, Find;
    var raw := ChatEvents.Strip(value);
    var found := Find(raw, ':');
    FindIs(raw, if found.Some? then found.value else 0);
  }
}
