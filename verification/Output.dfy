// Bounded program output of the remote worker (src/deepintshield/agentic/managed_remote.py,
// `_Capture` and `_bounded`); JSON strings as in section 7 of RFC 8259, non-ASCII escaped.

module Output {
  import opened Common
  import opened Utf8

  // ---------------------------------------------------------------------------------------------
  // Lengths
  // ---------------------------------------------------------------------------------------------

  /** The characters a JSON encoder writes with a two-character escape. */
  predicate ShortEscape(c: char) {
    c == '"' || c == '\\' || c == '\n' || c == '\r' || c == '\t' || c as int == 0x08 || c as int == 0x0C
  }

  predicate Control(c: char) {
    c as int < 0x20 || c as int == 0x7F
  }

  /** How many characters `json.dumps` writes for one. */
  function JsonWidth(c: char): nat {
    if ShortEscape(c) then 2
    else if 0x20 <= c as int < 0x7F then 1
    else if c as int < 0x1_0000 then 6
    else 12
  }

  function JsonBody(s: string): nat {
    if s == [] then 0 else JsonBody(s[..|s| - 1]) + JsonWidth(s[|s| - 1])
  }

  /** `len(json.dumps(s))`: the body and two quotes. */
  function JsonLength(s: string): nat {
    JsonBody(s) + 2
  }

  function Budget(limit: nat): nat {
    3 * limit + 2
  }

  /** Text without control characters or DEL, other than those with a short escape. */
  predicate Ordinary(s: string) {
    forall c <- s :: Control(c) ==> ShortEscape(c)
  }

  // ---------------------------------------------------------------------------------------------
  // Prefixes
  // ---------------------------------------------------------------------------------------------

  lemma {:induction false} LongerIsLonger(s: string, i: nat, j: nat)
    requires i <= j <= |s|
    ensures JsonLength(s[..i]) <= JsonLength(s[..j]) && Size(s[..i]) <= Size(s[..j])
    decreases j
  {
    if i < j {
      LongerIsLonger(s, i, j - 1);
      assert s[..j][..j - 1] == s[..j - 1];
      assert s[..j] == s[..j - 1] + [s[j - 1]];
      EncodeConcat(s[..j - 1], [s[j - 1]]);
    }
  }

  /** Ordinary text takes at most three JSON characters for each of its bytes. */
  lemma {:induction false} OrdinaryIsShort(s: string)
    requires Ordinary(s)
    ensures JsonBody(s) <= 3 * Size(s)
  {
    if s != [] {
      var n := |s| - 1;
      OrdinaryIsShort(s[..n]);
      assert s == s[..n] + [s[n]];
      EncodeConcat(s[..n], [s[n]]);
      assert Size([s[n]]) == Width(s[n]);
      assert s[n] in s;
    }
  }

  // ---------------------------------------------------------------------------------------------
  // Cutting bytes
  // ---------------------------------------------------------------------------------------------

  /** Decoding that leaves out every byte that does not belong to a character. */
  function DecodeIgnore(b: Bytes): string
    decreases |b|
  {
    if b == [] then []
    else
      var h := DecodeHead(b);
      if h.Malformed? then DecodeIgnore(b[1..]) else [h.value] + DecodeIgnore(b[h.width..])
  }

  /** How many characters of `s` fit in `n` bytes. */
  function Fitting(s: string, n: nat): (k: nat)
    ensures k <= |s| && Size(s[..k]) <= n
    ensures k < |s| ==> Size(s[..k + 1]) > n
  {
    if s == [] || Width(s[0]) > n then
      assert s != [] ==> s[..1] == [s[0]];
      0
    else
      var k := Fitting(s[1..], n - Width(s[0]));
      assert s[..k + 1][1..] == s[1..][..k];
      assert k < |s[1..]| ==> s[..k + 2][1..] == s[1..][..k + 1];
      k + 1
  }

  lemma {:induction false} TailsAreIgnored(b: Bytes)
    requires forall x <- b :: Tail(x)
    ensures DecodeIgnore(b) == []
  {
    if b != [] {
      assert b[0] in b;
      TailsAreIgnored(b[1..]);
    }
  }

  /** An encoded character cut short decodes to nothing. */
  lemma CutCharacter(c: char, n: nat)
    requires n < Width(c)
    ensures DecodeIgnore(EncodeChar(c)[..n]) == []
  {
    if n > 0 {
      var b := EncodeChar(c)[..n];
      assert forall i | 1 <= i < n :: Tail(b[i]);
      TailsAreIgnored(b[1..]);
      assert DecodeHead(b).Malformed?;
    }
  }

  /** Cutting behind the first character cuts the rest. */
  lemma CutBehind(e: Bytes, rest: Bytes, n: nat)
    requires |e| <= n <= |e + rest|
    ensures (e + rest)[..n] == e + rest[..n - |e|]
  {
  }

  lemma CutWithin(e: Bytes, rest: Bytes, n: nat)
    requires n <= |e|
    ensures (e + rest)[..n] == e[..n]
  {
  }

  /** A whole character in front. */
  lemma DecodeWhole(c: char, rest: Bytes)
    ensures DecodeIgnore(EncodeChar(c) + rest) == [c] + DecodeIgnore(rest)
  {
    hide EncodeChar, DecodeHead;
    DecodeHeadOfEncoded(c, rest);
    assert (EncodeChar(c) + rest)[Width(c)..] == rest;
  }

  /** Cutting the encoded bytes anywhere keeps exactly the characters that fit. */
  lemma {:induction false} CutBytes(s: string, n: nat)
    requires n <= |Encode(s)|
    ensures DecodeIgnore(Encode(s)[..n]) == s[..Fitting(s, n)]
  {
    hide EncodeChar, DecodeIgnore, Width;
    if s != [] {
      var e, rest := EncodeChar(s[0]), Encode(s[1..]);
      if n < Width(s[0]) {
        CutWithin(e, rest, n);
        CutCharacter(s[0], n);
      } else {
        var m: nat := n - Width(s[0]);
        CutBehind(e, rest, n);
        DecodeWhole(s[0], rest[..m]);
        CutBytes(s[1..], m);
        assert s[..Fitting(s, n)] == [s[0]] + s[1..][..Fitting(s[1..], m)];
      }
    } else {
      CutNothing();
    }
  }

  lemma CutNothing()
    ensures DecodeIgnore([]) == []
  {
  }

  // ---------------------------------------------------------------------------------------------
  // The bound
  // ---------------------------------------------------------------------------------------------

  predicate Within(s: string, limit: nat) {
    Size(s) <= limit && JsonLength(s) <= Budget(limit)
  }

  /** The longest prefix within both bounds. */
  ghost predicate IsBounded(text: string, limit: nat, r: string) {
    && r <= text && Within(r, limit)
    && forall k | 0 <= k <= |text| && Within(text[..k], limit) :: k <= |r|
  }

  /** `_bounded`: at most `limit` bytes of UTF-8, and then a binary search for the JSON bound. */
  method Bounded(whole: string, limit: nat) returns (text: string, ghost searched: bool)
    ensures IsBounded(whole, limit, text)
    ensures Ordinary(whole) ==> !searched && text == whole[..Fitting(whole, limit)]
  {
    text := whole;
    SizeIsEncodedLength(whole);
    var encoded := Encode(whole);
    if |encoded| > limit {
      text := DecodeIgnore(encoded[..limit]);
      CutBytes(whole, limit);
    } else {
      assert whole[..|whole|] == whole;
      LongerIsLonger(whole, Fitting(whole, limit) + if Fitting(whole, limit) < |whole| then 1 else 0, |whole|);
    }
    var n := Fitting(whole, limit);
    assert text == whole[..n];
    searched := JsonLength(text) > Budget(limit);
    if Ordinary(whole) {
      OrdinaryIsShort(text);
    }
    if JsonLength(text) > Budget(limit) {
      var fits, over := 0, |text|;
      assert text[..|text|] == text;
      while over - fits > 1
        invariant 0 <= fits < over <= |text|
        invariant JsonLength(text[..fits]) <= Budget(limit) < JsonLength(text[..over])
      {
        var middle := (fits + over) / 2;
        if JsonLength(text[..middle]) <= Budget(limit) {
          fits := middle;
        } else {
          over := middle;
        }
      }
      Longest(whole, limit, n, fits);
      text := text[..fits];
    } else {
      assert text[..n] == text;
      Longest(whole, limit, n, n);
    }
  }

  /** The two cuts one after the other find the longest prefix within both bounds. */
  lemma Longest(whole: string, limit: nat, n: nat, k: nat)
    requires k <= n == Fitting(whole, limit)
    requires JsonLength(whole[..n][..k]) <= Budget(limit)
    requires k < n ==> JsonLength(whole[..n][..k + 1]) > Budget(limit)
    ensures IsBounded(whole, limit, whole[..n][..k])
  {
    assert whole[..n][..k] == whole[..k];
    LongerIsLonger(whole, k, n);
    forall j | 0 <= j <= |whole| && Within(whole[..j], limit)
      ensures j <= k
    {
      if k < j <= n {
        assert whole[..n][..k + 1] == whole[..k + 1];
        LongerIsLonger(whole, k + 1, j);
      } else if n < j {
        LongerIsLonger(whole, n + 1, j);
      }
    }
  }

  // ---------------------------------------------------------------------------------------------
  // Capturing
  // ---------------------------------------------------------------------------------------------

  /** `_Capture`: the first `limit` bytes of a pipe; `seen` is everything the pipe has given. */
  class Capture {
    const limit: nat
    var kept: Bytes
    ghost var seen: Bytes

    ghost predicate Valid() reads this {
      kept == if |seen| <= limit then seen else seen[..limit]
    }

    constructor (limit: nat)
      ensures Valid() && this.limit == limit && seen == []
    {
      this.limit := limit;
      kept, seen := [], [];
    }

    /** One chunk, of any size: what fits is kept, the rest is dropped, and nothing is forgotten. */
    method Keep(chunk: Bytes)
      requires Valid()
      modifies this
      ensures Valid() && seen == old(seen) + chunk && old(kept) <= kept && |kept| <= limit
    {
      var room := limit - |kept|;
      if room > 0 {
        kept := kept + if |chunk| <= room then chunk else chunk[..room];
      }
      seen := seen + chunk;
    }

    /**
     * `_drain`: `pipe` is what the reads give, one after the other, up to an error or the empty chunk
     * at the end. It is read to there, and its first bytes are kept.
     */
    method Drain(pipe: seq<Bytes>)
      requires Valid() && seen == []
      modifies this
      ensures kept == (if |Given(pipe)| <= limit then Given(pipe) else Given(pipe)[..limit])
    {
      var i: nat := 0;
      assert pipe[0..] == pipe;
      while i < |pipe|
        invariant Valid() && i <= |pipe| && seen + Given(pipe[i..]) == Given(pipe)
      {
        if pipe[i] == [] {
          return;
        }
        Keep(pipe[i]);
        i := i + 1;
      }
    }
  }

  /** The bytes of a pipe up to its end. */
  function Given(pipe: seq<Bytes>): Bytes {
    if pipe == [] || pipe[0] == [] then [] else pipe[0] + Given(pipe[1..])
  }
}
