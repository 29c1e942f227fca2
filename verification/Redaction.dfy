// Card numbers in text (src/deepintshield/agentic/obligations.py, `_luhn_valid` and
// `_redact_card_numbers_in_text`). The check digit is that of ISO/IEC 7812-1, Annex B.

module Redaction {
  import opened Common

  // ---------------------------------------------------------------------------------------------
  // The check digit
  // ---------------------------------------------------------------------------------------------

  /** A digit's share of the sum: every second one is doubled, and its digits are added up. */
  function Share(value: int, doubled: bool): int {
    if !doubled then value else if 2 * value > 9 then 2 * value - 9 else 2 * value
  }

  /** The sum over the digits, taken from the right; `doubled` says how the last one counts. */
  function Sum(digits: seq<int>, doubled: bool): int {
    if digits == [] then 0
    else Share(digits[|digits| - 1], doubled) + Sum(digits[..|digits| - 1], !doubled)
  }

  function Values(text: string): (v: seq<int>)
    ensures |v| == |text| && forall i | 0 <= i < |text| :: v[i] == text[i] as int - 48
  {
    seq(|text|, i requires 0 <= i < |text| => text[i] as int - 48)
  }

  /** The last digit counts once, the one before it doubled, and so on to the left. */
  predicate Luhn(text: string) {
    Sum(Values(text), false) % 10 == 0
  }

  /** `_luhn_valid`: from the left, with the parity of the length. */
  method LuhnValid(text: string) returns (valid: bool)
    ensures valid == Luhn(text)
  {
    ghost var v := Values(text);
    var total := 0;
    var parity := |text| % 2;
    for index := 0 to |text|
      invariant total == Sum(v[..index], (|text| - index) % 2 == 1)
    {
      var value := text[index] as int - 48;
      if index % 2 == parity {
        value := value * 2;
        if value > 9 {
          value := value - 9;
        }
      }
      total := total + value;
      assert v[..index + 1][..index] == v[..index];
    }
    assert v[..|text|] == v;
    valid := total % 10 == 0;
  }

  /** How the digit at `k` counts. */
  predicate Doubled(v: seq<int>, k: nat, doubled: bool)
    requires k < |v|
  {
    doubled != ((|v| - k) % 2 == 0)
  }

  lemma {:induction false} SumWithout(v: seq<int>, k: nat, value: int, doubled: bool)
    requires k < |v|
    ensures Sum(v[k := value], doubled) == Sum(v, doubled) - Share(v[k], Doubled(v, k, doubled))
      + Share(value, Doubled(v, k, doubled))
  {
    var front := v[..|v| - 1];
    if k == |v| - 1 {
      assert v[k := value][..|v| - 1] == front;
    } else {
      assert v[k := value][..|v| - 1] == front[k := value];
      SumWithout(front, k, value, !doubled);
    }
  }

  /** The digit `value` at place `k` makes the sum right. */
  predicate Completes(v: seq<int>, k: nat, value: int)
    requires k < |v|
  {
    Sum(v[k := value], false) % 10 == 0
  }

  /** The one digit whose share brings a sum to the next ten. */
  function Filler(rest: int, doubled: bool): int {
    var wanted := (10 - rest % 10) % 10;
    if !doubled then wanted else if wanted % 2 == 0 then wanted / 2 else (wanted + 9) / 2
  }

  /** A share from 0 to 9 completes a sum exactly if it is what is wanted. */
  lemma WantedFits(rest: int, share: int)
    requires 0 <= share <= 9
    ensures (rest + share) % 10 == 0 <==> share == (10 - rest % 10) % 10
  {
  }

  /** Each share from 0 to 9 is that of one digit, doubled or not. */
  lemma ShareIs(d: int, wanted: int)
    requires 0 <= d <= 9 && 0 <= wanted <= 9
    ensures 0 <= Share(d, true) <= 9
    ensures Share(d, true) == wanted <==> d == if wanted % 2 == 0 then wanted / 2 else (wanted + 9) / 2
  {
  }

  lemma FillerFits(rest: int, doubled: bool, d: int)
    requires 0 <= d <= 9
    ensures 0 <= Filler(rest, doubled) <= 9
    ensures (rest + Share(d, doubled)) % 10 == 0 <==> d == Filler(rest, doubled)
  {
    var wanted := (10 - rest % 10) % 10;
    if doubled {
      ShareIs(d, wanted);
    }
    WantedFits(rest, Share(d, doubled));
  }

  /** For every choice of the other digits, exactly one digit at a place makes the number valid. */
  lemma OneDigitFits(v: seq<int>, k: nat) returns (value: int)
    requires k < |v|
    ensures 0 <= value <= 9
    ensures forall d | 0 <= d <= 9 :: Completes(v, k, d) <==> d == value
  {
    hide Filler, Share, Sum;
    var doubled := Doubled(v, k, false);
    var rest := Sum(v, false) - Share(v[k], doubled);
    value := Filler(rest, doubled);
    FillerFits(rest, doubled, 0);
    forall d | 0 <= d <= 9
      ensures Completes(v, k, d) <==> d == value
    {
      SumWithout(v, k, d, false);
      FillerFits(rest, doubled, d);
    }
  }

  function Digit(text: string, k: nat): int
    requires k < |text|
  {
    text[k] as int - 48
  }

  /** Changing one digit of a valid number makes it invalid. */
  lemma OneChangeShows(text: string, k: nat, c: char)
    requires Luhn(text) && k < |text| && '0' <= text[k] <= '9' && '0' <= c <= '9' && c != text[k]
    ensures !Luhn(text[k := c])
  {
    var v := Values(text);
    var value := OneDigitFits(v, k);
    assert v[k := Digit(text, k)] == v && Completes(v, k, Digit(text, k));
    assert Values(text[k := c]) == v[k := c as int - 48];
    assert !Completes(v, k, c as int - 48);
  }

  // ---------------------------------------------------------------------------------------------
  // Candidates in a text
  // ---------------------------------------------------------------------------------------------

  const REDACTED := "***"
  const MOST := 19
  const FEWEST := 13

  predicate Separator(c: char) {
    c == ' ' || c == '-'
  }

  /** Which characters count as digits; neither separators nor the mark do. */
  ghost predicate Proper(digit: char -> bool) {
    !digit('*') && !digit(' ') && !digit('-')
  }

  /** A digit, and a separator that may follow it. */
  function Step(s: string): nat {
    if |s| > 1 && Separator(s[1]) then 2 else 1
  }

  /** Where the `n`-th digit ends, with at most one separator after each one before it. */
  function After(digit: char -> bool, s: string, n: nat): (end: Option<nat>)
    ensures end.Some? ==> n <= end.value <= |s|
    decreases n
  {
    if n == 0 || s == "" || !digit(s[0]) then None
    else if n == 1 then Some(1)
    else
      var end := After(digit, s[Step(s)..], n - 1);
      if end.None? then None else Some(Step(s) + end.value)
  }

  /** `n` digits from here on, and no digit next. */
  predicate Fits(digit: char -> bool, s: string, n: nat) {
    var end := After(digit, s, n);
    end.Some? && !(end.value < |s| && digit(s[end.value]))
  }

  /** As many digits as fit, no more than `most`. */
  function Longest(digit: char -> bool, s: string, most: nat): (n: Option<nat>)
    ensures n.Some? ==> FEWEST <= n.value <= most && Fits(digit, s, n.value)
    ensures forall m: nat | (if n.Some? then n.value < m else FEWEST <= m) && m <= most :: !Fits(digit, s, m)
    decreases most
  {
    if most < FEWEST then None
    else if Fits(digit, s, most) then Some(most)
    else Longest(digit, s, most - 1)
  }

  /** The match that starts here, given whether a digit is right before it: how long it is. */
  function Match(digit: char -> bool, inside: bool, s: string): (end: Option<nat>)
    ensures end.Some? ==> 0 < end.value <= |s| && !inside && digit(s[0])
  {
    if inside || s == "" || !digit(s[0]) then None
    else
      var n := Longest(digit, s, MOST);
      if n.None? then None else After(digit, s, n.value)
  }

  function Stripped(s: string): string {
    if s == "" then ""
    else (if Separator(s[0]) then "" else [s[0]]) + Stripped(s[1..])
  }

  /** The text with every valid candidate replaced, scanned once from the left. */
  function Redact(digit: char -> bool, valid: string -> bool, inside: bool, s: string): (r: string)
    decreases |s|
  {
    if s == "" then ""
    else
      var end := Match(digit, inside, s);
      if end.None? then [s[0]] + Redact(digit, valid, digit(s[0]), s[1..])
      else
        (if valid(Stripped(s[..end.value])) then REDACTED else s[..end.value])
        + Redact(digit, valid, true, s[end.value..])
  }

  /** What one step of the scan makes of a text that is not empty, and where it goes on. */
  lemma Unfold(digit: char -> bool, valid: string -> bool, inside: bool, s: string)
    requires s != ""
    ensures var end := Match(digit, inside, s);
      && (end.None? ==> Redact(digit, valid, inside, s) == [s[0]] + Redact(digit, valid, digit(s[0]), s[1..]))
      && (end.Some? ==>
            Redact(digit, valid, inside, s)
            == (if valid(Stripped(s[..end.value])) then REDACTED else s[..end.value])
               + Redact(digit, valid, true, s[end.value..]))
  {
    hide Match, Stripped;
  }

  /** The scan from a place of the text on. */
  function Rest(digit: char -> bool, text: string, at: nat): string
    requires at <= |text|
  {
    Redact(digit, Luhn, at > 0 && digit(text[at - 1]), text[at..])
  }

  function Here(digit: char -> bool, text: string, at: nat): Option<nat>
    requires at <= |text|
  {
    Match(digit, at > 0 && digit(text[at - 1]), text[at..])
  }

  lemma RestSteps(digit: char -> bool, text: string, at: nat)
    requires at < |text|
    ensures var end := Here(digit, text, at);
      if end.None? then Rest(digit, text, at) == [text[at]] + Rest(digit, text, at + 1)
      else
        && 0 < end.value <= |text| - at
        && var candidate := text[at..at + end.value];
           Rest(digit, text, at)
           == (if Luhn(Stripped(candidate)) then REDACTED else candidate) + Rest(digit, text, at + end.value)
  {
    hide Match, Stripped, Luhn;
    var left := text[at..];
    var end := Here(digit, text, at);
    if end.None? {
      assert left[1..] == text[at + 1..];
    } else {
      MatchEnds(digit, at > 0 && digit(text[at - 1]), left);
      assert left[..end.value] == text[at..at + end.value] && left[end.value..] == text[at + end.value..];
    }
  }

  /** `_redact_card_numbers_in_text`: the scan as a loop over the text. */
  method RedactText(digit: char -> bool, text: string) returns (out: string)
    ensures out == Redact(digit, Luhn, false, text)
  {
    hide Here, Luhn, Rest, Stripped;
    out := "";
    var at: nat := 0;
    while at < |text|
      invariant 0 <= at <= |text|
      invariant Rest(digit, text, 0) == out + Rest(digit, text, at)
      decreases |text| - at
    {
      RestSteps(digit, text, at);
      var end := Here(digit, text, at);
      if end.None? {
        out := out + [text[at]];
        at := at + 1;
      } else {
        var candidate := text[at..at + end.value];
        var valid := LuhnValid(Stripped(candidate));
        out := out + if valid then REDACTED else candidate;
        at := at + end.value;
      }
    }
    RestEnds(digit, text);
  }

  lemma RestEnds(digit: char -> bool, text: string)
    ensures Rest(digit, text, |text|) == ""
    ensures Rest(digit, text, 0) == Redact(digit, Luhn, false, text)
  {
  }

  /** A match ends right after a digit and right before none. */
  lemma MatchEnds(digit: char -> bool, inside: bool, s: string)
    requires Match(digit, inside, s).Some?
    ensures var end := Match(digit, inside, s).value;
      0 < end <= |s| && digit(s[end - 1]) && (end < |s| ==> !digit(s[end]))
  {
    hide Longest, After;
    AfterDigit(digit, s, Longest(digit, s, MOST).value);
  }

  lemma {:induction false} AfterDigit(digit: char -> bool, s: string, n: nat)
    requires After(digit, s, n).Some?
    ensures n > 0 && After(digit, s, n).value > 0 && digit(s[After(digit, s, n).value - 1])
    decreases n
  {
    if n > 1 {
      AfterDigit(digit, s[Step(s)..], n - 1);
    }
  }

  // ---------------------------------------------------------------------------------------------
  // Redacting twice
  // ---------------------------------------------------------------------------------------------

  /** How much of a text the scan keeps before it replaces something. */
  function Kept(digit: char -> bool, valid: string -> bool, inside: bool, s: string): nat
    decreases |s|
  {
    if s == "" then 0
    else
      var end := Match(digit, inside, s);
      if end.None? then 1 + Kept(digit, valid, digit(s[0]), s[1..])
      else if valid(Stripped(s[..end.value])) then 0
      else end.value + Kept(digit, valid, true, s[end.value..])
  }

  /** Up to `k` a result is the text; there it has a mark, with no digit of the text right before it. */
  predicate SameUpTo(digit: char -> bool, k: nat, inside: bool, s: string, r: string) {
    && k <= |s| && k <= |r| && r[..k] == s[..k]
    && (k == |r| <==> k == |s|)
    && (k < |r| ==> r[k] == '*' && if k == 0 then !inside else !digit(s[k - 1]))
  }

  lemma Glue(digit: char -> bool, a: string, k: nat, s: string, r: string, inside: bool)
    requires a != "" && SameUpTo(digit, k, digit(a[|a| - 1]), s, r)
    ensures SameUpTo(digit, |a| + k, inside, a + s, a + r)
  {
  }

  lemma UnfoldKept(digit: char -> bool, valid: string -> bool, inside: bool, s: string)
    requires s != ""
    ensures var end := Match(digit, inside, s);
      && (end.None? ==> Kept(digit, valid, inside, s) == 1 + Kept(digit, valid, digit(s[0]), s[1..]))
      && (end.Some? ==>
            Kept(digit, valid, inside, s)
            == if valid(Stripped(s[..end.value])) then 0 else end.value + Kept(digit, valid, true, s[end.value..]))
  {
    hide Match, Stripped;
  }

  /** A stretch of the text that the scan takes over as it is. */
  lemma KeptPart(digit: char -> bool, valid: string -> bool, inside: bool, s: string, n: nat)
    requires 0 < n <= |s|
    requires var k, r := Kept(digit, valid, digit(s[n - 1]), s[n..]), Redact(digit, valid, digit(s[n - 1]), s[n..]);
      && SameUpTo(digit, k, digit(s[n - 1]), s[n..], r)
      && Redact(digit, valid, inside, s) == s[..n] + r && Kept(digit, valid, inside, s) == n + k
    ensures SameUpTo(digit, Kept(digit, valid, inside, s), inside, s, Redact(digit, valid, inside, s))
  {
    hide Redact, Kept, SameUpTo;
    var k, r := Kept(digit, valid, digit(s[n - 1]), s[n..]), Redact(digit, valid, digit(s[n - 1]), s[n..]);
    Glue(digit, s[..n], k, s[n..], r, inside);
    assert s[..n] + s[n..] == s;
  }

  lemma KeptMarked(digit: char -> bool, valid: string -> bool, inside: bool, s: string)
    requires s != "" && Match(digit, inside, s).Some? && valid(Stripped(s[..Match(digit, inside, s).value]))
    ensures SameUpTo(digit, Kept(digit, valid, inside, s), inside, s, Redact(digit, valid, inside, s))
  {
    hide Stripped, Longest;
    StartsMarked(digit, inside, s, Redact(digit, valid, inside, s));
  }

  lemma {:induction false} KeptIsSame(digit: char -> bool, valid: string -> bool, inside: bool, s: string)
    ensures SameUpTo(digit, Kept(digit, valid, inside, s), inside, s, Redact(digit, valid, inside, s))
    decreases |s|
  {
    if s == "" {
      EmptyIsSame(digit, inside);
      return;
    }
    hide Match, Stripped, SameUpTo, Kept, Redact;
    Unfold(digit, valid, inside, s);
    UnfoldKept(digit, valid, inside, s);
    var end := Match(digit, inside, s);
    if end.None? {
      KeptIsSame(digit, valid, digit(s[0]), s[1..]);
      assert [s[0]] == s[..1];
      KeptPart(digit, valid, inside, s, 1);
    } else {
      MatchEnds(digit, inside, s);
      if valid(Stripped(s[..end.value])) {
        KeptMarked(digit, valid, inside, s);
      } else {
        KeptIsSame(digit, valid, true, s[end.value..]);
        KeptPart(digit, valid, inside, s, end.value);
      }
    }
  }

  lemma EmptyIsSame(digit: char -> bool, inside: bool)
    ensures SameUpTo(digit, 0, inside, "", "")
  {
  }

  lemma StartsMarked(digit: char -> bool, inside: bool, s: string, r: string)
    requires s != "" && r != "" && r[0] == '*' && !inside
    ensures SameUpTo(digit, 0, inside, s, r)
  {
  }

  predicate Agree(r: string, s: string, end: nat) {
    end <= |r| && end <= |s| && forall i | 0 <= i < end :: r[i] == s[i]
  }

  lemma AgreeLater(r: string, s: string, end: nat)
    requires Agree(r, s, end) && end > Step(r)
    ensures r[0] == s[0] && Step(s) == Step(r)
    ensures Agree(r[Step(r)..], s[Step(r)..], end - Step(r))
  {
  }

  /** Where digits end depends only on what is up to there. */
  lemma {:induction false} AfterIsLocal(digit: char -> bool, r: string, s: string, n: nat)
    requires After(digit, r, n).Some? && Agree(r, s, After(digit, r, n).value)
    ensures After(digit, s, n) == After(digit, r, n)
    decreases n
  {
    if n > 1 {
      AfterDigit(digit, r[Step(r)..], n - 1);
      AgreeLater(r, s, After(digit, r, n).value);
      hide Agree, Step;
      AfterIsLocal(digit, r[Step(r)..], s[Step(r)..], n - 1);
    } else {
      assert s[0] == r[0];
    }
  }

  /** Digits end before a mark. */
  lemma {:induction false} MarkStops(digit: char -> bool, s: string, n: nat, k: nat)
    requires Proper(digit) && After(digit, s, n).Some? && k < |s| && s[k] == '*'
    ensures After(digit, s, n).value <= k
    decreases n
  {
    if n > 1 {
      var step := Step(s);
      if k >= step {
        MarkStops(digit, s[step..], n - 1, k - step);
      }
    }
  }

  /** Redacting makes no new candidate: digits that fit in the result fit in the text. */
  lemma FitsBefore(digit: char -> bool, valid: string -> bool, inside: bool, s: string, n: nat)
    requires Proper(digit) && Fits(digit, Redact(digit, valid, inside, s), n)
    ensures Fits(digit, s, n) && After(digit, s, n) == After(digit, Redact(digit, valid, inside, s), n)
  {
    hide Redact, Kept, After;
    var k, r := Kept(digit, valid, inside, s), Redact(digit, valid, inside, s);
    KeptIsSame(digit, valid, inside, s);
    if k < |r| {
      MarkStops(digit, r, n, k);
    }
    SameFits(digit, k, inside, s, r, n);
  }

  lemma SameFits(digit: char -> bool, k: nat, inside: bool, s: string, r: string, n: nat)
    requires SameUpTo(digit, k, inside, s, r) && Fits(digit, r, n) && After(digit, r, n).value <= k
    ensures Fits(digit, s, n) && After(digit, s, n) == After(digit, r, n)
  {
    hide After;
    var end := After(digit, r, n).value;
    AfterDigit(digit, r, n);
    assert forall i | 0 <= i < k :: r[i] == r[..k][i] == s[..k][i] == s[i];
    AfterIsLocal(digit, r, s, n);
  }

  /** What fits in a text still fits in its result, up to where nothing is replaced. */
  lemma FitsAfter(digit: char -> bool, a: string, s: string, r: string, n: nat)
    requires After(digit, a + s, n) == Some(|a|) && Fits(digit, a + s, n)
    requires r == "" || (s != "" && r[0] == s[0])
    ensures After(digit, a + r, n) == Some(|a|) && Fits(digit, a + r, n)
  {
    hide After;
    assert Agree(a + s, a + r, |a|);
    AfterIsLocal(digit, a + s, a + r, n);
    assert s != "" ==> (a + s)[|a|] == s[0];
    assert r != "" ==> (a + r)[|a|] == r[0];
  }

  lemma {:induction false} LongestIs(digit: char -> bool, s: string, n: nat, most: nat)
    requires FEWEST <= n <= most && Fits(digit, s, n) && forall m: nat | n < m <= most :: !Fits(digit, s, m)
    ensures Longest(digit, s, most) == Some(n)
    decreases most
  {
  }

  /** A character that starts no match starts none in the result either. */
  lemma NoNewMatch(digit: char -> bool, valid: string -> bool, inside: bool, s: string, inside': bool)
    requires Proper(digit) && s != "" && Match(digit, inside, s).None?
    requires inside == inside' || !digit(s[0])
    ensures Match(digit, inside', Redact(digit, valid, inside, s)).None?
  {
    hide After;
    var r := Redact(digit, valid, inside, s);
    assert r[0] == s[0];
    forall n: nat | FEWEST <= n <= MOST && Fits(digit, r, n)
      ensures Fits(digit, s, n)
    {
      FitsBefore(digit, valid, inside, s, n);
    }
  }

  /** A match that is kept is the match of the result. */
  lemma KeptMatch(digit: char -> bool, valid: string -> bool, s: string, inside: bool)
    requires Proper(digit) && s != "" && Match(digit, inside, s).Some?
    requires !valid(Stripped(s[..Match(digit, inside, s).value]))
    ensures Match(digit, false, Redact(digit, valid, inside, s)) == Match(digit, inside, s)
  {
    hide After, Stripped;
    var end := Match(digit, inside, s).value;
    var n := Longest(digit, s, MOST).value;
    var a, rest := s[..end], s[end..];
    var r := Redact(digit, valid, inside, s);
    assert s == a + rest && r == a + Redact(digit, valid, true, rest);
    FitsAfter(digit, a, rest, Redact(digit, valid, true, rest), n);
    forall m: nat | n < m <= MOST && Fits(digit, r, m)
      ensures Fits(digit, s, m)
    {
      FitsBefore(digit, valid, inside, s, m);
    }
    LongestIs(digit, r, n, MOST);
  }

  /** Redacting is idempotent, whatever counts as a digit and as valid. */
  lemma {:induction false} RedactTwice(digit: char -> bool, valid: string -> bool, inside: bool, inside': bool,
      s: string)
    requires Proper(digit) && (inside == inside' || s == "" || !digit(s[0]))
    ensures var r := Redact(digit, valid, inside, s); Redact(digit, valid, inside', r) == r
    decreases |s|
  {
    hide Match, Stripped;
    if s == "" {
      return;
    }
    var end := Match(digit, inside, s);
    var r := Redact(digit, valid, inside, s);
    if end.None? {
      NoNewMatch(digit, valid, inside, s, inside');
      RedactTwice(digit, valid, digit(s[0]), digit(s[0]), s[1..]);
      assert r[1..] == Redact(digit, valid, digit(s[0]), s[1..]);
      Unfold(digit, valid, inside', r);
    } else {
      MatchEnds(digit, inside, s);
      var a, rest := s[..end.value], s[end.value..];
      RedactTwice(digit, valid, true, true, rest);
      RedactTwice(digit, valid, true, false, rest);
      if valid(Stripped(a)) {
        Marked(digit, valid, inside', Redact(digit, valid, true, rest));
      } else {
        KeptMatch(digit, valid, s, inside);
        NotInside(digit, inside, s);
        assert r[..end.value] == a && r[end.value..] == Redact(digit, valid, true, rest);
        Unfold(digit, valid, inside', r);
      }
    }
  }

  lemma NotInside(digit: char -> bool, inside: bool, s: string)
    requires Match(digit, inside, s).Some?
    ensures !inside && s != "" && digit(s[0])
  {
  }

  /** The mark is passed over. */
  lemma Marked(digit: char -> bool, valid: string -> bool, inside: bool, rest: string)
    requires Proper(digit)
    ensures Redact(digit, valid, inside, REDACTED + rest) == REDACTED + Redact(digit, valid, false, rest)
  {
    hide Redact;
    Passed(digit, valid, inside, "**" + rest);
    Passed(digit, valid, false, "*" + rest);
    Passed(digit, valid, false, rest);
    assert REDACTED + rest == "*" + ("**" + rest) && "**" + rest == "*" + ("*" + rest);
  }

  lemma Passed(digit: char -> bool, valid: string -> bool, inside: bool, rest: string)
    requires Proper(digit)
    ensures Redact(digit, valid, inside, "*" + rest) == "*" + Redact(digit, valid, false, rest)
  {
    var s := "*" + rest;
    assert s[0] == '*' && s[1..] == rest;
    assert Match(digit, inside, s).None?;
    hide Match;
  }

  lemma NotMarked(digit: char -> bool, s: string, rest: string)
    requires Proper(digit) && s != "" && digit(s[0])
    ensures REDACTED + rest != s
  {
  }

  /** A text that redacting leaves alone has no valid candidate. */
  lemma {:induction false} UnchangedIsKept(digit: char -> bool, valid: string -> bool, inside: bool, s: string)
    requires Proper(digit) && Redact(digit, valid, inside, s) == s
    ensures Kept(digit, valid, inside, s) == |s|
    decreases |s|
  {
    hide Match, Stripped;
    if s != "" {
      var end := Match(digit, inside, s);
      Unfold(digit, valid, inside, s);
      if end.None? {
        assert s[1..] == ([s[0]] + Redact(digit, valid, digit(s[0]), s[1..]))[1..];
        UnchangedIsKept(digit, valid, digit(s[0]), s[1..]);
      } else {
        MatchEnds(digit, inside, s);
        NotInside(digit, inside, s);
        var a, rest := s[..end.value], s[end.value..];
        NotMarked(digit, s, Redact(digit, valid, true, rest));
        assert rest == (a + Redact(digit, valid, true, rest))[end.value..];
        UnchangedIsKept(digit, valid, true, rest);
      }
    }
  }

  /** Scanning the result again changes nothing and finds no valid card number. */
  lemma RescanFindsNothing(digit: char -> bool, text: string)
    requires Proper(digit)
    ensures var r := Redact(digit, Luhn, false, text);
      Redact(digit, Luhn, false, r) == r && Kept(digit, Luhn, false, r) == |r|
  {
    RedactTwice(digit, Luhn, false, false, text);
    UnchangedIsKept(digit, Luhn, false, Redact(digit, Luhn, false, text));
  }
}
