// Which numbers in a text are replaced (src/deepintshield/agentic/obligations.py): those of 13 to 19
// digits that pass the check, printed with or without single separators.

module CardNumbers {
  import opened Common
  import opened Redaction

  // ---------------------------------------------------------------------------------------------
  // Printed numbers
  // ---------------------------------------------------------------------------------------------

  predicate Gap(g: string) {
    g == "" || g == " " || g == "-"
  }

  /** A number with what stands between its digits. */
  function Printed(digits: string, gaps: seq<string>): (r: string)
    requires digits != "" && |gaps| == |digits| - 1
    ensures r != "" && r[0] == digits[0]
  {
    if |digits| == 1 then digits else [digits[0]] + gaps[0] + Printed(digits[1..], gaps[1..])
  }

  predicate Number(digit: char -> bool, digits: string, gaps: seq<string>) {
    && digits != "" && |gaps| == |digits| - 1
    && (forall c <- digits :: digit(c)) && (forall g <- gaps :: Gap(g))
  }

  /** Nothing after it goes on with the number: no digit, with or without a separator before it. */
  predicate Closes(digit: char -> bool, after: string) {
    && (after != "" ==> !digit(after[0]))
    && (|after| > 1 && Separator(after[0]) ==> !digit(after[1]))
  }

  /** Nothing before it can belong to the number. */
  predicate Opens(digit: char -> bool, before: string) {
    before != "" ==> !digit(before[|before| - 1]) && !Separator(before[|before| - 1])
  }

  lemma NumberTail(digit: char -> bool, digits: string, gaps: seq<string>)
    requires Number(digit, digits, gaps) && |digits| > 1
    ensures Number(digit, digits[1..], gaps[1..]) && Gap(gaps[0]) && digit(digits[0])
  {
    assert digits == [digits[0]] + digits[1..] && gaps == [gaps[0]] + gaps[1..];
  }

  lemma Behind(c: char, gap: string, rest: string, after: string)
    requires Gap(gap) && rest != ""
    ensures var s := [c] + gap + rest + after;
      && s[0] == c && s[1 + |gap|..] == rest + after
      && s[1] == if gap == "" then rest[0] else gap[0]
  {
    var s := [c] + gap + rest + after;
    assert s == ([c] + gap) + (rest + after);
    if gap == "" {
      assert [c] + gap == [c];
    }
  }

  /** The first digit, and where the next one stands. */
  lemma FirstStep(digit: char -> bool, digits: string, gaps: seq<string>, after: string)
    requires Proper(digit) && Number(digit, digits, gaps) && |digits| > 1
    ensures var s := Printed(digits, gaps) + after;
      && s[0] == digits[0] && Step(s) == 1 + |gaps[0]| <= |Printed(digits, gaps)|
      && s[Step(s)..] == Printed(digits[1..], gaps[1..]) + after
  {
    NumberTail(digit, digits, gaps);
    var rest := Printed(digits[1..], gaps[1..]);
    assert digit(digits[1..][0]) by {
      assert digits[1] in digits;
    }
    assert Printed(digits, gaps) == [digits[0]] + gaps[0] + rest;
    hide Number, Printed;
    Behind(digits[0], gaps[0], rest, after);
  }

  /** All its digits are found, and no more. */
  lemma {:induction false} DigitsFound(digit: char -> bool, digits: string, gaps: seq<string>, after: string, n: nat)
    requires Proper(digit) && Number(digit, digits, gaps) && Closes(digit, after) && n >= |digits|
    ensures After(digit, Printed(digits, gaps) + after, n)
         == if n == |digits| then Some(|Printed(digits, gaps)|) else None
    decreases |digits|
  {
    var s := Printed(digits, gaps) + after;
    assert digits[0] in digits;
    if |digits| == 1 {
      assert s == digits + after && s[1..] == after;
      assert |s| > 1 && Separator(s[1]) ==> s[2..] == after[1..];
    } else {
      NumberTail(digit, digits, gaps);
      FirstStep(digit, digits, gaps, after);
      DigitsFound(digit, digits[1..], gaps[1..], after, n - 1);
    }
  }

  lemma StrippedOne(c: char, rest: string)
    ensures Stripped([c] + rest) == (if Separator(c) then "" else [c]) + Stripped(rest)
  {
    assert ([c] + rest)[1..] == rest;
  }

  lemma StrippedGap(gap: string, rest: string)
    requires Gap(gap)
    ensures Stripped(gap + rest) == Stripped(rest)
  {
    if gap == "" {
      assert gap + rest == rest;
    } else {
      assert gap == [gap[0]] && gap + rest == [gap[0]] + rest;
      StrippedOne(gap[0], rest);
    }
  }

  lemma PrintedOn(digits: string, gaps: seq<string>)
    requires digits != "" && |gaps| == |digits| - 1
    ensures |digits| == 1 ==> Printed(digits, gaps) == [digits[0]] + ""
    ensures |digits| > 1 ==> Printed(digits, gaps) == [digits[0]] + (gaps[0] + Printed(digits[1..], gaps[1..]))
  {
    if |digits| == 1 {
      assert digits == [digits[0]] + "";
    }
  }

  lemma {:induction false} StrippedPrinted(digit: char -> bool, digits: string, gaps: seq<string>)
    requires Proper(digit) && Number(digit, digits, gaps)
    ensures Stripped(Printed(digits, gaps)) == digits
    decreases |digits|
  {
    PrintedOn(digits, gaps);
    assert digits[0] in digits && digits == [digits[0]] + digits[1..];
    if |digits| == 1 {
      StrippedOne(digits[0], "");
    } else {
      NumberTail(digit, digits, gaps);
      StrippedPrinted(digit, digits[1..], gaps[1..]);
      hide Stripped, Printed;
      var rest := Printed(digits[1..], gaps[1..]);
      StrippedOne(digits[0], gaps[0] + rest);
      StrippedGap(gaps[0], rest);
    }
  }

  /** The number is one candidate if it has 13 to 19 digits, and none if it has fewer. */
  lemma NumberMatches(digit: char -> bool, digits: string, gaps: seq<string>, after: string)
    requires Proper(digit) && Number(digit, digits, gaps) && Closes(digit, after) && |digits| <= 19
    ensures Match(digit, false, Printed(digits, gaps) + after)
         == if 13 <= |digits| then Some(|Printed(digits, gaps)|) else None
  {
    hide After;
    var s := Printed(digits, gaps) + after;
    assert digits[0] in digits;
    forall m: nat | m >= |digits|
      ensures After(digit, s, m) == if m == |digits| then Some(|Printed(digits, gaps)|) else None
    {
      DigitsFound(digit, digits, gaps, after, m);
    }
    assert s[|Printed(digits, gaps)|..] == after;
    if 13 <= |digits| {
      LongestIs(digit, s, |digits|, MOST);
    }
  }

  // ---------------------------------------------------------------------------------------------
  // The check
  // ---------------------------------------------------------------------------------------------

  /** The share of a digit at a place: every second one from the right, but not the last, is doubled. */
  function PlaceShare(value: int, fromRight: nat): int {
    if fromRight % 2 == 0 then value
    else if value < 5 then 2 * value
    else 2 * value - 9
  }

  /** The shares of the first n digits. */
  function Shares(v: seq<int>, n: nat): int
    requires n <= |v|
  {
    if n == 0 then 0 else Shares(v, n - 1) + PlaceShare(v[n - 1], |v| - n)
  }

  lemma {:induction false} SumOfPart(v: seq<int>, n: nat)
    requires n <= |v|
    ensures Sum(v[..n], (|v| - n) % 2 == 1) == Shares(v, n)
  {
    if n > 0 {
      SumOfPart(v, n - 1);
      assert v[..n][..n - 1] == v[..n - 1];
    }
  }

  /** A number passes the check exactly if its shares add up to a multiple of ten. */
  lemma CheckSays(text: string)
    ensures Luhn(text) <==> Shares(Values(text), |text|) % 10 == 0
  {
    var v := Values(text);
    SumOfPart(v, |v|);
    assert v[..|v|] == v;
  }

  // ---------------------------------------------------------------------------------------------
  // What is around it
  // ---------------------------------------------------------------------------------------------

  /** The scan of a text that begins with no digit does not depend on what is before it. */
  lemma InsideIsNothing(digit: char -> bool, valid: string -> bool, s: string)
    requires s == "" || !digit(s[0])
    ensures Redact(digit, valid, true, s) == Redact(digit, valid, false, s)
  {
    if s != "" {
      Unfold(digit, valid, true, s);
      Unfold(digit, valid, false, s);
      assert Match(digit, true, s).None? && Match(digit, false, s).None?;
    }
  }

  lemma {:induction false} DigitsStop(digit: char -> bool, a: string, b: string, n: nat)
    requires a != "" && Opens(digit, a)
    ensures After(digit, a + b, n) == After(digit, a, n)
    ensures After(digit, a, n).Some? ==> After(digit, a, n).value < |a|
    decreases n
  {
    if n > 0 && digit(a[0]) {
      assert |a| > 1;
      if n > 1 {
        var step := Step(a);
        assert Step(a + b) == step;
        assert step < |a|;
        assert (a + b)[step..] == a[step..] + b;
        assert a[step..][|a[step..]| - 1] == a[|a| - 1];
        DigitsStop(digit, a[step..], b, n - 1);
      }
    }
  }

  lemma MatchStops(digit: char -> bool, inside: bool, a: string, b: string)
    requires a != "" && Opens(digit, a)
    ensures Match(digit, inside, a + b) == Match(digit, inside, a)
    ensures Match(digit, inside, a).Some? ==> Match(digit, inside, a).value < |a|
  {
    hide After;
    forall n: nat
      ensures After(digit, a + b, n) == After(digit, a, n)
      ensures After(digit, a, n).Some? ==> After(digit, a, n).value < |a|
    {
      DigitsStop(digit, a, b, n);
    }
    assert forall n: nat :: Fits(digit, a + b, n) <==> Fits(digit, a, n);
    SameLongest(digit, a, a + b, MOST);
  }

  lemma {:induction false} SameLongest(digit: char -> bool, a: string, b: string, most: nat)
    requires forall n: nat :: Fits(digit, b, n) <==> Fits(digit, a, n)
    ensures Longest(digit, b, most) == Longest(digit, a, most)
    decreases most
  {
    if most >= FEWEST {
      SameLongest(digit, a, b, most - 1);
    }
  }

  /** Texts with a boundary between them are scanned one after the other. */
  lemma {:induction false} BoundaryParts(digit: char -> bool, valid: string -> bool, inside: bool, a: string, b: string)
    requires a != "" && Opens(digit, a)
    ensures Redact(digit, valid, inside, a + b) == Redact(digit, valid, inside, a) + Redact(digit, valid, false, b)
    decreases |a|
  {
    hide Match, Redact, Stripped;
    MatchStops(digit, inside, a, b);
    Unfold(digit, valid, inside, a);
    Unfold(digit, valid, inside, a + b);
    var end := Match(digit, inside, a);
    if end.None? {
      assert (a + b)[1..] == a[1..] + b;
      if |a| == 1 {
        assert a + b == a + ([] + b) && a[1..] + b == b;
        NothingLeft(digit, valid, digit(a[0]));
      } else {
        BoundaryParts(digit, valid, digit(a[0]), a[1..], b);
      }
    } else {
      assert (a + b)[end.value..] == a[end.value..] + b && (a + b)[..end.value] == a[..end.value];
      BoundaryParts(digit, valid, true, a[end.value..], b);
    }
  }

  lemma NothingLeft(digit: char -> bool, valid: string -> bool, inside: bool)
    ensures Redact(digit, valid, inside, "") == ""
  {
  }

  /** After a boundary a text is scanned as if it stood alone. */
  lemma Parts(digit: char -> bool, valid: string -> bool, before: string, rest: string)
    requires Opens(digit, before)
    ensures Redact(digit, valid, false, before + rest)
         == Redact(digit, valid, false, before) + Redact(digit, valid, false, rest)
  {
    if before == "" {
      assert before + rest == rest;
    } else {
      BoundaryParts(digit, valid, false, before, rest);
    }
  }

  // ---------------------------------------------------------------------------------------------
  // Main results
  // ---------------------------------------------------------------------------------------------

  /**
   * A number of 13 to 19 digits, printed with or without single separators, between texts that do not go
   * on with it: it is replaced if and only if it is valid, and the texts are scanned by themselves.
   */
  lemma CardIsReplaced(digit: char -> bool, valid: string -> bool, before: string, digits: string, gaps: seq<string>,
      after: string)
    requires Proper(digit) && Number(digit, digits, gaps) && Opens(digit, before) && Closes(digit, after)
    requires 13 <= |digits| <= 19
    ensures var card := Printed(digits, gaps);
      Redact(digit, valid, false, before + card + after)
      == Redact(digit, valid, false, before)
         + (if valid(digits) then "***" else card)
         + Redact(digit, valid, false, after)
  {
    hide Match, Redact, Stripped;
    var card := Printed(digits, gaps);
    NumberMatches(digit, digits, gaps, after);
    StrippedPrinted(digit, digits, gaps);
    Unfold(digit, valid, false, card + after);
    assert (card + after)[..|card|] == card && (card + after)[|card|..] == after;
    InsideIsNothing(digit, valid, after);
    Parts(digit, valid, before, card + after);
    assert before + card + after == before + (card + after);
  }

  /** A character that begins no candidate is kept. */
  lemma OneKept(digit: char -> bool, valid: string -> bool, inside: bool, c: char, rest: string)
    requires Match(digit, inside, [c] + rest).None?
    ensures Redact(digit, valid, inside, [c] + rest) == [c] + Redact(digit, valid, digit(c), rest)
  {
    hide Match, Redact, Stripped;
    var s := [c] + rest;
    assert s[0] == c && s[1..] == rest;
    Unfold(digit, valid, inside, s);
  }

  lemma Regroup(c: char, middle: string, rest: string)
    ensures [c] + (middle + rest) == ([c] + middle) + rest
  {
  }

  lemma InsideNeverMatches(digit: char -> bool, s: string)
    ensures Match(digit, true, s).None?
  {
  }

  lemma {:induction false} InsideRun(digit: char -> bool, valid: string -> bool, digits: string, after: string)
    requires (forall c <- digits :: digit(c)) && (after == "" || !digit(after[0]))
    ensures Redact(digit, valid, true, digits + after) == digits + Redact(digit, valid, false, after)
    decreases |digits|
  {
    InsideIsNothing(digit, valid, after);
    hide Match, Redact;
    if digits == "" {
      assert digits + after == after;
    } else {
      var first, rest := digits[0], digits[1..];
      assert [first] + rest == digits && first in digits;
      assert forall c <- rest :: c in digits;
      Regroup(first, rest, after);
      InsideNeverMatches(digit, digits + after);
      OneKept(digit, valid, true, first, rest + after);
      InsideRun(digit, valid, rest, after);
      Regroup(first, rest, Redact(digit, valid, false, after));
    }
  }

  lemma {:induction false} RunDigits(digit: char -> bool, digits: string, after: string, n: nat)
    requires Proper(digit) && (forall c <- digits :: digit(c)) && 0 < n <= |digits|
    ensures After(digit, digits + after, n) == Some(n)
    decreases n
  {
    var s := digits + after;
    assert digits[0] in digits;
    if n > 1 {
      assert s[1] == digits[1] && digits[1] in digits;
      assert s[1..] == digits[1..] + after;
      RunDigits(digit, digits[1..], after, n - 1);
    }
  }

  lemma NoneFits(digit: char -> bool, digits: string, after: string, n: nat)
    requires Proper(digit) && (forall c <- digits :: digit(c)) && 0 < n < |digits|
    ensures !Fits(digit, digits + after, n)
  {
    hide After;
    RunDigits(digit, digits, after, n);
    assert (digits + after)[n] == digits[n] && digits[n] in digits;
  }

  lemma LongRunMatches(digit: char -> bool, digits: string, after: string)
    requires Proper(digit) && (forall c <- digits :: digit(c)) && |digits| > 19
    ensures Match(digit, false, digits + after).None?
  {
    hide Fits, After;
    forall n: nat | 13 <= n <= 19
      ensures !Fits(digit, digits + after, n)
    {
      NoneFits(digit, digits, after, n);
    }
  }

  /** A run of digits that is too long holds no candidate. */
  lemma LongRunIsKept(digit: char -> bool, valid: string -> bool, digits: string, after: string)
    requires Proper(digit) && (forall c <- digits :: digit(c)) && |digits| > 19
    requires after == "" || !digit(after[0])
    ensures Redact(digit, valid, false, digits + after) == digits + Redact(digit, valid, false, after)
  {
    LongRunMatches(digit, digits, after);
    hide Match, Redact;
    var first, rest := digits[0], digits[1..];
    assert [first] + rest == digits && first in digits;
    assert forall c <- rest :: c in digits;
    Regroup(first, rest, after);
    OneKept(digit, valid, false, first, rest + after);
    InsideRun(digit, valid, rest, after);
    Regroup(first, rest, Redact(digit, valid, false, after));
  }

  /** A number of fewer than 13 digits is kept, however it is printed. */
  lemma {:induction false} ShortNumberIsKept(digit: char -> bool, valid: string -> bool, digits: string,
      gaps: seq<string>, after: string)
    requires Proper(digit) && Number(digit, digits, gaps) && Closes(digit, after) && |digits| < 13
    ensures var number := Printed(digits, gaps);
      Redact(digit, valid, false, number + after) == number + Redact(digit, valid, false, after)
    decreases |digits|
  {
    ShortFrom(digit, valid, false, digits, gaps, after);
  }

  lemma {:induction false} ShortFrom(digit: char -> bool, valid: string -> bool, inside: bool, digits: string,
      gaps: seq<string>, after: string)
    requires Proper(digit) && Number(digit, digits, gaps) && Closes(digit, after) && |digits| < 13
    ensures var number := Printed(digits, gaps);
      Redact(digit, valid, inside, number + after) == number + Redact(digit, valid, false, after)
    decreases |digits|
  {
    hide Match, Redact, Printed;
    assert digits[0] in digits;
    NumberMatches(digit, digits, gaps, after);
    InsideNeverMatches(digit, Printed(digits, gaps) + after);
    PrintedOn(digits, gaps);
    if |digits| == 1 {
      assert Printed(digits, gaps) == [digits[0]];
      OneKept(digit, valid, inside, digits[0], after);
      InsideIsNothing(digit, valid, after);
    } else {
      NumberTail(digit, digits, gaps);
      var gap, rest := gaps[0], Printed(digits[1..], gaps[1..]);
      Regroup(digits[0], gap + rest, after);
      assert (gap + rest) + after == gap + (rest + after);
      OneKept(digit, valid, inside, digits[0], gap + (rest + after));
      GapIsKept(digit, valid, digits[0], gap, rest + after);
      ShortFrom(digit, valid, gap == "", digits[1..], gaps[1..], after);
      var end := Redact(digit, valid, false, after);
      assert gap + (rest + end) == (gap + rest) + end;
      Regroup(digits[0], gap + rest, end);
    }
  }

  lemma GapIsKept(digit: char -> bool, valid: string -> bool, before: char, gap: string, rest: string)
    requires Proper(digit) && Gap(gap) && digit(before)
    ensures Redact(digit, valid, true, gap + rest) == gap + Redact(digit, valid, gap == "", rest)
  {
    if gap == "" {
      assert gap + rest == rest;
    } else {
      Unfold(digit, valid, true, gap + rest);
      assert (gap + rest)[0] == gap[0] && (gap + rest)[1..] == rest;
      assert Match(digit, true, gap + rest).None?;
      assert gap == [gap[0]];
    }
  }

  /** The exact condition, for a whole number of up to 19 digits between texts that do not go on with it. */
  lemma ReplacedExactlyWhenValid(digit: char -> bool, valid: string -> bool, before: string, digits: string,
      gaps: seq<string>, after: string)
    requires Proper(digit) && Number(digit, digits, gaps) && Opens(digit, before) && Closes(digit, after)
    requires |digits| <= 19
    ensures var number := Printed(digits, gaps);
      Redact(digit, valid, false, before + number + after)
      == Redact(digit, valid, false, before)
         + (if 13 <= |digits| && valid(digits) then "***" else number)
         + Redact(digit, valid, false, after)
  {
    hide Redact;
    if 13 <= |digits| {
      CardIsReplaced(digit, valid, before, digits, gaps, after);
    } else {
      var number := Printed(digits, gaps);
      ShortNumberIsKept(digit, valid, digits, gaps, after);
      Parts(digit, valid, before, number + after);
      assert before + number + after == before + (number + after);
    }
  }

  // ---------------------------------------------------------------------------------------------
  // A number beside another
  // ---------------------------------------------------------------------------------------------

  lemma {:induction false} TightIsPrinted(digit: char -> bool, digits: string, gaps: seq<string>)
    requires (forall c <- digits :: digit(c)) && digits != "" && |gaps| == |digits| - 1
    requires forall i | 0 <= i < |gaps| :: gaps[i] == ""
    ensures Number(digit, digits, gaps) && Printed(digits, gaps) == digits
    decreases |digits|
  {
    assert Number(digit, digits, gaps);
    PrintedOn(digits, gaps);
    if |digits| == 1 {
      assert [digits[0]] + "" == digits;
    } else {
      hide Number, Printed;
      var first, rest := digits[0], digits[1..];
      assert digits == [first] + rest;
      assert forall c <- rest :: c in digits;
      TightIsPrinted(digit, rest, gaps[1..]);
      assert gaps[0] + rest == rest;
    }
  }

  /** A number alone, printed in any way. */
  lemma Alone(digit: char -> bool, digits: string, gaps: seq<string>)
    requires Proper(digit) && Number(digit, digits, gaps) && 13 <= |digits| <= 19
    ensures var card := Printed(digits, gaps);
      Redact(digit, Luhn, false, card) == if Luhn(digits) then "***" else card
  {
    hide Redact, Luhn, Printed;
    var card := Printed(digits, gaps);
    CardIsReplaced(digit, Luhn, "", digits, gaps, "");
    NothingLeft(digit, Luhn, false);
    assert "" + card + "" == card;
    assert forall x: string :: "" + x + "" == x;
  }

  function Tight(n: nat): (gaps: seq<string>)
    ensures |gaps| == n && forall i | 0 <= i < n :: gaps[i] == ""
  {
    seq(n, i => "")
  }

  /** A digit and a space before a number. */
  lemma Spaced(digit: char -> bool, d: char, card: string)
    requires Proper(digit) && digit(d) && (forall c <- card :: digit(c)) && card != ""
    ensures var digits, gaps := [d] + card, [" "] + Tight(|card| - 1);
      Number(digit, digits, gaps) && Printed(digits, gaps) == [d] + " " + card
  {
    var digits, gaps := [d] + card, [" "] + Tight(|card| - 1);
    TightIsPrinted(digit, card, Tight(|card| - 1));
    assert digits[1..] == card && gaps[1..] == Tight(|card| - 1);
    assert forall c <- digits :: c == d || c in card;
    assert forall g <- gaps :: g == " " || g == "";
  }

  /**
   * A separator does not end a number: a valid card number of up to 18 digits is replaced, and with some
   * digit and a space before it, it is part of a longer candidate that is not valid, and is kept.
   */
  lemma NeighbourHides(digit: char -> bool, card: string) returns (d: char)
    requires Proper(digit) && (forall c <- card :: digit(c)) && 13 <= |card| <= 18 && Luhn(card)
    requires forall c | '0' <= c <= '9' :: digit(c)
    ensures '0' <= d <= '9'
    ensures Redact(digit, Luhn, false, card) == "***"
    ensures Redact(digit, Luhn, false, [d] + " " + card) == [d] + " " + card
  {
    hide Redact, Luhn, Printed, Number;
    TightIsPrinted(digit, card, Tight(|card| - 1));
    Alone(digit, card, Tight(|card| - 1));
    d := OtherDigit(card);
    Spaced(digit, d, card);
    Alone(digit, [d] + card, [" "] + Tight(|card| - 1));
  }

  /** A digit that makes the number before which it stands invalid. */
  lemma OtherDigit(card: string) returns (d: char)
    ensures '0' <= d <= '9' && !Luhn([d] + card)
  {
    var zero, one := "0" + card, "1" + card;
    if !Luhn(zero) {
      d := '0';
      assert [d] + card == zero;
    } else {
      d := '1';
      OneChangeShows(zero, 0, '1');
      assert zero[0 := '1'] == [d] + card;
    }
  }
}
