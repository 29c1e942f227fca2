// What the trimmed texts of a chat stream say, told on the text itself.

module ChatText {
  import opened Common
  import opened ChatEvents

  /** Nothing but white space. */
  predicate Blank(s: string) {
    forall c <- s :: Space(c)
  }

  /** White space around what stands from i to j. */
  predicate Around(s: string, i: nat, j: nat) {
    i <= j <= |s| && Blank(s[..i]) && Blank(s[j..])
  }

  /** The word, with white space around it. */
  ghost predicate Says(s: string, word: string) {
    exists i: nat, j: nat :: Around(s, i, j) && s[i..j] == word
  }

  /** A letter of a word, small or capital. */
  predicate Letter(c: char, small: char) {
    c == small || ('a' <= small <= 'z' && c as int + 32 == small as int)
  }

  predicate Spells(s: string, word: string) {
    |s| == |word| && forall k | 0 <= k < |s| :: Letter(s[k], word[k])
  }

  /** "error" in small or capital letters, with white space around it. */
  ghost predicate SaysError(s: string) {
    exists i: nat, j: nat :: Around(s, i, j) && Spells(s[i..j], "error")
  }

  lemma {:induction false} LeftCore(s: string) returns (i: nat)
    ensures i <= |s| && StripLeft(s) == s[i..] && Blank(s[..i]) && (i < |s| ==> !Space(s[i]))
  {
    if s != "" && Space(s[0]) {
      var j := LeftCore(s[1..]);
      i := j + 1;
      assert s[..i] == [s[0]] + s[1..][..j];
    } else {
      i := 0;
    }
  }

  lemma {:induction false} RightCore(s: string) returns (j: nat)
    ensures j <= |s| && StripRight(s) == s[..j] && Blank(s[j..]) && (j > 0 ==> !Space(s[j - 1]))
  {
    if s != "" && Space(s[|s| - 1]) {
      var most := s[..|s| - 1];
      j := RightCore(most);
      assert s[j..] == most[j..] + [s[|s| - 1]];
      assert s[..j] == most[..j];
    } else {
      j := |s|;
    }
  }

  /** What trimming leaves stands between white space, and begins and ends with something else. */
  lemma Core(s: string) returns (i: nat, j: nat)
    ensures Around(s, i, j) && Strip(s) == s[i..j] && (i < j ==> !Space(s[i]) && !Space(s[j - 1]))
  {
    i := LeftCore(s);
    var n := RightCore(s[i..]);
    j := i + n;
    assert s[i..][n..] == s[j..] && s[i..][..n] == s[i..j];
  }

  /** There is one such place. */
  lemma CoreIsUnique(s: string, i: nat, j: nat, k: nat, m: nat)
    requires Around(s, i, j) && Around(s, k, m)
    requires i < j && !Space(s[i]) && !Space(s[j - 1])
    requires k < m ==> !Space(s[k]) && !Space(s[m - 1])
    ensures i == k && j == m
  {
    assert forall n | 0 <= n < i :: Space(s[..i][n]) && s[..i][n] == s[n];
    assert forall n | 0 <= n < k :: Space(s[..k][n]) && s[..k][n] == s[n];
    assert forall n | j <= n < |s| :: Space(s[j..][n - j]) && s[j..][n - j] == s[n];
    assert forall n | m <= n < |s| :: Space(s[m..][n - m]) && s[m..][n - m] == s[n];
  }

  lemma StripBlank(s: string)
    ensures Strip(s) == "" <==> Blank(s)
  {
    var i, j := Core(s);
    if i == j {
      assert s == s[..i] + s[j..];
    }
  }

  lemma StripSays(s: string, word: string)
    requires word != "" && !Space(word[0]) && !Space(word[|word| - 1])
    ensures Strip(s) == word <==> Says(s, word)
  {
    var i, j := Core(s);
    if Says(s, word) {
      var k: nat, m: nat :| Around(s, k, m) && s[k..m] == word;
      assert s[k] == word[0] && s[m - 1] == word[|word| - 1];
      CoreIsUnique(s, k, m, i, j);
    }
  }

  lemma LowerSpells(s: string)
    ensures Lower(s) == "error" <==> Spells(s, "error")
  {
    if Lower(s) == "error" {
      assert forall k | 0 <= k < |s| :: Lower(s)[k] == "error"[k];
    }
    if Spells(s, "error") {
      assert Lower(s) == "error";
    }
  }

  lemma LowerSaysError(s: string)
    ensures Lower(Strip(s)) == "error" <==> SaysError(s)
  {
    var i, j := Core(s);
    LowerSpells(Strip(s));
    if SaysError(s) {
      var k: nat, m: nat :| Around(s, k, m) && Spells(s[k..m], "error");
      assert s[k..m][0] == s[k] && s[k..m][4] == s[m - 1];
      assert Letter(s[k], 'e') && Letter(s[m - 1], 'r');
      CoreIsUnique(s, k, m, i, j);
    }
  }
}
