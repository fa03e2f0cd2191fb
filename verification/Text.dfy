/** The string operations the services use, on ASCII. */
module Text {

  function Lower(c: char): char {
    if 'A' <= c <= 'Z' then (c as int + 32) as char else c
  }

  function ToLower(text: string): string {
    seq(|text|, i requires 0 <= i < |text| => Lower(text[i]))
  }

  predicate EqualFold(a: string, b: string) {
    ToLower(a) == ToLower(b)
  }

  predicate Contains(text: string, part: string) {
    exists i :: 0 <= i <= |text| && HasAt(text, part, i)
  }

  predicate HasAt(text: string, part: string, i: nat) {
    i + |part| <= |text| && text[i..i + |part|] == part
  }

  predicate Space(c: char) {
    c in {'\t', '\n', '\U{B}', '\U{C}', '\r', ' '}
  }

  function TrimSpace(text: string): string {
    if text != "" && Space(text[0]) then TrimSpace(text[1..])
    else if text != "" && Space(text[|text| - 1]) then TrimSpace(text[..|text| - 1])
    else text
  }

  // What they compute, position by position.

  /** The same letter in upper or lower case, or the same character. */
  ghost predicate SameLetter(a: char, b: char) {
    || a == b
    || ('A' <= a <= 'Z' && b as int - a as int == 'a' as int - 'A' as int)
    || ('A' <= b <= 'Z' && a as int - b as int == 'a' as int - 'A' as int)
  }

  ghost predicate SameLetters(a: string, b: string) {
    |a| == |b| && forall i :: 0 <= i < |a| ==> SameLetter(a[i], b[i])
  }

  lemma EqualFoldExactly(a: string, b: string)
    ensures EqualFold(a, b) <==> SameLetters(a, b)
  {
    if EqualFold(a, b) {
      assert |a| == |ToLower(a)| == |b|;
      forall i | 0 <= i < |a|
        ensures SameLetter(a[i], b[i])
      {
        assert ToLower(a)[i] == ToLower(b)[i];
      }
    }
  }

  /** Tab, line feed, vertical tab, form feed, carriage return, blank. */
  ghost predicate White(c: char) {
    9 <= c as int <= 13 || c as int == 32
  }

  ghost predicate AllWhite(text: string) {
    forall k :: 0 <= k < |text| ==> White(text[k])
  }

  /** From i to j the text reaches from its first character that is not white to its last. */
  ghost predicate Core(text: string, i: nat, j: nat) {
    && i <= j <= |text|
    && AllWhite(text[..i]) && AllWhite(text[j..])
    && (i < j ==> !White(text[i]) && !White(text[j - 1]))
  }

  lemma {:induction false} TrimSpaceExactly(text: string) returns (i: nat, j: nat)
    ensures Core(text, i, j) && TrimSpace(text) == text[i..j]
    decreases |text|
  {
    if text != "" && Space(text[0]) {
      i, j := TrimSpaceExactly(text[1..]);
      CoreBehind(text, i, j);
      i, j := i + 1, j + 1;
    } else if text != "" && Space(text[|text| - 1]) {
      i, j := TrimSpaceExactly(text[..|text| - 1]);
      CoreBefore(text, i, j);
    } else {
      i, j := 0, |text|;
    }
  }

  lemma CoreBehind(text: string, i: nat, j: nat)
    requires text != "" && White(text[0]) && Core(text[1..], i, j)
    ensures Core(text, i + 1, j + 1) && text[1..][i..j] == text[i + 1..j + 1]
  {
    assert text[1..][j..] == text[j + 1..];
    forall k | 0 <= k <= i
      ensures White(text[k])
    {
      assert k > 0 ==> text[k] == text[1..][..i][k - 1];
    }
  }

  lemma CoreBefore(text: string, i: nat, j: nat)
    requires text != "" && White(text[|text| - 1]) && Core(text[..|text| - 1], i, j)
    ensures Core(text, i, j) && text[..|text| - 1][i..j] == text[i..j]
  {
    var front := text[..|text| - 1];
    assert front[..i] == text[..i];
    forall k | 0 <= k < |text[j..]|
      ensures White(text[j..][k])
    {
      assert k < |front| - j ==> text[j..][k] == front[j..][k];
    }
  }

  /** A text has one core at most. */
  lemma CoreUnique(text: string, i: nat, j: nat, k: nat, l: nat)
    requires Core(text, i, j) && Core(text, k, l)
    ensures text[i..j] == text[k..l]
  {
    assert forall m :: 0 <= m < i ==> White(text[m]) by { WhiteBefore(text, i); }
    assert forall m :: 0 <= m < k ==> White(text[m]) by { WhiteBefore(text, k); }
    assert forall m :: j <= m < |text| ==> White(text[m]) by { WhiteBehind(text, j); }
    assert forall m :: l <= m < |text| ==> White(text[m]) by { WhiteBehind(text, l); }
  }

  lemma WhiteBefore(text: string, i: nat)
    requires i <= |text| && AllWhite(text[..i])
    ensures forall m :: 0 <= m < i ==> White(text[m])
  {
    forall m | 0 <= m < i
      ensures White(text[m])
    {
      assert text[..i][m] == text[m];
    }
  }

  lemma WhiteBehind(text: string, j: nat)
    requires j <= |text| && AllWhite(text[j..])
    ensures forall m :: j <= m < |text| ==> White(text[m])
  {
    forall m | j <= m < |text|
      ensures White(text[m])
    {
      assert text[j..][m - j] == text[m];
    }
  }

  lemma TrimsToNothing(text: string)
    ensures TrimSpace(text) == "" <==> AllWhite(text)
  {
    var i, j := TrimSpaceExactly(text);
    if i == j {
      WhiteBefore(text, i);
      WhiteBehind(text, j);
    }
  }

  /** The same letters, up to case and surrounding white space. */
  ghost predicate SameWord(a: string, b: string) {
    exists i: nat, j: nat, k: nat, l: nat :: Core(a, i, j) && Core(b, k, l) && SameLetters(a[i..j], b[k..l])
  }

  lemma SameWordExactly(a: string, b: string)
    ensures EqualFold(TrimSpace(a), TrimSpace(b)) <==> SameWord(a, b)
  {
    EqualFoldExactly(TrimSpace(a), TrimSpace(b));
    var i, j := TrimSpaceExactly(a);
    var k, l := TrimSpaceExactly(b);
    if SameWord(a, b) {
      var i': nat, j': nat, k': nat, l': nat :| Core(a, i', j') && Core(b, k', l') && SameLetters(a[i'..j'], b[k'..l']);
      CoreUnique(a, i, j, i', j');
      CoreUnique(b, k, l, k', l');
    }
  }

  /** The word stands at position i of the text, in letters of any case. */
  ghost predicate OccursAt(text: string, word: string, i: nat) {
    i + |word| <= |text| && forall k :: 0 <= k < |word| ==> SameLetter(text[i + k], word[k])
  }

  ghost predicate Says(text: string, word: string) {
    exists i :: OccursAt(text, word, i)
  }

  lemma ContainsExactly(text: string, word: string)
    requires forall k :: 0 <= k < |word| ==> !('A' <= word[k] <= 'Z')
    ensures Contains(ToLower(text), word) <==> Says(text, word)
  {
    forall i: nat
      ensures HasAt(ToLower(text), word, i) <==> OccursAt(text, word, i)
    {
      HasAtExactly(text, word, i);
    }
    if Says(text, word) {
      var i :| OccursAt(text, word, i);
      assert HasAt(ToLower(text), word, i);
    }
  }

  lemma HasAtExactly(text: string, word: string, i: nat)
    requires forall k :: 0 <= k < |word| ==> !('A' <= word[k] <= 'Z')
    ensures HasAt(ToLower(text), word, i) <==> OccursAt(text, word, i)
  {
    if i + |word| <= |text| {
      forall k | 0 <= k < |word|
        ensures ToLower(text)[i..i + |word|][k] == word[k] <==> SameLetter(text[i + k], word[k])
      {
      }
    }
  }

  /** A word in letters of any case, with any text around it. */
  lemma SaysAnywhere(before: string, spelled: string, behind: string, word: string)
    requires SameLetters(spelled, word)
    ensures Says(before + spelled + behind, word)
  {
    var text := before + spelled + behind;
    forall k | 0 <= k < |word|
      ensures SameLetter(text[|before| + k], word[k])
    {
      assert text[|before| + k] == spelled[k];
    }
    assert OccursAt(text, word, |before|);
  }
}
