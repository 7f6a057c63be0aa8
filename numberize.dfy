/** The string step of `Timewave.numberize` (timewave.js:294-296):
    `value.replace(/[A-Za-z]+/, "")`. The regular expression has no `g` flag,
    so only the leftmost match is replaced, and `+` is greedy, so that match is
    the whole maximal run of ASCII letters that starts at the first letter. */
module Numberize {

  /** The character class `[A-Za-z]`. */
  predicate IsLetter(c: char) {
    'A' <= c <= 'Z' || 'a' <= c <= 'z'
  }

  predicate NoLetters(s: string) {
    forall k :: 0 <= k < |s| ==> !IsLetter(s[k])
  }

  /** Where the leftmost match of the regular expression starts, searching
      from `from`; `|s|` when there is no letter at or after `from`. */
  function FirstLetter(s: string, from: nat): (i: nat)
    requires from <= |s|
    ensures from <= i <= |s|
    ensures forall k :: from <= k < i ==> !IsLetter(s[k])
    ensures i < |s| ==> IsLetter(s[i])
    decreases |s| - from
  {
    if from == |s| || IsLetter(s[from]) then from else FirstLetter(s, from + 1)
  }

  /** Where a greedy run of letters starting at `from` ends. */
  function RunEnd(s: string, from: nat): (j: nat)
    requires from <= |s|
    ensures from <= j <= |s|
    ensures forall k :: from <= k < j ==> IsLetter(s[k])
    ensures j < |s| ==> !IsLetter(s[j])
    decreases |s| - from
  {
    if from == |s| || !IsLetter(s[from]) then from else RunEnd(s, from + 1)
  }

  /** `s.replace(/[A-Za-z]+/, "")`. */
  function StripLetters(s: string): (r: string)
    ensures |r| <= |s|
    ensures r == s <==> NoLetters(s)
  {
    var i := FirstLetter(s, 0);
    var j := if i < |s| then RunEnd(s, i + 1) else i;
    assert i < |s| ==> i < j && |s[..i] + s[j..]| < |s|;
    s[..i] + s[j..]
  }

  /** `s[i..j]` is the leftmost maximal run of letters in `s`: nothing before
      `i` is a letter, everything in `[i, j)` is, and `s[j]` (if any) is not. */
  ghost predicate IsFirstRun(s: string, i: nat, j: nat) {
    i < j <= |s| &&
    NoLetters(s[..i]) &&
    (forall k :: i <= k < j ==> IsLetter(s[k])) &&
    (j < |s| ==> !IsLetter(s[j]))
  }

  /** Whatever leftmost maximal run of letters `s` has, `StripLetters` cuts out
      exactly that run and keeps every other character, in order. */
  lemma StripLettersRemovesFirstRun(s: string, i: nat, j: nat)
    requires IsFirstRun(s, i, j)
    ensures StripLetters(s) == s[..i] + s[j..]
  {
    assert forall k :: 0 <= k < i ==> s[..i][k] == s[k];
    assert IsLetter(s[i]);
    assert FirstLetter(s, 0) == i;
    assert j < |s| ==> !IsLetter(s[j]);
    assert RunEnd(s, i + 1) == j;
  }

  /** A string with a letter in it has a leftmost maximal run of letters. */
  lemma FirstRunExists(s: string)
    requires !NoLetters(s)
    ensures exists i: nat, j: nat :: IsFirstRun(s, i, j)
  {
    var i := FirstLetter(s, 0);
    var j := RunEnd(s, i + 1);
    assert NoLetters(s[..i]) by {
      forall k | 0 <= k < i ensures !IsLetter(s[..i][k]) {
        assert s[..i][k] == s[k];
      }
    }
    assert IsFirstRun(s, i, j);
  }

  /** After the cut the characters that followed the run come next, so the
      first character after the kept prefix is never a letter of that run. */
  lemma StripLettersKeepsSuffix(s: string, i: nat, j: nat)
    requires IsFirstRun(s, i, j)
    ensures |StripLetters(s)| == |s| - (j - i)
    ensures StripLetters(s)[..i] == s[..i]
    ensures StripLetters(s)[i..] == s[j..]
  {
    StripLettersRemovesFirstRun(s, i, j);
  }

  /** A CSS length such as `"10px"` loses its unit. */
  lemma StripLettersExamples()
    ensures StripLetters("10px") == "10"
    ensures StripLetters("-2.5em") == "-2.5"
    ensures StripLetters("0.5") == "0.5"
  {
  }

  /** Only the first run goes: a second unit-like run survives. */
  lemma StripLettersOnlyFirstRun()
    ensures StripLetters("1px2em") == "12em"
  {
  }
}
