/** Character classes of the C locale, as the driver's calls of `isalpha`, `isdigit`, `isspace`,
    `toupper` and `tolower` see them on plain ASCII text. */
module Chars {
  predicate IsUpper(c: char) { 'A' <= c <= 'Z' }

  predicate IsLower(c: char) { 'a' <= c <= 'z' }

  predicate IsAlpha(c: char) { IsUpper(c) || IsLower(c) }

  predicate IsDigit(c: char) { '0' <= c <= '9' }

  predicate IsSpace(c: char) { c == ' ' || '\t' <= c <= '\r' }

  function UpperChar(c: char): char {
    if IsLower(c) then c - 'a' + 'A' else c
  }

  function LowerChar(c: char): char {
    if IsUpper(c) then c - 'A' + 'a' else c
  }

  function ToUpper(s: string): (u: string)
    ensures |u| == |s|
    ensures forall i :: 0 <= i < |s| ==> u[i] == UpperChar(s[i])
  {
    seq(|s|, i requires 0 <= i < |s| => UpperChar(s[i]))
  }

  function ToLower(s: string): (l: string)
    ensures |l| == |s|
    ensures forall i :: 0 <= i < |s| ==> l[i] == LowerChar(s[i])
  {
    seq(|s|, i requires 0 <= i < |s| => LowerChar(s[i]))
  }

  const VERTICAL_TAB: char := '\U{000B}'

  lemma {:induction false} Concat3(a: string, b: string, c: string)
    ensures (a + b) + c == a + (b + c)
  {
  }

  lemma {:induction false} SliceSplit(s: string, a: nat, b: nat, c: nat)
    requires a <= b <= c <= |s|
    ensures s[a..c] == s[a..b] + s[b..c]
  {
  }

  /** The text behind `p` starts with `x`. */
  lemma {:induction false} StartsWith(text: string, p: nat, x: string, rest: string)
    requires p <= |text| && text[p..] == x + rest
    ensures p + |x| <= |text| && text[p..p + |x|] == x && text[p + |x|..] == rest
  {
    assert |text| - p == |x| + |rest|;
    assert text[p..p + |x|] == text[p..][..|x|];
    assert text[p + |x|..] == text[p..][|x|..];
  }

  lemma {:induction false} TailSplit(s: string, a: nat, b: nat)
    requires a <= b <= |s|
    ensures s[a..] == s[a..b] + s[b..]
  {
  }
}
