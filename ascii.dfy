/**
  Character classes and case mapping, restricted to ASCII. These stand for
  .NET's `char.IsLetter`, `char.IsDigit`, `char.IsWhiteSpace`, `char.IsLower`,
  `char.ToUpper`, `char.ToLower` and `StringComparison.OrdinalIgnoreCase`.
*/
module Ascii {

  predicate IsUpper(c: char) { 'A' <= c <= 'Z' }

  predicate IsLower(c: char) { 'a' <= c <= 'z' }

  predicate IsLetter(c: char) { IsUpper(c) || IsLower(c) }

  predicate IsDigit(c: char) { '0' <= c <= '9' }

  /** Tab, line feed, vertical tab, form feed, carriage return and space. */
  predicate IsWhiteSpace(c: char) { c == ' ' || '\t' <= c <= '\r' }

  function ToUpper(c: char): (u: char)
    ensures IsLetter(c) ==> IsUpper(u)
    ensures !IsLower(c) ==> u == c
  {
    if IsLower(c) then (c as int - 32) as char else c
  }

  function ToLower(c: char): (l: char)
    ensures IsLetter(c) ==> IsLower(l)
    ensures !IsUpper(c) ==> l == c
  {
    if IsUpper(c) then (c as int + 32) as char else c
  }

  /** Lowering a character first does not change its upper-case form. */
  lemma UpperOfLower(c: char)
    ensures ToUpper(ToLower(c)) == ToUpper(c)
  {
  }

  /** Case folding of a string, as used by ordinal case-insensitive comparison. */
  function Fold(s: string): (r: string)
    ensures |r| == |s|
    decreases |s|
  {
    if s == [] then [] else [ToUpper(s[0])] + Fold(s[1..])
  }

  lemma {:induction false} FoldAppend(a: string, b: string)
    ensures Fold(a + b) == Fold(a) + Fold(b)
    decreases |a|
  {
    if a == [] {
      assert a + b == b;
    } else {
      assert (a + b)[1..] == a[1..] + b;
      FoldAppend(a[1..], b);
    }
  }

  lemma {:induction false} FoldAt(s: string, i: nat)
    requires i < |s|
    ensures Fold(s)[i] == ToUpper(s[i])
    decreases i
  {
    if i > 0 {
      FoldAt(s[1..], i - 1);
    }
  }

  predicate EqualsIgnoreCase(a: string, b: string) { Fold(a) == Fold(b) }

  /** `haystack.IndexOf(needle, OrdinalIgnoreCase) >= 0`. */
  predicate ContainsIgnoreCase(haystack: string, needle: string) {
    var h, n := Fold(haystack), Fold(needle);
    exists i | 0 <= i <= |h| - |n| :: OccursAt(h, n, i)
  }

  predicate OccursAt(h: string, n: string, i: int) {
    0 <= i <= |h| - |n| && h[i..i + |n|] == n
  }

  predicate AllLetters(s: string) { forall i | 0 <= i < |s| :: IsLetter(s[i]) }

  predicate NoLetters(s: string) { forall i | 0 <= i < |s| :: !IsLetter(s[i]) }

  /** The letters of `s`, in order. */
  function Letters(s: string): (r: string)
    ensures AllLetters(r)
    decreases |s|
  {
    if s == [] then []
    else if IsLetter(s[0]) then [s[0]] + Letters(s[1..])
    else Letters(s[1..])
  }

  lemma {:induction false} LettersSplit(s: string, n: nat)
    requires n <= |s|
    ensures Letters(s) == Letters(s[..n]) + Letters(s[n..])
    decreases n
  {
    if n > 0 {
      LettersSplit(s[1..], n - 1);
      assert s[1..][..n - 1] == s[..n][1..];
      assert s[1..][n - 1..] == s[n..];
    } else {
      assert s[n..] == s;
    }
  }

  lemma {:induction false} LettersOfLetters(s: string)
    requires AllLetters(s)
    ensures Letters(s) == s
    decreases |s|
  {
    if s != [] {
      LettersOfLetters(s[1..]);
    }
  }

  lemma {:induction false} LettersOfNonLetters(s: string)
    requires NoLetters(s)
    ensures Letters(s) == []
    decreases |s|
  {
    if s != [] {
      LettersOfNonLetters(s[1..]);
    }
  }

  /** A character that is neither a letter, a digit, a parenthesis nor whitespace. */
  predicate IsForeign(c: char) {
    !IsLetter(c) && !IsDigit(c) && c != '(' && c != ')' && !IsWhiteSpace(c)
  }
}
