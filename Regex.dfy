/**
 * The pieces of JavaScript regular expressions (no flags) that the two
 * password patterns of the tracker use: character classes, a `(?=.*X)`
 * lookahead anchored at the start, and `.`, which matches any character but a
 * line terminator.
 */
module Regex {
  import opened Js

  /** The character classes the patterns use. */
  datatype CharClass =
    | Letter       // [A-Za-z]
    | Digit        // \d, that is [0-9]
    | Symbol       // [@$!%*#?&]
    | LetterDigitSymbol  // [A-Za-z\d@$!%*#?&]
    | Lower        // [a-z]
    | Upper        // [A-Z]
    | NonWord      // \W, anything but [A-Za-z0-9_]

  predicate IsLower(c: char) { 'a' <= c <= 'z' }
  predicate IsUpper(c: char) { 'A' <= c <= 'Z' }
  predicate IsDigit(c: char) { '0' <= c <= '9' }
  predicate IsSymbol(c: char) { c in "@$!%*#?&" }

  predicate InClass(c: char, k: CharClass)
  {
    match k
    case Letter => IsLower(c) || IsUpper(c)
    case Digit => IsDigit(c)
    case Symbol => IsSymbol(c)
    case LetterDigitSymbol => IsLower(c) || IsUpper(c) || IsDigit(c) || IsSymbol(c)
    case Lower => IsLower(c)
    case Upper => IsUpper(c)
    case NonWord => !(IsLower(c) || IsUpper(c) || IsDigit(c) || c == '_')
  }

  /**
   * `(?=.*X)` at the start of the input: some position holds a character of
   * the class and no line terminator comes before it (`.` does not cross lines).
   */
  predicate Ahead(s: string, k: CharClass)
  {
    exists j :: 0 <= j < |s| && InClass(s[j], k) && forall m :: 0 <= m < j ==> !IsLineTerminator(s[m])
  }

  /** Some character of the string is in the class. */
  predicate Contains(s: string, k: CharClass)
  {
    exists j :: 0 <= j < |s| && InClass(s[j], k)
  }

  /** A string without line terminators. */
  predicate SingleLine(s: string)
  {
    forall i :: 0 <= i < |s| ==> !IsLineTerminator(s[i])
  }

  /** On a single line a lookahead only asks that a character of the class occurs. */
  lemma AheadOnOneLine(s: string, k: CharClass)
    requires SingleLine(s)
    ensures Ahead(s, k) <==> Contains(s, k)
  {
    if Contains(s, k) {
      var j :| 0 <= j < |s| && InClass(s[j], k);
      assert forall m :: 0 <= m < j ==> !IsLineTerminator(s[m]);
    }
  }

  /**
   * A lookahead cannot see past a line terminator: when no character of the
   * class occurs up to and including the first one, the lookahead fails.
   */
  lemma AheadStopsAtLineEnd(s: string, k: CharClass, t: nat)
    requires t < |s| && IsLineTerminator(s[t])
    requires forall j :: 0 <= j <= t ==> !InClass(s[j], k)
    ensures !Ahead(s, k)
  {
    forall j | 0 <= j < |s| && InClass(s[j], k)
      ensures exists m :: 0 <= m < j && IsLineTerminator(s[m])
    {
      assert 0 <= t < j;
    }
  }
}
