/**
 * Character classes and small string codecs used by the reporter's
 * spreadsheet formulae: decimal row numbers, column letters, and
 * separator-joined lists.
 */
module Strings {

  predicate IsDigit(c: char) { '0' <= c <= '9' }

  predicate IsUpper(c: char) { 'A' <= c <= 'Z' }

  predicate AllDigits(s: string) { forall i :: 0 <= i < |s| ==> IsDigit(s[i]) }

  /** A spreadsheet column letter such as `A`, `C` or `AB`. */
  predicate IsColumnLetters(s: string) { |s| > 0 && forall i :: 0 <= i < |s| ==> IsUpper(s[i]) }

  function DigitChar(d: nat): (c: char)
    requires d < 10
    ensures IsDigit(c)
  {
    (48 + d) as char
  }

  function DigitValue(c: char): (d: nat)
    requires IsDigit(c)
    ensures d < 10 && DigitChar(d) == c
  {
    (c as int) - 48
  }

  /** The decimal rendering of a row number, as JavaScript converts a number when concatenated to a string. */
  function NatToString(n: nat): (s: string)
    ensures |s| > 0 && AllDigits(s)
    ensures s[0] == '0' ==> n == 0
  {
    if n < 10 then [DigitChar(n)] else NatToString(n / 10) + [DigitChar(n % 10)]
  }

  /** The value of a string of decimal digits (the inverse of NatToString). */
  function DigitsToNat(s: string): nat
    requires AllDigits(s)
  {
    if s == [] then 0 else DigitsToNat(s[..|s| - 1]) * 10 + DigitValue(s[|s| - 1])
  }

  lemma {:induction false} DigitsRoundTrip(n: nat)
    ensures DigitsToNat(NatToString(n)) == n
  {
    var s := NatToString(n);
    if n >= 10 {
      assert s[..|s| - 1] == NatToString(n / 10);
      DigitsRoundTrip(n / 10);
    }
  }

  /** The length of the longest prefix of `s` made of upper-case letters. */
  function LeadingLetters(s: string): (n: nat)
    ensures n <= |s|
    ensures forall i :: 0 <= i < n ==> IsUpper(s[i])
    ensures n == |s| || !IsUpper(s[n])
  {
    if s == [] || !IsUpper(s[0]) then 0 else 1 + LeadingLetters(s[1..])
  }

  lemma LeadingLettersOfConcat(letters: string, rest: string)
    requires IsColumnLetters(letters)
    requires rest == [] || !IsUpper(rest[0])
    ensures LeadingLetters(letters + rest) == |letters|
  {
    var s := letters + rest;
    assert forall i :: 0 <= i < |letters| ==> s[i] == letters[i];
    assert rest != [] ==> s[|letters|] == rest[0];
  }

  /** JavaScript's `Array.prototype.join` with a one-character separator. */
  function Join(parts: seq<string>, sep: char): string
  {
    if |parts| == 0 then ""
    else if |parts| == 1 then parts[0]
    else parts[0] + [sep] + Join(parts[1..], sep)
  }

  /** The position of the first `c` in `s`, or `|s|` when there is none. */
  function IndexOf(s: string, c: char): (i: nat)
    ensures i <= |s|
    ensures i < |s| ==> s[i] == c
    ensures forall k :: 0 <= k < i ==> s[k] != c
  {
    if s == [] then 0 else if s[0] == c then 0 else 1 + IndexOf(s[1..], c)
  }

  /** JavaScript's `String.prototype.split` with a one-character separator. */
  function Split(s: string, sep: char): (parts: seq<string>)
    ensures |parts| > 0
    decreases |s|
  {
    var i := IndexOf(s, sep);
    if i == |s| then [s] else [s[..i]] + Split(s[i + 1..], sep)
  }

  /** Splitting a joined list gives the list back, provided no element contains the separator. */
  lemma {:induction false} SplitJoin(parts: seq<string>, sep: char)
    requires |parts| > 0
    requires forall k :: 0 <= k < |parts| ==> sep !in parts[k]
    ensures Split(Join(parts, sep), sep) == parts
  {
    var first := parts[0];
    if |parts| == 1 {
      assert forall k :: 0 <= k < |first| ==> first[k] in first;
    } else {
      var rest := Join(parts[1..], sep);
      var s := first + [sep] + rest;
      var i := IndexOf(s, sep);
      assert s[|first|] == sep;
      assert forall k :: 0 <= k < |first| ==> s[k] == first[k] && first[k] in first;
      assert i == |first|;
      assert s[..i] == first;
      assert s[i + 1..] == rest;
      SplitJoin(parts[1..], sep);
    }
  }
}
