/**
 * The conditional formatting the reporter installs on the worksheet: one
 * range from the first data row to the last used cell, and two expression
 * rules that colour a row by the value of its State cell.
 */
module Formatting {
  import opened Wrappers
  import opened Strings
  import opened Schema

  /** The solid background of a rule: green for OK, red for FAIL. */
  datatype Fill = SolidGreen | SolidRed

  datatype Rule = Rule(formula: string, fill: Fill)

  datatype ConditionalFormat = ConditionalFormat(ref: string, rules: seq<Rule>)

  /** `'$' + letter + '2="' + value + '"'`: the State cell of the rule's row equals `s`. */
  function RuleFormula(stateLetter: string, s: State): string
  {
    "$" + stateLetter + "2=\"" + s.Value() + "\""
  }

  /** `'A2:' + lastColumn.letter + lastRow.number` */
  function RangeRef(lastColumnLetter: string, lastRowNumber: nat): string
  {
    "A2:" + lastColumnLetter + NatToString(lastRowNumber)
  }

  /** The formatting added once the worksheet has a last row. */
  function FormatFor(stateLetter: string, lastColumnLetter: string, lastRowNumber: nat): ConditionalFormat
  {
    ConditionalFormat(
      RangeRef(lastColumnLetter, lastRowNumber),
      [Rule(RuleFormula(stateLetter, OK), SolidGreen), Rule(RuleFormula(stateLetter, FAIL), SolidRed)])
  }

  /** Reads a cell address such as `C7` into its column letters and row number. */
  function ParseAddress(s: string): Option<(string, nat)>
  {
    var k := LeadingLetters(s);
    if 0 < k < |s| && AllDigits(s[k..]) then Some((s[..k], DigitsToNat(s[k..]))) else None
  }

  /** Reads a range such as `A2:C7` into its first and last cell addresses. */
  function ParseRange(s: string): Option<((string, nat), (string, nat))>
  {
    var parts := Split(s, ':');
    if |parts| != 2 then None
    else match (ParseAddress(parts[0]), ParseAddress(parts[1]))
      case (Some(first), Some(last)) => Some((first, last))
      case _ => None
  }

  /** Reads a rule formula `$<letters>2="<value>"` into the column letters and the compared value. */
  function ParseRule(f: string): Option<(string, string)>
  {
    if |f| == 0 || f[0] != '$' then None
    else
      var rest := f[1..];
      var k := LeadingLetters(rest);
      var tail := rest[k..];
      if k > 0 && |tail| >= 4 && tail[..3] == "2=\"" && tail[|tail| - 1] == '"'
      then Some((rest[..k], tail[3..|tail| - 1]))
      else None
  }

  lemma AddressRoundTrip(letters: string, n: nat)
    requires IsColumnLetters(letters)
    ensures ParseAddress(letters + NatToString(n)) == Some((letters, n))
  {
    var digits := NatToString(n);
    var s := letters + digits;
    LeadingLettersOfConcat(letters, digits);
    assert s[..|letters|] == letters;
    assert s[|letters|..] == digits;
    DigitsRoundTrip(n);
  }

  /** The range reads back as the rectangle from A2 to the last column and row. */
  lemma RangeRefRoundTrip(lastColumnLetter: string, lastRowNumber: nat)
    requires IsColumnLetters(lastColumnLetter)
    ensures ParseRange(RangeRef(lastColumnLetter, lastRowNumber)) == Some((("A", 2), (lastColumnLetter, lastRowNumber)))
  {
    var last := lastColumnLetter + NatToString(lastRowNumber);
    assert forall i :: 0 <= i < |last| ==> last[i] != ':';
    assert ':' !in last;
    assert RangeRef(lastColumnLetter, lastRowNumber) == Join(["A2", last], ':');
    SplitJoin(["A2", last], ':');
    AddressRoundTrip("A", 2);
    assert "A" + NatToString(2) == "A2";
    AddressRoundTrip(lastColumnLetter, lastRowNumber);
  }

  lemma ComparisonRoundTrip(letters: string, value: string)
    requires IsColumnLetters(letters)
    ensures ParseRule("$" + letters + "2=\"" + value + "\"") == Some((letters, value))
  {
    var tail := "2=\"" + value + "\"";
    var rest := letters + tail;
    var f := "$" + letters + "2=\"" + value + "\"";
    assert f == "$" + rest;
    assert f[1..] == rest;
    LeadingLettersOfConcat(letters, tail);
    assert rest[..|letters|] == letters;
    assert rest[|letters|..] == tail;
    assert tail[..3] == "2=\"";
    assert tail[|tail| - 1] == '"';
    assert tail[3..|tail| - 1] == value;
  }

  /** A rule formula reads back as the State column's letters compared with the state's value. */
  lemma RuleFormulaRoundTrip(stateLetter: string, s: State)
    requires IsColumnLetters(stateLetter)
    ensures ParseRule(RuleFormula(stateLetter, s)) == Some((stateLetter, s.Value()))
  {
    ComparisonRoundTrip(stateLetter, s.Value());
  }

  /**
   * What the formatting means: it spans A2 to the last column and row, and
   * holds two rules, the first colouring rows whose State cell is OK green,
   * the second colouring rows whose State cell is FAIL red.
   */
  lemma FormatForMeaning(stateLetter: string, lastColumnLetter: string, lastRowNumber: nat)
    requires IsColumnLetters(stateLetter) && IsColumnLetters(lastColumnLetter)
    ensures ParseRange(FormatFor(stateLetter, lastColumnLetter, lastRowNumber).ref)
              == Some((("A", 2), (lastColumnLetter, lastRowNumber)))
    ensures |FormatFor(stateLetter, lastColumnLetter, lastRowNumber).rules| == |StateValues|
    ensures forall k :: 0 <= k < |StateValues| ==>
              ParseRule(FormatFor(stateLetter, lastColumnLetter, lastRowNumber).rules[k].formula)
                == Some((stateLetter, StateValues[k]))
    ensures FormatFor(stateLetter, lastColumnLetter, lastRowNumber).rules[0].fill == SolidGreen
    ensures FormatFor(stateLetter, lastColumnLetter, lastRowNumber).rules[1].fill == SolidRed
  {
    RangeRefRoundTrip(lastColumnLetter, lastRowNumber);
    RuleFormulaRoundTrip(stateLetter, OK);
    RuleFormulaRoundTrip(stateLetter, FAIL);
  }

  /** `conditionalFormatting` as written: formatting is skipped only when there is no last row at all. */
  function FormattingAsWritten(stateLetter: string, lastColumnLetter: string, lastRow: Option<nat>): (r: Option<ConditionalFormat>)
    ensures r.None? <==> lastRow.None?
  {
    match lastRow
    case None => None
    case Some(n) => Some(FormatFor(stateLetter, lastColumnLetter, n))
  }

  /**
   * A sheet holding only its header row still has a last row (row 1), so the
   * guard as written formats the inverted range A2:C1.
   */
  lemma HeaderOnlySheetIsFormatted()
    ensures FormattingAsWritten("B", "C", Some(1)).Some?
    ensures ParseRange(FormattingAsWritten("B", "C", Some(1)).value.ref) == Some((("A", 2), ("C", 1)))
  {
    RangeRefRoundTrip("C", 1);
  }

  /** `conditionalFormatting` with the guard skipping a sheet that has no data row (row 2 onwards). */
  function GuardedFormatting(stateLetter: string, lastColumnLetter: string, lastRow: Option<nat>): (r: Option<ConditionalFormat>)
    ensures r.Some? <==> lastRow.Some? && lastRow.value >= 2
    ensures r.Some? ==> r == FormattingAsWritten(stateLetter, lastColumnLetter, lastRow)
  {
    match lastRow
    case None => None
    case Some(n) => if n < 2 then None else Some(FormatFor(stateLetter, lastColumnLetter, n))
  }

  /** The corrected formatting never covers an inverted range: its last row is at or after row 2. */
  lemma FormattingCoversDataRows(stateLetter: string, lastColumnLetter: string, lastRow: Option<nat>)
    requires IsColumnLetters(lastColumnLetter)
    ensures GuardedFormatting(stateLetter, lastColumnLetter, lastRow).Some? ==>
              lastRow.Some? && 2 <= lastRow.value &&
              ParseRange(GuardedFormatting(stateLetter, lastColumnLetter, lastRow).value.ref)
                == Some((("A", 2), (lastColumnLetter, lastRow.value)))
  {
    if lastRow.Some? {
      RangeRefRoundTrip(lastColumnLetter, lastRow.value);
    }
  }
}
