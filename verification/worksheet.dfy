/**
 * Column auto-fit: every column that supports cell iteration gets the width
 * of its longest rendered cell text, but at least a minimal width, plus 2.
 */
module Worksheet {
  import opened Wrappers

  /** A list-type (or other) data-validation constraint attached to a cell. */
  datatype DataValidation = DataValidation(kind: string, formulae: seq<string>)

  datatype Cell = Cell(value: Option<string>, validation: Option<DataValidation>)

  const DefaultMinimalWidth: int := 10

  /** The spreadsheet letter of column number 1 to 26. */
  function ColumnLetter(number: nat): (letter: string)
    requires 1 <= number <= 26
    ensures |letter| == 1 && 'A' <= letter[0] <= 'Z'
  {
    [(64 + number) as char]
  }

  /**
   * A JavaScript string's `length`: the number of UTF-16 code units. A
   * character outside the Basic Multilingual Plane takes a surrogate pair.
   */
  function Utf16Length(s: string): (n: nat)
    ensures |s| <= n <= 2 * |s|
    ensures |s| == 1 ==> n == if (s[0] as int) < 0x1_0000 then 1 else 2
  {
    if s == [] then 0
    else (if (s[0] as int) < 0x1_0000 then 1 else 2) + Utf16Length(s[1..])
  }

  /** A string inside the Basic Multilingual Plane has one code unit per character. */
  lemma {:induction false} BmpLengthIsCharCount(s: string)
    requires forall i :: 0 <= i < |s| ==> (s[i] as int) < 0x1_0000
    ensures Utf16Length(s) == |s|
  {
    if s != [] {
      BmpLengthIsCharCount(s[1..]);
    }
  }

  /** The length of a concatenation is the sum of the lengths, so every character counts on its own. */
  lemma {:induction false} Utf16LengthAppend(a: string, b: string)
    ensures Utf16Length(a + b) == Utf16Length(a) + Utf16Length(b)
  {
    if a != [] {
      assert (a + b)[0] == a[0] && (a + b)[1..] == a[1..] + b;
      Utf16LengthAppend(a[1..], b);
    } else {
      assert a + b == b;
    }
  }

  /** An emoji is one character but two UTF-16 code units. */
  lemma SurrogatePairCountsTwice()
    ensures Utf16Length("\U{1F600}") == 2
  {
  }

  /** `cell.value ? cell.value.toString().length : 0`: a missing or empty value counts as length 0. */
  function TextLength(value: Option<string>): (n: nat)
    ensures value.Some? ==> n == Utf16Length(value.value)
    ensures value.None? ==> n == 0
  {
    if value.Some? && value.value != "" then Utf16Length(value.value) else 0
  }

  function Max(a: int, b: int): int
  {
    if a < b then b else a
  }

  function CellValues(cells: seq<Cell>): (values: seq<Option<string>>)
    ensures |values| == |cells|
    ensures forall k :: 0 <= k < |cells| ==> values[k] == cells[k].value
  {
    seq(|cells|, k requires 0 <= k < |cells| => cells[k].value)
  }

  /** The length of the longest cell text: a bound on every cell, reached by one of them. */
  function LongestText(values: seq<Option<string>>): (n: nat)
    ensures forall k :: 0 <= k < |values| ==> TextLength(values[k]) <= n
    ensures |values| == 0 ==> n == 0
    ensures |values| > 0 ==> exists k :: 0 <= k < |values| && TextLength(values[k]) == n
  {
    if |values| == 0 then 0
    else Max(LongestText(values[..|values| - 1]), TextLength(values[|values| - 1]))
  }

  /**
   * The width `autoWidth` gives a column whose cells hold `values`: the
   * running maximum starts at 0, so a column without cells gets 2.
   */
  function FitWidth(values: seq<Option<string>>, minimalWidth: int): (w: int)
    ensures |values| == 0 ==> w == 2
    ensures |values| > 0 ==> w >= minimalWidth + 2
    ensures forall k :: 0 <= k < |values| ==> TextLength(values[k]) + 2 <= w
    ensures |values| > 0 ==> w == minimalWidth + 2 || exists k :: 0 <= k < |values| && w == TextLength(values[k]) + 2
  {
    if |values| == 0 then 2 else Max(minimalWidth, LongestText(values)) + 2
  }

  /** With the default minimal width, a column whose texts are all at most 10 long gets width 12. */
  lemma ShortTextsGetMinimalWidth(values: seq<Option<string>>)
    requires |values| > 0
    requires forall k :: 0 <= k < |values| ==> TextLength(values[k]) <= DefaultMinimalWidth
    ensures FitWidth(values, DefaultMinimalWidth) == DefaultMinimalWidth + 2
  {
  }

  /** The state of one column that `autoWidth` reads and writes. */
  datatype ColumnView = ColumnView(hasEachCell: bool, cells: seq<Cell>, width: Option<int>)

  /** A column after `autoWidth`: only its width changes, and only if it supports cell iteration. */
  function Fitted(v: ColumnView, minimalWidth: int): (r: ColumnView)
    ensures r.hasEachCell == v.hasEachCell && r.cells == v.cells
    ensures !v.hasEachCell ==> r.width == v.width
    ensures v.hasEachCell ==> r.width == Some(FitWidth(CellValues(v.cells), minimalWidth))
    ensures v.hasEachCell ==> r.width.Some? && r.width.value >= 2
    ensures v.hasEachCell && |v.cells| > 0 ==> r.width.value >= minimalWidth + 2
  {
    if v.hasEachCell then v.(width := Some(FitWidth(CellValues(v.cells), minimalWidth))) else v
  }

  /** The new width never depends on the old one, so fitting twice is fitting once. */
  lemma FittedIdempotent(v: ColumnView, minimalWidth: int)
    ensures Fitted(Fitted(v, minimalWidth), minimalWidth) == Fitted(v, minimalWidth)
  {
  }

  /** A worksheet column: its letter, whether it offers `eachCell`, its cells (one per row) and its width. */
  class Column {
    const letter: string
    const hasEachCell: bool
    var cells: seq<Cell>
    var width: Option<int>

    constructor (letter: string, hasEachCell: bool, cells: seq<Cell>)
      ensures this.letter == letter && this.hasEachCell == hasEachCell
      ensures this.cells == cells && width == None
    {
      this.letter := letter;
      this.hasEachCell := hasEachCell;
      this.cells := cells;
      width := None;
    }

    function View(): ColumnView
      reads this
    {
      ColumnView(hasEachCell, cells, width)
    }

    /** `eachCell(cell => cell.dataValidation = v)`: every cell with a value gets `v`; nothing else changes. */
    method SetValidation(v: DataValidation)
      modifies this
      ensures width == old(width) && |cells| == |old(cells)|
      ensures CellValues(cells) == CellValues(old(cells))
      ensures forall k :: 0 <= k < |cells| ==>
                cells[k].validation == if old(cells[k].value).Some? then Some(v) else old(cells[k].validation)
    {
      var k := 0;
      while k < |cells|
        invariant 0 <= k <= |cells| == |old(cells)|
        invariant width == old(width)
        invariant forall m :: 0 <= m < |cells| ==> cells[m].value == old(cells[m].value)
        invariant forall m :: 0 <= m < k ==>
                    cells[m].validation == if old(cells[m].value).Some? then Some(v) else old(cells[m].validation)
        invariant forall m :: k <= m < |cells| ==> cells[m] == old(cells[m])
      {
        var cell := cells[k];
        if cell.value.Some? {
          cells := cells[k := cell.(validation := Some(v))];
        }
        k := k + 1;
      }
      assert CellValues(cells) == CellValues(old(cells));
    }
  }

  /** The `eachCell` callback's running maximum over every cell of one column, empty ones included. */
  method MaxColumnLength(cells: seq<Cell>, minimalWidth: int) returns (maxColumnLength: int)
    ensures maxColumnLength + 2 == FitWidth(CellValues(cells), minimalWidth)
  {
    ghost var values := CellValues(cells);
    maxColumnLength := 0;
    for k := 0 to |cells|
      invariant maxColumnLength == if k == 0 then 0 else Max(minimalWidth, LongestText(values[..k]))
    {
      maxColumnLength := Max(Max(maxColumnLength, minimalWidth), TextLength(cells[k].value));
      assert values[..k + 1][..k] == values[..k];
    }
    assert values[..|cells|] == values;
  }

  /** `autoWidth`: fits every column that supports cell iteration and leaves everything else as it was. */
  method AutoWidth(columns: seq<Column>, minimalWidth: int := DefaultMinimalWidth)
    modifies columns
    ensures forall k :: 0 <= k < |columns| ==> columns[k].View() == Fitted(old(columns[k].View()), minimalWidth)
  {
    for i := 0 to |columns|
      invariant forall k :: 0 <= k < |columns| ==> columns[k].cells == old(columns[k].cells)
      invariant forall k :: 0 <= k < |columns| && !columns[k].hasEachCell ==> columns[k].width == old(columns[k].width)
      invariant forall k :: 0 <= k < i && columns[k].hasEachCell ==>
                  columns[k].width == Some(FitWidth(CellValues(columns[k].cells), minimalWidth))
    {
      var column := columns[i];
      if column.hasEachCell {
        var maxColumnLength := MaxColumnLength(column.cells, minimalWidth);
        column.width := Some(maxColumnLength + 2);
      }
    }
  }
}
