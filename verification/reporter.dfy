/**
 * The reporter: an "Assertions" worksheet with the three registry columns,
 * and the handler that runs once the test run is done. It appends one row
 * per assertion, fits the column widths, restricts the State cells to the
 * State values, colours the data rows by state, and names the output file.
 */
module Reporter {
  import opened Wrappers
  import opened Newman
  import opened Schema
  import opened Formatting
  import opened ExportPath
  import opened Worksheet

  /** The list validation every State cell receives. */
  function StateValidation(): (v: DataValidation)
    ensures v.kind == "list" && v.formulae == ["\"OK,FAIL\""]
  {
    DataValidation("list", [ValidationFormula()])
  }

  /** A cell after the State column's validation pass: a cell with a value gets the list validation. */
  function Validated(c: Cell): (r: Cell)
    ensures r.value == c.value
    ensures c.value.Some? ==> r.validation == Some(StateValidation())
    ensures c.value.None? ==> r == c
  {
    if c.value.Some? then c.(validation := Some(StateValidation())) else c
  }

  /** The values column `i` holds: its header in row 1, then one value per data row. */
  function ColumnContents(rows: seq<Row>, i: nat): (values: seq<Option<string>>)
    requires i < |Registry|
    ensures |values| == |rows| + 1 && values[0] == Some(Registry[i].header)
    ensures forall k {:trigger values[k]} :: 1 <= k < |values| ==> values[k] == RowCells(rows[k - 1])[i]
  {
    [Some(Registry[i].header)] + seq(|rows|, k requires 0 <= k < |rows| => RowCells(rows[k])[i])
  }

  /** The cells `addRow` appends to column `i` for the given rows: each row's value under the column's key, unvalidated. */
  function NewCells(rows: seq<Row>, i: nat): seq<Cell>
    requires i < |Registry|
  {
    seq(|rows|, k requires 0 <= k < |rows| => Cell(RowCells(rows[k])[i], None))
  }

  lemma NewCellsAppend(a: seq<Row>, b: seq<Row>, i: nat)
    requires i < |Registry|
    ensures NewCells(a + b, i) == NewCells(a, i) + NewCells(b, i)
  {
  }

  /** Each column holds its header and then the rows' values under its key. */
  ghost predicate HoldsRows(cells: seq<seq<Cell>>, rows: seq<Row>)
  {
    && |cells| == |Registry|
    && CellValues(cells[0]) == ColumnContents(rows, 0)
    && CellValues(cells[1]) == ColumnContents(rows, 1)
    && CellValues(cells[2]) == ColumnContents(rows, 2)
  }

  /** What the handler changes on the "Assertions" worksheet: its data rows, each column's cells and width, and its formattings. */
  datatype Sheet = Sheet(rows: seq<Row>, cells: seq<seq<Cell>>, widths: seq<Option<int>>, formats: seq<ConditionalFormat>)

  /** The sheet after `addRow` for each of `added`, in order. */
  function Grown(s: Sheet, added: seq<Row>): Sheet
    requires |s.cells| == |Registry|
  {
    s.(rows := s.rows + added,
       cells := [s.cells[0] + NewCells(added, 0), s.cells[1] + NewCells(added, 1), s.cells[2] + NewCells(added, 2)])
  }

  lemma GrownNothing(s: Sheet)
    requires |s.cells| == |Registry|
    ensures Grown(s, []) == s
  {
    assert NewCells([], 0) == [] && NewCells([], 1) == [] && NewCells([], 2) == [];
    assert s.rows + [] == s.rows;
    assert s.cells[0] + [] == s.cells[0] && s.cells[1] + [] == s.cells[1] && s.cells[2] + [] == s.cells[2];
    assert Grown(s, []).cells == [s.cells[0], s.cells[1], s.cells[2]] == s.cells;
  }

  lemma GrownTwice(s: Sheet, a: seq<Row>, b: seq<Row>)
    requires |s.cells| == |Registry|
    ensures Grown(Grown(s, a), b) == Grown(s, a + b)
  {
    NewCellsAppend(a, b, 0);
    NewCellsAppend(a, b, 1);
    NewCellsAppend(a, b, 2);
    assert s.rows + a + b == s.rows + (a + b);
    assert Grown(Grown(s, a), b).cells == Grown(s, a + b).cells by {
      forall i | 0 <= i < |Registry|
        ensures Grown(Grown(s, a), b).cells[i] == Grown(s, a + b).cells[i]
      {
        assert s.cells[i] + NewCells(a, i) + NewCells(b, i) == s.cells[i] + (NewCells(a, i) + NewCells(b, i));
      }
    }
  }

  /** Appending rows keeps every column holding its header and the rows' values. */
  lemma {:induction false} GrownHoldsRows(s: Sheet, added: seq<Row>)
    requires HoldsRows(s.cells, s.rows)
    ensures HoldsRows(Grown(s, added).cells, s.rows + added)
  {
    var g := Grown(s, added);
    forall i | 0 <= i < |Registry|
      ensures CellValues(g.cells[i]) == ColumnContents(s.rows + added, i)
    {
      var values := CellValues(g.cells[i]);
      var contents := ColumnContents(s.rows + added, i);
      assert |values| == |contents|;
      forall k | 0 <= k < |values|
        ensures values[k] == contents[k]
      {
        if k < |s.cells[i]| {
          assert values[k] == CellValues(s.cells[i])[k];
          if k > 0 {
            assert contents[k] == RowCells((s.rows + added)[k - 1])[i];
            assert ColumnContents(s.rows, i)[k] == RowCells(s.rows[k - 1])[i];
          }
        } else {
          assert g.cells[i][k] == NewCells(added, i)[k - |s.cells[i]|];
          assert contents[k] == RowCells((s.rows + added)[k - 1])[i];
        }
      }
    }
  }

  /** A column's cells after the State column's validation pass. */
  function ValidatedAll(cells: seq<Cell>): seq<Cell>
  {
    seq(|cells|, k requires 0 <= k < |cells| => Validated(cells[k]))
  }

  /** The formattings `conditionalFormatting` adds to a sheet whose data rows are `rows`. */
  function AddedFormats(rows: seq<Row>): seq<ConditionalFormat>
  {
    if |rows| > 0 then [FormatFor("B", "C", |rows| + 1)] else []
  }

  /** The width `autoWidth` gives each column of a sheet whose data rows are `rows`. */
  function FittedWidths(rows: seq<Row>): seq<Option<int>>
  {
    [Some(FitWidth(ColumnContents(rows, 0), DefaultMinimalWidth)),
     Some(FitWidth(ColumnContents(rows, 1), DefaultMinimalWidth)),
     Some(FitWidth(ColumnContents(rows, 2), DefaultMinimalWidth))]
  }

  /** The sheet after the handler's steps that follow the traversal: fitted widths, validated State cells, formatting. */
  function Finished(s: Sheet): Sheet
    requires |s.cells| == |Registry|
  {
    Sheet(s.rows, s.cells[1 := ValidatedAll(s.cells[1])], FittedWidths(s.rows), s.formats + AddedFormats(s.rows))
  }

  /** Whatever the rows, the State column holds at most 5 characters ("State"), so it is fitted to 10 + 2. */
  lemma StateColumnWidth(rows: seq<Row>)
    ensures FitWidth(ColumnContents(rows, 1), DefaultMinimalWidth) == DefaultMinimalWidth + 2
  {
    var values := ColumnContents(rows, 1);
    forall k | 0 <= k < |values|
      ensures TextLength(values[k]) <= DefaultMinimalWidth
    {
      if k > 0 {
        assert values[k] == Some(rows[k - 1].state.Value());
      }
    }
    ShortTextsGetMinimalWidth(values);
  }

  /** Every cell of the State column holds a value: the header, then a state per row. */
  lemma StateCellsHaveValues(rows: seq<Row>)
    ensures forall k :: 0 <= k < |ColumnContents(rows, 1)| ==> ColumnContents(rows, 1)[k].Some?
  {
    var values := ColumnContents(rows, 1);
    forall k | 0 <= k < |values|
      ensures values[k].Some?
    {
      if k > 0 {
        assert values[k] == Some(rows[k - 1].state.Value());
      }
    }
  }

  /**
   * The rows of a run, in terms of the run's executions: one per assertion,
   * and the `j`-th assertion of execution `e` lands after the rows of all
   * earlier executions.
   */
  lemma RowsFollowTraversal(summary: Option<Summary>, e: nat, j: nat)
    requires e < |Executions(summary)| && j < |AssertionsOf(Executions(summary)[e])|
    ensures |RowsOf(Flatten(Executions(summary)))| == Count(Executions(summary))
    ensures var es := Executions(summary);
            Count(es[..e]) + j < Count(es) &&
            RowsOf(Flatten(es))[Count(es[..e]) + j] == RowOf(AssertionsOf(es[e])[j])
  {
    var es := Executions(summary);
    FlattenLength(es);
    FlattenOrder(es, e, j);
  }

  /** One execution with a passing and a failing assertion gives an OK row and a FAIL row, in that order. */
  lemma TwoAssertionScenario()
    ensures var summary := Some(Summary(Some(Run(Some([Execution(Some([
              Assertion("status is 200", None),
              Assertion("body has id", Some(AssertionError(Some("expected id"))))]))])))));
            RowsOf(Flatten(Executions(summary)))
              == [Row("status is 200", OK, None), Row("body has id", FAIL, Some("expected id"))]
  {
  }

  /** The validation pass keeps a State column's values and validates every one of its cells. */
  lemma ValidatedStateColumn(cells: seq<Cell>, rows: seq<Row>)
    requires CellValues(cells) == ColumnContents(rows, 1)
    ensures CellValues(ValidatedAll(cells)) == CellValues(cells)
    ensures forall k :: 0 <= k < |cells| ==> ValidatedAll(cells)[k].validation == Some(StateValidation())
  {
    StateCellsHaveValues(rows);
    forall k | 0 <= k < |cells|
      ensures ValidatedAll(cells)[k].value == cells[k].value
      ensures ValidatedAll(cells)[k].validation == Some(StateValidation())
    {
      assert CellValues(cells)[k] == ColumnContents(rows, 1)[k];
    }
    assert CellValues(ValidatedAll(cells)) == CellValues(cells);
  }

  /** `autoWidth` on a column that holds the rows' values keeps its cells and gives it the fitted width. */
  lemma FittedColumn(v: ColumnView, rows: seq<Row>, i: nat)
    requires i < |Registry|
    requires v.hasEachCell && CellValues(v.cells) == ColumnContents(rows, i)
    ensures Fitted(v, DefaultMinimalWidth).cells == v.cells
    ensures Fitted(v, DefaultMinimalWidth).width == Some(FitWidth(ColumnContents(rows, i), DefaultMinimalWidth))
  {
  }

  /** A width that fits the minimal width and every cell's text, with the two characters of padding. */
  ghost predicate FitsCells(width: Option<int>, cells: seq<Cell>)
  {
    && width.Some?
    && width.value >= DefaultMinimalWidth + 2
    && forall k :: 0 <= k < |cells| ==> TextLength(cells[k].value) + 2 <= width.value
  }

  /** A fitted width fits every cell of a column that holds the rows' values (the header keeps it non-empty). */
  lemma FittedWidthFits(cells: seq<Cell>, rows: seq<Row>, i: nat)
    requires i < |Registry| && CellValues(cells) == ColumnContents(rows, i)
    ensures FitsCells(Some(FitWidth(ColumnContents(rows, i), DefaultMinimalWidth)), cells)
  {
    var values := CellValues(cells);
    forall k | 0 <= k < |cells|
      ensures TextLength(cells[k].value) + 2 <= FitWidth(values, DefaultMinimalWidth)
    {
      assert values[k] == cells[k].value;
    }
  }

  /** After the handler's last steps every width fits its column, and the State column's is 12. */
  lemma FinishedWidths(g: Sheet)
    requires HoldsRows(g.cells, g.rows)
    ensures FitsCells(Finished(g).widths[0], Finished(g).cells[0])
    ensures FitsCells(Finished(g).widths[1], Finished(g).cells[1])
    ensures FitsCells(Finished(g).widths[2], Finished(g).cells[2])
    ensures Finished(g).widths[1] == Some(DefaultMinimalWidth + 2)
  {
    var f := Finished(g);
    ValidatedStateColumn(g.cells[1], g.rows);
    StateColumnWidth(g.rows);
    FittedWidthFits(f.cells[0], g.rows, 0);
    FittedWidthFits(f.cells[1], g.rows, 1);
    FittedWidthFits(f.cells[2], g.rows, 2);
  }

  /** After the handler, the new Test and Error cells carry no validation and every State cell does. */
  lemma FinishedCells(s: Sheet, added: seq<Row>)
    requires HoldsRows(s.cells, s.rows)
    ensures var f := Finished(Grown(s, added));
            && f.cells[0] == s.cells[0] + NewCells(added, 0)
            && f.cells[2] == s.cells[2] + NewCells(added, 2)
            && (forall k :: |s.cells[0]| <= k < |f.cells[0]| ==> f.cells[0][k].validation == None)
            && (forall k :: |s.cells[2]| <= k < |f.cells[2]| ==> f.cells[2][k].validation == None)
            && (forall k :: 0 <= k < |f.cells[1]| ==> f.cells[1][k].validation == Some(StateValidation()))
  {
    GrownHoldsRows(s, added);
    var g := Grown(s, added);
    ValidatedStateColumn(g.cells[1], g.rows);
    var f := Finished(g);
    forall k | |s.cells[0]| <= k < |f.cells[0]|
      ensures f.cells[0][k].validation == None
    {
      assert f.cells[0][k] == NewCells(added, 0)[k - |s.cells[0]|];
    }
    forall k | |s.cells[2]| <= k < |f.cells[2]|
      ensures f.cells[2][k].validation == None
    {
      assert f.cells[2][k] == NewCells(added, 2)[k - |s.cells[2]|];
    }
  }

  /**
   * What the handler leaves on a sheet that holds its rows: the added rows
   * follow the old ones in every column, the Test and Error cells are left
   * without validation, every State cell is validated, every width fits its
   * column (the State column's is 12), and the data rows are formatted.
   */
  lemma HandlerOutcome(s: Sheet, added: seq<Row>)
    requires HoldsRows(s.cells, s.rows)
    ensures var f := Finished(Grown(s, added));
            && f.rows == s.rows + added
            && HoldsRows(f.cells, f.rows)
            && f.cells[0] == s.cells[0] + NewCells(added, 0)
            && f.cells[2] == s.cells[2] + NewCells(added, 2)
            && (forall k :: |s.cells[0]| <= k < |f.cells[0]| ==> f.cells[0][k].validation == None)
            && (forall k :: |s.cells[2]| <= k < |f.cells[2]| ==> f.cells[2][k].validation == None)
            && (forall k :: 0 <= k < |f.cells[1]| ==> f.cells[1][k].validation == Some(StateValidation()))
            && FitsCells(f.widths[0], f.cells[0])
            && FitsCells(f.widths[1], f.cells[1])
            && FitsCells(f.widths[2], f.cells[2])
            && f.widths[1] == Some(DefaultMinimalWidth + 2)
            && f.formats == s.formats + (if |f.rows| > 0 then [FormatFor("B", "C", |f.rows| + 1)] else [])
  {
    GrownHoldsRows(s, added);
    var g := Grown(s, added);
    ValidatedStateColumn(g.cells[1], g.rows);
    FinishedCells(s, added);
    FinishedWidths(g);
  }

  class NewmanXlsxReporter {
    /** The worksheet's data rows (row 2 onwards). */
    var rows: seq<Row>
    /** The worksheet's columns, in registry order: Test, State, Error. */
    const columns: seq<Column>
    /** The conditional formattings added to the worksheet. */
    var formats: seq<ConditionalFormat>

    /** The columns are the registry's, distinct, and hold the header and then the rows' values. */
    ghost predicate Valid()
      reads this, columns
    {
      && |columns| == |Registry|
      && columns[0] != columns[1] && columns[0] != columns[2] && columns[1] != columns[2]
      && columns[0].hasEachCell && columns[1].hasEachCell && columns[2].hasEachCell
      && columns[0].letter == ColumnLetter(1) && columns[1].letter == ColumnLetter(2) && columns[2].letter == ColumnLetter(3)
      && HoldsRows(Cells(), rows)
    }

    /** Every column's cells, in column order. */
    function Cells(): seq<seq<Cell>>
      requires |columns| == |Registry|
      reads columns
    {
      [columns[0].cells, columns[1].cells, columns[2].cells]
    }

    /** Every column's width, in column order. */
    function Widths(): seq<Option<int>>
      requires |columns| == |Registry|
      reads columns
    {
      [columns[0].width, columns[1].width, columns[2].width]
    }

    /** The worksheet as the handler changes it. */
    function Snapshot(): Sheet
      requires |columns| == |Registry|
      reads this, columns
    {
      Sheet(rows, Cells(), Widths(), formats)
    }

    /**
     * `createColumns`: one column per registered definition, holding only its
     * header. The definitions are those the class's loading registers.
     */
    constructor ()
      ensures Valid()
      ensures Snapshot() == Sheet([], [[Cell(Some("Test"), None)], [Cell(Some("State"), None)], [Cell(Some("Error"), None)]],
                                  [None, None, None], [])
    {
      var registry := LoadColumnDefinitions();
      var definitions := registry.Values();
      var test := new Column(ColumnLetter(1), true, [Cell(Some(definitions[0].header), None)]);
      var state := new Column(ColumnLetter(2), true, [Cell(Some(definitions[1].header), None)]);
      var error := new Column(ColumnLetter(3), true, [Cell(Some(definitions[2].header), None)]);
      columns := [test, state, error];
      rows := [];
      formats := [];
    }

    /** The worksheet's `lastRow`: the header fills row 1, so the last row is row `|rows| + 1`. */
    function LastRow(): (r: Option<nat>)
      reads this, columns
      ensures r.Some? && r.value >= 1
      ensures Valid() ==> forall i :: 0 <= i < |columns| ==> r.value == |columns[i].cells|
    {
      assert Valid() ==> forall i :: 0 <= i < |columns| ==> |CellValues(Cells()[i])| == |columns[i].cells|;
      Some(|rows| + 1)
    }

    /** `addRow` with a keyed row object: each column receives the row's value under its key. */
    method AddRow(row: Row)
      requires Valid()
      modifies this, columns
      ensures Valid()
      ensures Snapshot() == Grown(old(Snapshot()), [row])
    {
      var values := RowCells(row);
      columns[0].cells := columns[0].cells + [Cell(values[0], None)];
      columns[1].cells := columns[1].cells + [Cell(values[1], None)];
      columns[2].cells := columns[2].cells + [Cell(values[2], None)];
      rows := rows + [row];
      assert NewCells([row], 0) == [Cell(values[0], None)];
      assert NewCells([row], 1) == [Cell(values[1], None)];
      assert NewCells([row], 2) == [Cell(values[2], None)];
      GrownHoldsRows(old(Snapshot()), [row]);
    }

    /** `addAssertion`: appends the row derived from one assertion. */
    method AddAssertion(a: Assertion)
      requires Valid()
      modifies this, columns
      ensures Valid()
      ensures Snapshot() == Grown(old(Snapshot()), [RowOf(a)])
    {
      AddRow(RowOf(a));
    }

    /** The handler's inner loop: one row for each assertion of one execution, in order. */
    method AddAssertions(assertions: seq<Assertion>)
      requires Valid()
      modifies this, columns
      ensures Valid()
      ensures Snapshot() == Grown(old(Snapshot()), RowsOf(assertions))
    {
      GrownNothing(Snapshot());
      for j := 0 to |assertions|
        invariant Valid()
        invariant Snapshot() == Grown(old(Snapshot()), RowsOf(assertions[..j]))
      {
        ghost var done := RowsOf(assertions[..j]);
        AddAssertion(assertions[j]);
        assert RowsOf(assertions[..j + 1]) == done + [RowOf(assertions[j])] by {
          assert assertions[..j + 1] == assertions[..j] + [assertions[j]];
          RowsOfAppend(assertions[..j], [assertions[j]]);
        }
        GrownTwice(old(Snapshot()), done, [RowOf(assertions[j])]);
      }
      assert assertions[..|assertions|] == assertions;
    }

    /** The handler's traversal: every assertion of every execution, in order, missing levels read as empty. */
    method CollectAssertions(summary: Option<Summary>)
      requires Valid()
      modifies this, columns
      ensures Valid()
      ensures Snapshot() == Grown(old(Snapshot()), RowsOf(Flatten(Executions(summary))))
    {
      var executions := Executions(summary);
      GrownNothing(Snapshot());
      for e := 0 to |executions|
        invariant Valid()
        invariant Snapshot() == Grown(old(Snapshot()), RowsOf(Flatten(executions[..e])))
      {
        var assertions := AssertionsOf(executions[e]);
        ghost var done := RowsOf(Flatten(executions[..e]));
        AddAssertions(assertions);
        assert RowsOf(Flatten(executions[..e + 1])) == done + RowsOf(assertions) by {
          assert executions[..e + 1][..e] == executions[..e];
          RowsOfAppend(Flatten(executions[..e]), assertions);
        }
        GrownTwice(old(Snapshot()), done, RowsOf(assertions));
      }
      assert executions[..|executions|] == executions;
    }

    /** The State column's `eachCell`: every State cell with a value gets the list validation. */
    method ApplyValidation()
      requires Valid()
      modifies columns[1]
      ensures Valid()
      ensures Snapshot() == old(Snapshot()).(cells := old(Cells())[1 := ValidatedAll(old(columns[1].cells))])
    {
      StateCellsHaveValues(rows);
      RegistryLayout();
      var stateColumn := columns[ColumnIndex(Registry, StateColumn.key).value];
      // The reporter is none of its columns: stating it keeps the frame proof around the call cheap.
      ghost var objects: seq<object> := columns;
      assert this !in objects;
      stateColumn.SetValidation(StateValidation());
      forall k | 0 <= k < |stateColumn.cells|
        ensures stateColumn.cells[k] == Validated(old(stateColumn.cells[k]))
      {
        assert CellValues(stateColumn.cells)[k] == CellValues(old(stateColumn.cells))[k];
        assert CellValues(old(stateColumn.cells))[k] == ColumnContents(rows, 1)[k];
      }
      assert stateColumn.cells == ValidatedAll(old(stateColumn.cells));
    }

    /** `conditionalFormatting`, with the guard skipping a sheet without data rows. */
    method ConditionalFormatting()
      requires Valid()
      modifies this`formats
      ensures Valid()
      ensures Snapshot() == old(Snapshot()).(formats := old(formats) + AddedFormats(rows))
    {
      RegistryLayout();
      assert ColumnLetter(2) == "B" && ColumnLetter(3) == "C";
      var lastColumn := columns[|columns| - 1];
      var stateColumn := columns[ColumnIndex(Registry, StateColumn.key).value];
      var format := GuardedFormatting(stateColumn.letter, lastColumn.letter, LastRow());
      if format.Some? {
        formats := formats + [format.value];
      }
    }

    /** `autoWidth(this.assertionSheet)` with the default minimal width: every column fits its header and values. */
    method FitColumns()
      requires Valid()
      modifies columns
      ensures Valid()
      ensures Snapshot() == old(Snapshot()).(widths := FittedWidths(rows))
    {
      ghost var views := [columns[0].View(), columns[1].View(), columns[2].View()];
      FittedColumn(views[0], rows, 0);
      FittedColumn(views[1], rows, 1);
      FittedColumn(views[2], rows, 2);
      // The reporter is none of its columns: stating it keeps the frame proof around the call cheap.
      ghost var objects: seq<object> := columns;
      assert this !in objects;
      AutoWidth(columns);
      assert columns[0].View() == Fitted(views[0], DefaultMinimalWidth);
      assert columns[1].View() == Fitted(views[1], DefaultMinimalWidth);
      assert columns[2].View() == Fitted(views[2], DefaultMinimalWidth);
    }

    /** The State column's validation pass, then `conditionalFormatting`. */
    method ValidateAndFormat()
      requires Valid()
      modifies this`formats, columns[1]
      ensures Valid()
      ensures Snapshot() == old(Snapshot()).(cells := old(Cells())[1 := ValidatedAll(old(columns[1].cells))],
                                             formats := old(formats) + AddedFormats(rows))
    {
      ApplyValidation();
      ConditionalFormatting();
    }

    /** The handler's steps after the traversal: `autoWidth`, the State column's validation pass and `conditionalFormatting`. */
    method FinishSheet()
      requires Valid()
      modifies this`formats, columns
      ensures Valid()
      ensures Snapshot() == Finished(old(Snapshot()))
    {
      FitColumns();
      ValidateAndFormat();
    }

    /**
     * The `beforeDone` handler: a row for every assertion, then fitted widths,
     * validated State cells and formatting; it returns the path the workbook
     * is written to.
     */
    method BeforeDone(summary: Option<Summary>, exportPath: Option<string>, isoTimestamp: string) returns (path: string)
      requires Valid()
      modifies this, columns
      ensures Valid()
      ensures Snapshot() == Finished(Grown(old(Snapshot()), RowsOf(Flatten(Executions(summary)))))
      ensures path == OutputPath(exportPath, isoTimestamp)
    {
      CollectAssertions(summary);
      FinishSheet();
      path := OutputPath(exportPath, isoTimestamp);
    }
  }
}
