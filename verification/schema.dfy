/**
 * The fixed schema of the "Assertions" worksheet: the State enum, the
 * three-column registry, the row derived from one assertion, and the
 * list formula that restricts the State column to the enum's values.
 */
module Schema {
  import opened Wrappers
  import opened Strings
  import opened Newman

  datatype State = OK | FAIL
  {
    /** The enum member's string value. */
    function Value(): string
    {
      match this
      case OK => "OK"
      case FAIL => "FAIL"
    }
  }

  /** `Object.values(State)`: the enum's values in declaration order. */
  const StateValues: seq<string> := [OK.Value(), FAIL.Value()]

  datatype ColumnDefinition = ColumnDefinition(header: string, key: string)

  const TestColumn := ColumnDefinition("Test", "test")
  const StateColumn := ColumnDefinition("State", "state")
  const ErrorColumn := ColumnDefinition("Error", "error")

  /** `ColumnDefinition.values()`: every definition, in the order it registered itself. */
  const Registry: seq<ColumnDefinition> := [TestColumn, StateColumn, ErrorColumn]

  /** How loading the class ends: with the registered definitions, or with a thrown `TypeError`. */
  datatype LoadOutcome = Loaded(columns: seq<ColumnDefinition>) | TypeError

  /**
   * The static list each ColumnDefinition pushes itself onto when it is
   * constructed. It is `undefined` (None) until its own initialiser runs.
   */
  class ColumnRegistry {
    var columns: Option<seq<ColumnDefinition>>

    /** The class's statics before any static initialiser has run. */
    constructor ()
      ensures columns == None
    {
      columns := None;
    }

    /** The initialiser of the static `columns` field: an empty list. */
    method InitColumns()
      modifies this
      ensures columns == Some([])
    {
      columns := Some([]);
    }

    /**
     * The private constructor's `ColumnDefinition.columns.push(this)`: it
     * appends the definition, and throws (reported as `threw`) while the
     * list is still undefined.
     */
    method Register(definition: ColumnDefinition) returns (threw: bool)
      modifies this
      ensures threw <==> old(columns).None?
      ensures columns == if threw then old(columns) else Some(old(columns).value + [definition])
    {
      match columns
      case None =>
        threw := true;
      case Some(list) =>
        columns := Some(list + [definition]);
        threw := false;
    }

    /** `ColumnDefinition.values()`, with an undefined list read as empty. */
    function Values(): seq<ColumnDefinition>
      reads this
    {
      if columns.Some? then columns.value else []
    }
  }

  /**
   * Loading the class as written: static initialisers run in declaration
   * order, so `Test` is constructed before the `columns` initialiser, and its
   * push meets an undefined list. The `TypeError` ends the class's evaluation.
   */
  method LoadInDeclarationOrder() returns (outcome: LoadOutcome)
    ensures outcome == TypeError
  {
    var registry := new ColumnRegistry();
    var threw := registry.Register(TestColumn);
    var values := registry.Values();
    outcome := if threw then TypeError else Loaded(values);
  }

  /**
   * Loading the class with the `columns` initialiser first: the three static
   * members then register as Test, State, Error, in declaration order.
   */
  method LoadColumnDefinitions() returns (registry: ColumnRegistry)
    ensures registry.columns == Some(Registry)
    ensures registry.Values() == Registry
  {
    registry := new ColumnRegistry();
    registry.InitColumns();
    var threw := registry.Register(TestColumn);
    threw := registry.Register(StateColumn);
    threw := registry.Register(ErrorColumn);
    assert [] + [TestColumn] + [StateColumn] + [ErrorColumn] == Registry;
  }

  /** The position of the first column with the given key, as a worksheet looks a column up by key. */
  function ColumnIndex(cols: seq<ColumnDefinition>, key: string): (r: Option<nat>)
    ensures r.Some? ==> r.value < |cols| && cols[r.value].key == key
    ensures r.Some? ==> forall j :: 0 <= j < r.value ==> cols[j].key != key
    ensures r.None? ==> forall j :: 0 <= j < |cols| ==> cols[j].key != key
  {
    if cols == [] then None
    else if cols[0].key == key then Some(0)
    else match ColumnIndex(cols[1..], key)
      case None => None
      case Some(i) => Some(i + 1)
  }

  /** The registry is Test, State, Error in that order, and each key finds its own column. */
  lemma RegistryLayout()
    ensures |Registry| == 3
    ensures Registry[0].header == "Test" && Registry[1].header == "State" && Registry[2].header == "Error"
    ensures ColumnIndex(Registry, "test") == Some(0)
    ensures ColumnIndex(Registry, "state") == Some(1)
    ensures ColumnIndex(Registry, "error") == Some(2)
  {
  }

  /** One data row of the worksheet. */
  datatype Row = Row(test: string, state: State, error: Option<string>)

  /** `assertion?.error?.message` */
  function ErrorMessage(a: Assertion): Option<string>
  {
    match a.error
    case None => None
    case Some(e) => e.message
  }

  /** JavaScript truthiness of an optional string. */
  predicate Truthy(m: Option<string>)
  {
    m.Some? && m.value != ""
  }

  /** The row `addAssertion` appends for one assertion. */
  function RowOf(a: Assertion): (r: Row)
    ensures r.test == a.assertion
    ensures r.error == (if a.error.Some? then a.error.value.message else None)
    ensures r.state == FAIL <==> a.error.Some? && a.error.value.message.Some? && |a.error.value.message.value| > 0
    ensures r.state == OK <==> a.error.None? || a.error.value.message.None? || a.error.value.message.value == ""
  {
    var error := ErrorMessage(a);
    Row(a.assertion, if Truthy(error) then FAIL else OK, error)
  }

  /** The rows for a sequence of assertions, one per assertion, in order. */
  function RowsOf(assertions: seq<Assertion>): (rows: seq<Row>)
    ensures |rows| == |assertions|
    ensures forall k :: 0 <= k < |rows| ==> rows[k] == RowOf(assertions[k])
  {
    seq(|assertions|, k requires 0 <= k < |assertions| => RowOf(assertions[k]))
  }

  lemma RowsOfAppend(a: seq<Assertion>, b: seq<Assertion>)
    ensures RowsOf(a + b) == RowsOf(a) + RowsOf(b)
  {
  }

  /** The property of a row object stored under a column key (`{test, state, error}`). */
  function Field(r: Row, key: string): Option<string>
  {
    if key == "test" then Some(r.test)
    else if key == "state" then Some(r.state.Value())
    else if key == "error" then r.error
    else None
  }

  /** The cells a keyed row object fills, in registry order. */
  function RowCells(r: Row): (cells: seq<Option<string>>)
    ensures cells == [Some(r.test), Some(r.state.Value()), r.error]
  {
    seq(|Registry|, i requires 0 <= i < |Registry| => Field(r, Registry[i].key))
  }

  /** The data-validation formula: the enum's values joined by commas, in quotes. */
  function ValidationFormula(): (f: string)
    ensures f == "\"OK,FAIL\""
  {
    "\"" + Join(StateValues, ',') + "\""
  }

  /** The values a list validation offers for a quoted literal formula: its body split at commas. */
  function ListValues(formula: string): seq<string>
  {
    if |formula| >= 2 && formula[0] == '"' && formula[|formula| - 1] == '"'
    then Split(formula[1..|formula| - 1], ',')
    else []
  }

  /** The validation list offers exactly the State values, OK first. */
  lemma ValidationListsEveryState()
    ensures ListValues(ValidationFormula()) == StateValues
    ensures forall v :: v in ListValues(ValidationFormula()) <==> exists s: State :: s.Value() == v
  {
    var f := ValidationFormula();
    assert f[1..|f| - 1] == Join(StateValues, ',');
    SplitJoin(StateValues, ',');
    assert forall v :: v in StateValues <==> v == OK.Value() || v == FAIL.Value();
  }
}
