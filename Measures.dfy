/**
 * The measure resolver: one pass over the table's columns that picks, from the
 * first data row, the main value, the progression value and the condition value,
 * with their presence flags.
 */
module Measures {
  import opened Values
  import Rules

  /** A cell of the data row: a number, a text, or blank (`null`). */
  datatype Cell = Number(n: real) | Text(s: string) | Blank

  datatype ColumnType = ColumnType(numeric: bool, integer: bool, text: bool)

  /** The roles a column is bound to. */
  datatype Roles = Roles(mainMeasure: bool, progressionMeasure: bool, conditionMeasure: bool)

  datatype Column = Column(displayName: string, colType: ColumnType, format: string, roles: Roles)

  datatype Role = Main | Progression | Condition

  /** The result of the scan; an unset variable is `None`. */
  datatype Measures = Measures(
    conditionPresent: bool, conditionValue: Option<Cell>,
    mainPresent: bool, mainValue: Option<Cell>, mainColumn: Option<Column>,
    progressionPresent: bool, progressionValue: Option<Cell>, progressionColumn: Option<Column>)

  /** A column supplies a role; a condition column counts only with a numeric or integer type. */
  predicate Supplies(c: Column, role: Role)
  {
    match role
    case Main => c.roles.mainMeasure
    case Progression => c.roles.progressionMeasure
    case Condition => c.roles.conditionMeasure && (c.colType.numeric || c.colType.integer)
  }

  /** The last of the first `k` columns that supplies `role`. */
  function LastSupplier(columns: seq<Column>, role: Role, k: nat): (r: Option<nat>)
    requires k <= |columns|
    ensures r.Some? ==> r.value < k && Supplies(columns[r.value], role)
    ensures r.Some? ==> forall j :: r.value < j < k ==> !Supplies(columns[j], role)
    ensures r.None? ==> forall j :: 0 <= j < k ==> !Supplies(columns[j], role)
  {
    if k == 0 then None
    else if Supplies(columns[k - 1], role) then Some(k - 1)
    else LastSupplier(columns, role, k - 1)
  }

  function CellAt(row: seq<Cell>, i: Option<nat>): Option<Cell>
    requires i.Some? ==> i.value < |row|
  {
    if i.Some? then Some(row[i.value]) else None
  }

  function ColumnAt(columns: seq<Column>, i: Option<nat>): Option<Column>
    requires i.Some? ==> i.value < |columns|
  {
    if i.Some? then Some(columns[i.value]) else None
  }

  /**
   * The condition value after `k` columns. Before a condition column is seen,
   * each column copies the main value as it stood before that column was read.
   */
  function ConditionValueAfter(columns: seq<Column>, row: seq<Cell>, k: nat): Option<Cell>
    requires |row| == |columns| && k <= |columns|
  {
    var cond := LastSupplier(columns, Condition, k);
    if cond.Some? then CellAt(row, cond)
    else if k == 0 then None
    else CellAt(row, LastSupplier(columns, Main, k - 1))
  }

  /** The progression value after `k` columns; without a progression column it copies the main value. */
  function ProgressionValueAfter(columns: seq<Column>, row: seq<Cell>, k: nat): Option<Cell>
    requires |row| == |columns| && k <= |columns|
  {
    var prog := LastSupplier(columns, Progression, k);
    if prog.Some? then CellAt(row, prog) else CellAt(row, LastSupplier(columns, Main, k))
  }

  /** What the scan computes, stated per role. */
  function Resolved(columns: seq<Column>, row: seq<Cell>): Measures
    requires |row| == |columns|
  {
    var n := |columns|;
    var main := LastSupplier(columns, Main, n);
    var prog := LastSupplier(columns, Progression, n);
    Measures(
      LastSupplier(columns, Condition, n).Some?, ConditionValueAfter(columns, row, n),
      main.Some?, CellAt(row, main), ColumnAt(columns, main),
      prog.Some?, ProgressionValueAfter(columns, row, n), ColumnAt(columns, prog))
  }

  /** The scan as the source runs it, column by column, on row 0. */
  method ResolveMeasures(columns: seq<Column>, row: seq<Cell>) returns (m: Measures)
    requires |row| == |columns|
    ensures m == Resolved(columns, row)
  {
    var conditionPresent := false;
    var conditionValue: Option<Cell> := None;
    var mainPresent := false;
    var mainValue: Option<Cell> := None;
    var mainColumn: Option<Column> := None;
    var progressionPresent := false;
    var progressionValue: Option<Cell> := None;
    var progressionColumn: Option<Column> := None;
    var i := 0;
    while i < |columns|
      invariant 0 <= i <= |columns|
      invariant conditionPresent == LastSupplier(columns, Condition, i).Some?
      invariant conditionValue == ConditionValueAfter(columns, row, i)
      invariant mainPresent == LastSupplier(columns, Main, i).Some?
      invariant mainValue == CellAt(row, LastSupplier(columns, Main, i))
      invariant mainColumn == ColumnAt(columns, LastSupplier(columns, Main, i))
      invariant progressionPresent == LastSupplier(columns, Progression, i).Some?
      invariant progressionValue == ProgressionValueAfter(columns, row, i)
      invariant progressionColumn == ColumnAt(columns, LastSupplier(columns, Progression, i))
    {
      var column := columns[i];
      if column.roles.conditionMeasure && (column.colType.numeric || column.colType.integer) {
        conditionValue := Some(row[i]);
        conditionPresent := true;
      } else if !conditionPresent {
        conditionValue := mainValue;
      }
      if column.roles.mainMeasure {
        mainPresent := true;
        mainValue := Some(row[i]);
        mainColumn := Some(column);
      }
      if column.roles.progressionMeasure {
        progressionValue := Some(row[i]);
        progressionColumn := Some(column);
        progressionPresent := true;
      } else if !progressionPresent {
        progressionValue := mainValue;
      }
      i := i + 1;
    }
    m := Measures(conditionPresent, conditionValue, mainPresent, mainValue, mainColumn,
                  progressionPresent, progressionValue, progressionColumn);
  }

  /**
   * What a cell offers the rule engines: a number as itself, a blank cell as
   * `null`; an unset value, and a text, satisfy no comparison.
   */
  function Probe(c: Option<Cell>): (r: Rules.Operand)
    ensures r.Num? <==> c.Some? && c.value.Number?
    ensures r.Num? ==> r.x == c.value.n
    ensures r.Null? <==> c == Some(Blank)
  {
    if c.None? then Rules.Unset
    else match c.value
      case Number(n) => Rules.Num(n)
      case Blank => Rules.Null
      case Text(_) => Rules.Unset
  }

  // ---------------------------------------------------------------------------
  // Properties of the scan

  /** The main value is present iff some column has the main role, and then it comes from the last such column. */
  lemma MainFromLastMainColumn(columns: seq<Column>, row: seq<Cell>)
    requires |row| == |columns|
    ensures Resolved(columns, row).mainPresent <==> exists i :: 0 <= i < |columns| && columns[i].roles.mainMeasure
    ensures Resolved(columns, row).mainPresent ==>
              exists i :: 0 <= i < |columns| && columns[i].roles.mainMeasure &&
                Resolved(columns, row).mainValue == Some(row[i]) &&
                Resolved(columns, row).mainColumn == Some(columns[i]) &&
                forall j :: i < j < |columns| ==> !columns[j].roles.mainMeasure
    ensures !Resolved(columns, row).mainPresent ==> Resolved(columns, row).mainValue == None
  {
    var main := LastSupplier(columns, Main, |columns|);
    if main.Some? {
      assert Supplies(columns[main.value], Main);
    } else {
      forall i | 0 <= i < |columns| ensures !columns[i].roles.mainMeasure {
        assert !Supplies(columns[i], Main);
      }
    }
  }

  /** A condition column counts only when its type is numeric or integer. */
  lemma ConditionNeedsNumericColumn(columns: seq<Column>, row: seq<Cell>)
    requires |row| == |columns|
    ensures Resolved(columns, row).conditionPresent <==>
              exists i :: 0 <= i < |columns| && columns[i].roles.conditionMeasure &&
                          (columns[i].colType.numeric || columns[i].colType.integer)
  {
    var cond := LastSupplier(columns, Condition, |columns|);
    if cond.Some? {
      assert Supplies(columns[cond.value], Condition);
    } else {
      forall i | 0 <= i < |columns|
        ensures !(columns[i].roles.conditionMeasure && (columns[i].colType.numeric || columns[i].colType.integer))
      {
        assert !Supplies(columns[i], Condition);
      }
    }
  }

  /**
   * Without a condition column the condition value is the main value as it stood
   * before the last column was read; the progression value is the main value
   * after the whole scan.
   */
  lemma FallbacksDifferByOneColumn(columns: seq<Column>, row: seq<Cell>)
    requires |row| == |columns| && |columns| > 0
    requires forall i :: 0 <= i < |columns| ==> !Supplies(columns[i], Condition) && !Supplies(columns[i], Progression)
    ensures Resolved(columns, row).conditionValue == Resolved(columns[..|columns| - 1], row[..|row| - 1]).mainValue
    ensures Resolved(columns, row).progressionValue == Resolved(columns, row).mainValue
  {
    var n := |columns|;
    LastSupplierPrefix(columns, Main, n - 1, n - 1);
    assert LastSupplier(columns, Condition, n).None?;
    assert LastSupplier(columns, Progression, n).None?;
  }

  /** The last supplier among the first k columns depends only on those columns. */
  lemma {:induction false} LastSupplierPrefix(columns: seq<Column>, role: Role, m: nat, k: nat)
    requires k <= m <= |columns|
    ensures LastSupplier(columns[..m], role, k) == LastSupplier(columns, role, k)
  {
    if k > 0 {
      assert columns[..m][k - 1] == columns[k - 1];
      LastSupplierPrefix(columns, role, m, k - 1);
    }
  }

  /** A lone main column leaves the condition value unset, while the progression value copies it. */
  lemma LoneMainLeavesConditionUnset(c: Column, x: Cell)
    requires c.roles.mainMeasure && !Supplies(c, Condition) && !Supplies(c, Progression)
    ensures Resolved([c], [x]).conditionValue == None
    ensures Resolved([c], [x]).mainValue == Some(x)
    ensures Resolved([c], [x]).progressionValue == Some(x)
  {
    assert LastSupplier([c], Main, 1) == Some(0);
  }
}
