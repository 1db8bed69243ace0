/**
 * What the four managers declare and build, apart from the database
 * itself: each manager's table and columns, the INSERT, UPDATE and DELETE
 * texts of the generic manager, the base query (the sensor manager's joins
 * its fluid and building), the find-by and between queries, and beside
 * each query the selection the store answers for it.
 */
module Managers {
  import opened Wrappers
  import JS = JavaStrings
  import Store
  import Q = Queries

  /** The four concrete managers. */
  datatype Kind = SensorKind | ValueKind | BuildingKind | FluidKind

  /** The table each manager passes to the generic constructor. */
  function Table(k: Kind): string
  {
    match k
    case SensorKind => "sensor"
    case ValueKind => "value"
    case BuildingKind => "building"
    case FluidKind => "fluid"
  }

  /** The columns each manager writes, in statement-position order (the generated `id` is not one). */
  function Columns(k: Kind): seq<string>
  {
    match k
    case SensorKind => ["name", "floor", "place", "fluid_id", "building_id", "min_threshold", "max_threshold"]
    case ValueKind => ["value", "date_time", "sensor_id"]
    case BuildingKind => ["name"]
    case FluidKind => ["type"]
  }

  /** No column is listed twice, none is `id`, none holds a placeholder, and no two managers share a table. */
  lemma DeclarationsWellFormed(k: Kind)
    ensures Store.Distinct(Columns(k)) && "id" !in Columns(k) && Columns(k) != []
    ensures '?' !in Table(k) && forall i :: 0 <= i < |Columns(k)| ==> '?' !in Columns(k)[i]
    ensures forall k' :: Table(k') == Table(k) ==> k' == k
  {
  }

  /** One `?` per column. */
  function Marks(n: nat): (r: seq<string>)
    ensures |r| == n && forall i :: 0 <= i < n ==> r[i] == "?"
  {
    seq(n, i => "?")
  }

  /** `INSERT INTO t(c1, ..., cn) VALUES(?, ..., ?)`. */
  function InsertSql(table: string, columns: seq<string>): string
  {
    "INSERT INTO " + table + "(" + JS.Join(columns, ", ") + ") VALUES(" + JS.Join(Marks(|columns|), ", ") + ")"
  }

  /** `generateInsertQuery`: fills an array with one `?` per column, then joins. */
  method GenerateInsertQuery(table: string, columns: seq<string>) returns (sql: string)
    ensures sql == InsertSql(table, columns)
  {
    var marks := new string[|columns|];
    for i := 0 to |columns|
      invariant forall j :: 0 <= j < i ==> marks[j] == "?"
    {
      marks[i] := "?";
    }
    assert marks[..] == Marks(|columns|);
    sql := "INSERT INTO " + table + "(" + JS.Join(columns, ", ") + ") VALUES(" + JS.Join(marks[..], ", ") + ")";
  }

  /** The INSERT text has exactly one placeholder per column. */
  lemma InsertPlaceholders(table: string, columns: seq<string>)
    requires '?' !in table && forall i :: 0 <= i < |columns| ==> '?' !in columns[i]
    ensures JS.Occurrences(InsertSql(table, columns), '?') == |columns|
  {
    var cols := JS.Join(columns, ", ");
    var marks := JS.Join(Marks(|columns|), ", ");
    JS.JoinFree(columns, ", ", '?');
    JS.OccurrencesJoin(Marks(|columns|), ", ", '?');
    MarksCount(|columns|);
    JS.OccurrencesAppend("INSERT INTO " + table + "(" + cols + ") VALUES(", marks, '?');
    JS.OccurrencesAppend("INSERT INTO " + table + "(" + cols + ") VALUES(" + marks, ")", '?');
  }

  lemma {:induction false} MarksCount(n: nat)
    ensures JS.SumOccurrences(Marks(n), '?') == n
  {
    if n > 0 {
      MarksCount(n - 1);
      assert Marks(n)[1..] == Marks(n - 1);
    }
  }

  /** `generateUpdateQuery(id)`: `UPDATE t SET c1=?, ..., cn=? WHERE id=<id>`. */
  function UpdateSql(table: string, columns: seq<string>, id: int): string
  {
    "UPDATE " + table + " SET " + JS.Join(columns, "=?, ") + "=? WHERE id=" + JS.IntToString(id)
  }

  /** Each column with its placeholder. */
  function Assignments(columns: seq<string>): (r: seq<string>)
    ensures |r| == |columns| && forall i :: 0 <= i < |columns| ==> r[i] == columns[i] + "=?"
  {
    seq(|columns|, i requires 0 <= i < |columns| => columns[i] + "=?")
  }

  /** The UPDATE text sets every column to its own placeholder, the assignments separated by ", ". */
  lemma UpdateSqlShape(table: string, columns: seq<string>, id: int)
    requires columns != []
    ensures UpdateSql(table, columns, id)
         == "UPDATE " + table + " SET " + JS.Join(Assignments(columns), ", ") + " WHERE id=" + JS.IntToString(id)
  {
    JoinAssignments(columns);
    assert "=? WHERE id=" == "=?" + " WHERE id=";
  }

  lemma {:induction false} JoinAssignments(columns: seq<string>)
    requires columns != []
    ensures JS.Join(columns, "=?, ") + "=?" == JS.Join(Assignments(columns), ", ")
  {
    if |columns| > 1 {
      JoinAssignments(columns[1..]);
      assert Assignments(columns)[1..] == Assignments(columns[1..]);
      assert "=?, " == "=?" + ", ";
    }
  }

  /** The UPDATE text has exactly one placeholder per column: the id is written into the text. */
  lemma UpdatePlaceholders(table: string, columns: seq<string>, id: int)
    requires columns != []
    requires '?' !in table && forall i :: 0 <= i < |columns| ==> '?' !in columns[i]
    ensures JS.Occurrences(UpdateSql(table, columns, id), '?') == |columns|
  {
    var head, body, tail := UpdateParts(table, columns, id);
    AssignmentsMarks(columns);
    JS.OccurrencesAppend(head, body, '?');
    JS.OccurrencesAppend(head + body, tail, '?');
  }

  /** The UPDATE text cut around its assignments; only the assignments hold placeholders. */
  lemma UpdateParts(table: string, columns: seq<string>, id: int) returns (head: string, body: string, tail: string)
    requires columns != [] && '?' !in table
    ensures UpdateSql(table, columns, id) == head + body + tail
    ensures body == JS.Join(Assignments(columns), ", ")
    ensures JS.Occurrences(head, '?') == 0 && JS.Occurrences(tail, '?') == 0
  {
    head := "UPDATE " + table + " SET ";
    body := JS.Join(Assignments(columns), ", ");
    tail := " WHERE id=" + JS.IntToString(id);
    UpdateSqlShape(table, columns, id);
    IdTextFree(id);
    assert '?' !in "UPDATE " && '?' !in " SET " && '?' !in " WHERE id=";
    assert '?' !in head && '?' !in tail;
  }

  /** The assignments hold one placeholder per column. */
  lemma AssignmentsMarks(columns: seq<string>)
    requires forall i :: 0 <= i < |columns| ==> '?' !in columns[i]
    ensures JS.Occurrences(JS.Join(Assignments(columns), ", "), '?') == |columns|
  {
    JS.OccurrencesJoin(Assignments(columns), ", ", '?');
    AssignmentsCount(columns);
  }

  /** The id written into an UPDATE or DELETE text holds no placeholder. */
  lemma IdTextFree(id: int)
    ensures '?' !in JS.IntToString(id)
  {
    var digits := JS.IntToString(id);
    assert forall i :: 0 <= i < |digits| ==> digits[i] != '?';
  }

  lemma {:induction false} AssignmentsCount(columns: seq<string>)
    requires forall i :: 0 <= i < |columns| ==> '?' !in columns[i]
    ensures JS.SumOccurrences(Assignments(columns), '?') == |columns|
  {
    if columns != [] {
      AssignmentsCount(columns[1..]);
      assert Assignments(columns)[1..] == Assignments(columns[1..]);
      JS.OccurrencesAppend(columns[0], "=?", '?');
    }
  }

  /** `delete`'s statement text: `DELETE FROM t WHERE id=<id>`, with no placeholder. */
  function DeleteSql(table: string, id: int): (r: string)
    ensures '?' !in table ==> '?' !in r
  {
    IdTextFree(id);
    "DELETE FROM " + table + " WHERE id=" + JS.IntToString(id)
  }

  /** The sensor manager's two join conditions. */
  const FluidCondition: string := Table(SensorKind) + ".fluid_id = " + Table(FluidKind) + ".id"
  const BuildingCondition: string := Table(SensorKind) + ".building_id = " + Table(BuildingKind) + ".id"

  /** The join conditions hold no placeholder, and the two joined tables differ. */
  lemma JoinsFree()
    ensures '?' !in FluidCondition && '?' !in BuildingCondition
    ensures Table(FluidKind) != Table(BuildingKind) && '?' !in Table(FluidKind) && '?' !in Table(BuildingKind)
  {
    assert FluidCondition == "sensor.fluid_id = fluid.id";
    assert BuildingCondition == "sensor.building_id = building.id";
  }

  /** `baseQuery()`: FROM the table; the sensor manager adds the fluid, then the building, LEFT JOIN. */
  function BaseState(k: Kind): (st: Q.QueryState)
    ensures Q.WellFormed(st) && Q.NoMarks(st)
  {
    JoinsFree();
    if k == SensorKind then
      Q.QueryState([], [Table(k)], [Table(FluidKind), Table(BuildingKind)],
                   map[Table(FluidKind) := [FluidCondition], Table(BuildingKind) := [BuildingCondition]],
                   [], [], map[], [])
    else Q.QueryState([], [Table(k)], [], map[], [], [], map[], [])
  }

  /** `baseQuery()`, built with the query builder. */
  method BaseQuery(k: Kind) returns (q: Q.Query)
    ensures fresh(q) && q.Valid() && q.State() == BaseState(k)
  {
    q := new Q.Query();
    q.From([Table(k)]);
    if k == SensorKind {
      q.Join(Table(FluidKind), FluidCondition);
      q.Join(Table(BuildingKind), BuildingCondition);
    }
  }

  /** The condition `findBy` adds: `<table>.<column> = ?`. */
  function Condition(k: Kind, column: string): string
  {
    Table(k) + "." + column + " = ?"
  }

  /** `findBy(column, value)` and `findAllBy`: the base query, one condition, one parameter. */
  function FindByState(k: Kind, column: string, p: Q.Param): (st: Q.QueryState)
    ensures Q.WellFormed(st) && Q.NoMarks(st) && st.tables != []
  {
    BaseState(k).(conditions := [Condition(k, column)], parameters := [p])
  }

  method FindByQuery(k: Kind, column: string, p: Q.Param) returns (q: Q.Query)
    ensures fresh(q) && q.Valid() && q.State() == FindByState(k, column, p)
  {
    q := BaseQuery(k);
    q.Where([Condition(k, column)]);
    q.Params([p]);
  }

  /** A find-by query has exactly one placeholder, so its one parameter is bound at position 1. */
  lemma FindByPlaceholders(k: Kind, column: string, p: Q.Param)
    requires '?' !in column
    ensures Q.Render(FindByState(k, column, p)).Ok?
    ensures JS.Occurrences(Q.Render(FindByState(k, column, p)).value, '?') == 1
  {
    var st := FindByState(k, column, p);
    Q.RenderPlaceholders(st);
    var c := Condition(k, column);
    assert " = ?" == " = " + "?";
    OneMark(Table(k) + "." + column, " = ");
    assert JS.SumOccurrences(st.conditions, '?') == JS.Occurrences(c, '?') + JS.SumOccurrences([], '?');
  }

  /** A timestamp parameter, or null. */
  function TimestampParam(t: Option<Store.Timestamp>): (p: Q.Param)
    ensures p.PNull? <==> t.None?
  {
    match t
    case None => Q.PNull
    case Some(x) => Q.PTimestamp(x)
  }

  /**
   * `findAllBySensorBetween(sensorId, t1, t2)`: two conditions with their two
   * parameters, then a third condition with its parameter.
   */
  function BetweenState(sensorId: int, t1: Option<Store.Timestamp>, t2: Option<Store.Timestamp>): (st: Q.QueryState)
    ensures Q.WellFormed(st) && Q.NoMarks(st) && st.tables != []
  {
    BaseState(ValueKind).(
      conditions := [Table(ValueKind) + ".date_time >= ?", Table(ValueKind) + ".date_time <= ?",
                     Table(ValueKind) + ".sensor_id = ?"],
      parameters := [TimestampParam(t1), TimestampParam(t2), Q.PInt(sensorId)])
  }

  method BetweenQuery(sensorId: int, t1: Option<Store.Timestamp>, t2: Option<Store.Timestamp>) returns (q: Q.Query)
    ensures fresh(q) && q.Valid() && q.State() == BetweenState(sensorId, t1, t2)
  {
    q := BaseQuery(ValueKind);
    q.Where([Table(ValueKind) + ".date_time >= ?", Table(ValueKind) + ".date_time <= ?"]);
    q.Params([TimestampParam(t1), TimestampParam(t2)]);
    q.Where([Table(ValueKind) + ".sensor_id = ?"]);
    q.Params([Q.PInt(sensorId)]);
  }

  /** The between query has three placeholders, one per parameter. */
  lemma BetweenPlaceholders(sensorId: int, t1: Option<Store.Timestamp>, t2: Option<Store.Timestamp>)
    ensures Q.Render(BetweenState(sensorId, t1, t2)).Ok?
    ensures JS.Occurrences(Q.Render(BetweenState(sensorId, t1, t2)).value, '?') == 3
  {
    var st := BetweenState(sensorId, t1, t2);
    Q.RenderPlaceholders(st);
    var c := st.conditions;
    BetweenConditionMarks(c);
    SumOfThree(c[0], c[1], c[2]);
    assert c == [c[0], c[1], c[2]];
  }

  /** Each condition of the between query holds one placeholder. */
  lemma BetweenConditionMarks(c: seq<string>)
    requires c == BetweenState(0, None, None).conditions
    ensures |c| == 3 && JS.Occurrences(c[0], '?') == 1 && JS.Occurrences(c[1], '?') == 1 && JS.Occurrences(c[2], '?') == 1
  {
    assert ".date_time >= ?" == ".date_time >= " + "?";
    assert ".date_time <= ?" == ".date_time <= " + "?";
    assert ".sensor_id = ?" == ".sensor_id = " + "?";
    OneMark(Table(ValueKind), ".date_time >= ");
    OneMark(Table(ValueKind), ".date_time <= ");
    OneMark(Table(ValueKind), ".sensor_id = ");
  }

  /** Placeholders of three strings add up. */
  lemma SumOfThree(a: string, b: string, c: string)
    ensures JS.SumOccurrences([a, b, c], '?') == JS.Occurrences(a, '?') + JS.Occurrences(b, '?') + JS.Occurrences(c, '?')
  {
    assert [a, b, c] == [a] + ([b] + [c]);
    JS.SumOccurrencesAppend([a], [b] + [c], '?');
    JS.SumOccurrencesAppend([b], [c], '?');
    assert forall x :: JS.SumOccurrences([x], '?') == JS.Occurrences(x, '?') + JS.SumOccurrences([], '?');
  }

  /** A condition ending in its one placeholder. */
  lemma OneMark(table: string, text: string)
    requires '?' !in table && '?' !in text
    ensures JS.Occurrences(table + (text + "?"), '?') == 1
  {
    JS.OccurrencesAppend(text, "?", '?');
    JS.OccurrencesAppend(table, text + "?", '?');
  }

  /** The LEFT JOINs of the sensor query, as the store answers them. */
  const FluidJoin: Store.JoinOn := Store.JoinOn(Table(FluidKind), "fluid_id", Columns(FluidKind))
  const BuildingJoin: Store.JoinOn := Store.JoinOn(Table(BuildingKind), "building_id", Columns(BuildingKind))

  /** What the store answers for the base query. */
  function BaseSelection(k: Kind): Store.Selection
  {
    Store.Selection(Table(k), if k == SensorKind then [FluidJoin, BuildingJoin] else [], [])
  }

  /** What the store answers for a find-by query: the column equal to the parameter at position 1. */
  function FindBySelection(k: Kind, column: string): Store.Selection
  {
    BaseSelection(k).(filters := [Store.Filter(column, Store.Eq, 1)])
  }

  /** What the store answers for the between query. */
  const BetweenSelection: Store.Selection :=
    BaseSelection(ValueKind).(filters := [Store.Filter("date_time", Store.Ge, 1),
                                          Store.Filter("date_time", Store.Le, 2),
                                          Store.Filter("sensor_id", Store.Eq, 3)])

  /**
   * The between query keeps exactly the readings of that sensor whose
   * instant lies in [t1, t2], both ends included.
   */
  lemma BetweenMatches(r: Store.Row, sensorId: int, t1: Store.Timestamp, t2: Store.Timestamp)
    ensures Store.FiltersBound(BetweenSelection.filters, BetweenBindings(sensorId, t1, t2))
    ensures Store.Matches(r, BetweenSelection.filters, BetweenBindings(sensorId, t1, t2))
        <==> && Store.Column(r, "date_time").SqlTimestamp?
             && t1 <= Store.Column(r, "date_time").t <= t2
             && Store.Column(r, "sensor_id") == Store.SqlInt(sensorId)
  {
    var fs := BetweenSelection.filters;
    var b := BetweenBindings(sensorId, t1, t2);
    var dt, sid := Store.Column(r, "date_time"), Store.Column(r, "sensor_id");
    var each := Store.Compare(dt, Store.Ge, b[1]) && Store.Compare(dt, Store.Le, b[2]) && Store.Compare(sid, Store.Eq, b[3]);
    assert fs[0] == Store.Filter("date_time", Store.Ge, 1);
    assert fs[1] == Store.Filter("date_time", Store.Le, 2);
    assert fs[2] == Store.Filter("sensor_id", Store.Eq, 3);
    if Store.Matches(r, fs, b) {
      assert Store.Compare(Store.Column(r, fs[0].column), fs[0].cmp, b[fs[0].param]);
      assert Store.Compare(Store.Column(r, fs[1].column), fs[1].cmp, b[fs[1].param]);
      assert Store.Compare(Store.Column(r, fs[2].column), fs[2].cmp, b[fs[2].param]);
    }
    if each {
      forall i | 0 <= i < |fs|
        ensures Store.Compare(Store.Column(r, fs[i].column), fs[i].cmp, b[fs[i].param])
      {
      }
    }
  }

  /** The bindings of the between query when both instants are given. */
  function BetweenBindings(sensorId: int, t1: Store.Timestamp, t2: Store.Timestamp): Store.Bindings
  {
    map[1 := Store.SqlTimestamp(t1), 2 := Store.SqlTimestamp(t2), 3 := Store.SqlInt(sensorId)]
  }

  /** Both instants given, the between query binds them and the sensor id at positions 1, 2 and 3. */
  lemma BetweenBound(sensorId: int, t1: Store.Timestamp, t2: Store.Timestamp)
    ensures Q.BindAll(BetweenState(sensorId, Some(t1), Some(t2)).parameters, 3) == Ok(BetweenBindings(sensorId, t1, t2))
  {
    var ps := BetweenState(sensorId, Some(t1), Some(t2)).parameters;
    assert ps[..2][..1] == ps[..1] && ps[..3][..2] == ps[..2] && ps[..3] == ps && ps[..1][..0] == [];
    assert Q.BindAll(ps[..1], 3) == Ok(map[1 := Store.SqlTimestamp(t1)]);
    assert Q.BindAll(ps[..2], 3) == Ok(map[1 := Store.SqlTimestamp(t1), 2 := Store.SqlTimestamp(t2)]);
  }

  /**
   * Every row a find-by answers holds the bound value in the searched
   * column of the manager's table: the joins add only other tables' columns.
   */
  lemma FoundRowsMatch(tables: map<string, seq<Store.Row>>, k: Kind, column: string, v: Store.SqlValue)
    requires Store.Select(tables, FindBySelection(k, column), map[1 := v]).Some?
    ensures forall i :: 0 <= i < |Store.Select(tables, FindBySelection(k, column), map[1 := v]).value| ==>
      && Table(k) in Store.Select(tables, FindBySelection(k, column), map[1 := v]).value[i]
      && column in Store.Select(tables, FindBySelection(k, column), map[1 := v]).value[i][Table(k)]
      && Store.Select(tables, FindBySelection(k, column), map[1 := v]).value[i][Table(k)][column] == v
  {
    var sel := FindBySelection(k, column);
    var b: Store.Bindings := map[1 := v];
    var base := Store.Where(tables[sel.table], sel.filters, b);
    var rows := Store.Select(tables, sel, b).value;
    forall i | 0 <= i < |rows|
      ensures Table(k) in rows[i] && column in rows[i][Table(k)] && rows[i][Table(k)][column] == v
    {
      var r := base[i];
      assert Store.Matches(r, sel.filters, b);
      assert sel.filters[0] == Store.Filter(column, Store.Eq, 1);
      assert Store.Compare(Store.Column(r, sel.filters[0].column), sel.filters[0].cmp, b[sel.filters[0].param]);
      assert Store.Compare(Store.Column(r, column), Store.Eq, v);
      WithJoinsKeepsBase(tables, Table(k), r, sel.joins, column);
    }
  }

  /**
   * Every row the between query answers is a reading of that sensor whose
   * instant lies in [t1, t2].
   */
  lemma BetweenRowsMatch(tables: map<string, seq<Store.Row>>, sensorId: int, t1: Store.Timestamp, t2: Store.Timestamp)
    requires Store.Select(tables, BetweenSelection, BetweenBindings(sensorId, t1, t2)).Some?
    ensures forall i :: 0 <= i < |Store.Select(tables, BetweenSelection, BetweenBindings(sensorId, t1, t2)).value| ==>
      BetweenRow(Store.Select(tables, BetweenSelection, BetweenBindings(sensorId, t1, t2)).value[i], sensorId, t1, t2)
  {
    var b := BetweenBindings(sensorId, t1, t2);
    var base := Store.Where(tables[BetweenSelection.table], BetweenSelection.filters, b);
    var rows := Store.Select(tables, BetweenSelection, b).value;
    forall i | 0 <= i < |rows|
      ensures BetweenRow(rows[i], sensorId, t1, t2)
    {
      BetweenMatches(base[i], sensorId, t1, t2);
      assert rows[i] == Store.Qualify(Table(ValueKind), base[i]);
    }
  }

  /** A result row of the `value` table holding a reading of the sensor taken in [t1, t2]. */
  ghost predicate BetweenRow(row: Store.ResultRow, sensorId: int, t1: Store.Timestamp, t2: Store.Timestamp)
  {
    var t := Table(ValueKind);
    && t in row && "sensor_id" in row[t] && "date_time" in row[t]
    && row[t]["sensor_id"] == Store.SqlInt(sensorId)
    && row[t]["date_time"].SqlTimestamp? && t1 <= row[t]["date_time"].t <= t2
  }

  /** Joins that bring in other tables leave the base table's columns as they are. */
  lemma {:induction false} WithJoinsKeepsBase(tables: map<string, seq<Store.Row>>, t: string, r: Store.Row,
                                              joins: seq<Store.JoinOn>, column: string)
    requires forall i :: 0 <= i < |joins| ==> joins[i].table != t
    requires Store.Column(r, column) != Store.SqlNull
    ensures t in Store.WithJoins(tables, t, r, joins) && column in Store.WithJoins(tables, t, r, joins)[t]
    ensures Store.WithJoins(tables, t, r, joins)[t][column] == Store.Column(r, column)
  {
    if joins != [] {
      var last := joins[|joins| - 1];
      WithJoinsKeepsBase(tables, t, r, joins[..|joins| - 1], column);
      var added := Store.Joined(tables, r, last);
      assert added.Keys == {last.table};
    }
  }
  /** The columns the application searches by hold no placeholder. */
  lemma SearchColumns()
    ensures '?' !in "id" && '?' !in "name" && '?' !in "type" && '?' !in "sensor_id"
  {
  }

  /** The result row carries the key of stored row `x` of table `t`. */
  ghost predicate Carries(row: Store.ResultRow, t: string, x: Store.Row)
  {
    t in row && "id" in row[t] && row[t]["id"] == Store.SqlInt(x.id)
  }

  /**
   * A selection of manager `k`'s table, with its joins, is answered with
   * one row for each stored row that meets the conditions, in stored
   * order, each carrying that row's key; so a stored row that meets them
   * is always found, and the answer is empty exactly when none does.
   */
  lemma SelectFindsAll(tables: map<string, seq<Store.Row>>, k: Kind, filters: seq<Store.Filter>, b: Store.Bindings)
    requires Table(k) in tables && Store.FiltersBound(filters, b)
    ensures Store.Select(tables, BaseSelection(k).(filters := filters), b).Some?
    ensures forall i :: 0 <= i < |Store.Select(tables, BaseSelection(k).(filters := filters), b).value| ==>
      Carries(Store.Select(tables, BaseSelection(k).(filters := filters), b).value[i], Table(k),
              Store.Where(tables[Table(k)], filters, b)[i])
    ensures forall x :: x in tables[Table(k)] && Store.Matches(x, filters, b) ==>
      exists i :: 0 <= i < |Store.Select(tables, BaseSelection(k).(filters := filters), b).value| &&
        Carries(Store.Select(tables, BaseSelection(k).(filters := filters), b).value[i], Table(k), x)
    ensures Store.Select(tables, BaseSelection(k).(filters := filters), b).value == [] <==>
      forall x :: x in tables[Table(k)] ==> !Store.Matches(x, filters, b)
  {
    var sel := BaseSelection(k).(filters := filters);
    var base := Store.Where(tables[Table(k)], filters, b);
    var rows := Store.Select(tables, sel, b).value;
    forall i | 0 <= i < |rows|
      ensures Carries(rows[i], Table(k), base[i])
    {
      WithJoinsKeepsBase(tables, Table(k), base[i], sel.joins, "id");
    }
    forall x | x in tables[Table(k)] && Store.Matches(x, filters, b)
      ensures exists i :: 0 <= i < |rows| && Carries(rows[i], Table(k), x)
    {
      var i :| 0 <= i < |base| && base[i] == x;
      assert Carries(rows[i], Table(k), x);
    }
    if rows != [] {
      assert base[0] in tables[Table(k)] && Store.Matches(base[0], filters, b);
    }
  }

  /** The condition of a find-by holds exactly when the column holds the value. */
  lemma FindByMatches(r: Store.Row, k: Kind, column: string, v: Store.SqlValue)
    ensures Store.FiltersBound(FindBySelection(k, column).filters, map[1 := v])
    ensures Store.Matches(r, FindBySelection(k, column).filters, map[1 := v]) <==> Store.Compare(Store.Column(r, column), Store.Eq, v)
  {
    var fs := FindBySelection(k, column).filters;
    assert fs[0] == Store.Filter(column, Store.Eq, 1);
  }

  /**
   * When manager `k`'s table exists, a find-by is answered with a row for
   * every stored row whose column holds the value, and with none exactly
   * when no stored row does.
   */
  lemma FindByFindsAll(tables: map<string, seq<Store.Row>>, k: Kind, column: string, v: Store.SqlValue)
    requires Table(k) in tables
    ensures Store.Select(tables, FindBySelection(k, column), map[1 := v]).Some?
    ensures forall x :: x in tables[Table(k)] && Store.Compare(Store.Column(x, column), Store.Eq, v) ==>
      exists i :: 0 <= i < |Store.Select(tables, FindBySelection(k, column), map[1 := v]).value| &&
        Carries(Store.Select(tables, FindBySelection(k, column), map[1 := v]).value[i], Table(k), x)
    ensures Store.Select(tables, FindBySelection(k, column), map[1 := v]).value == [] <==>
      forall x :: x in tables[Table(k)] ==> !Store.Compare(Store.Column(x, column), Store.Eq, v)
  {
    var fs := FindBySelection(k, column).filters;
    var b: Store.Bindings := map[1 := v];
    FindByMatches(Store.Row(0, map[]), k, column, v);
    assert FindBySelection(k, column) == BaseSelection(k).(filters := fs);
    SelectFindsAll(tables, k, fs, b);
    forall x | x in tables[Table(k)]
      ensures Store.Matches(x, fs, b) <==> Store.Compare(Store.Column(x, column), Store.Eq, v)
    {
      FindByMatches(x, k, column, v);
    }
  }

  /**
   * When the `value` table exists, the between query is answered with a
   * row for every stored reading of the sensor whose instant lies in
   * [t1, t2], and with none exactly when there is no such reading.
   */
  lemma BetweenFindsAll(tables: map<string, seq<Store.Row>>, sensorId: int, t1: Store.Timestamp, t2: Store.Timestamp)
    requires Table(ValueKind) in tables
    ensures Store.Select(tables, BetweenSelection, BetweenBindings(sensorId, t1, t2)).Some?
    ensures forall x :: x in tables[Table(ValueKind)] && StoredBetween(x, sensorId, t1, t2) ==>
      exists i :: 0 <= i < |Store.Select(tables, BetweenSelection, BetweenBindings(sensorId, t1, t2)).value| &&
        Carries(Store.Select(tables, BetweenSelection, BetweenBindings(sensorId, t1, t2)).value[i], Table(ValueKind), x)
    ensures Store.Select(tables, BetweenSelection, BetweenBindings(sensorId, t1, t2)).value == [] <==>
      forall x :: x in tables[Table(ValueKind)] ==> !StoredBetween(x, sensorId, t1, t2)
  {
    var b := BetweenBindings(sensorId, t1, t2);
    BetweenMatches(Store.Row(0, map[]), sensorId, t1, t2);
    assert BetweenSelection == BaseSelection(ValueKind).(filters := BetweenSelection.filters);
    SelectFindsAll(tables, ValueKind, BetweenSelection.filters, b);
    forall x | x in tables[Table(ValueKind)]
      ensures Store.Matches(x, BetweenSelection.filters, b) <==> StoredBetween(x, sensorId, t1, t2)
    {
      BetweenMatches(x, sensorId, t1, t2);
    }
  }

  /** A stored reading of the sensor whose instant lies in [t1, t2]. */
  ghost predicate StoredBetween(x: Store.Row, sensorId: int, t1: Store.Timestamp, t2: Store.Timestamp)
  {
    && Store.Column(x, "date_time").SqlTimestamp? && t1 <= Store.Column(x, "date_time").t <= t2
    && Store.Column(x, "sensor_id") == Store.SqlInt(sensorId)
  }

  /**
   * When manager `k`'s table exists, the base query is answered with one
   * row per stored row, in stored order, each carrying that row's key.
   */
  lemma BaseFindsAll(tables: map<string, seq<Store.Row>>, k: Kind)
    requires Table(k) in tables
    ensures Store.Select(tables, BaseSelection(k), map[]).Some?
    ensures |Store.Select(tables, BaseSelection(k), map[]).value| == |tables[Table(k)]|
    ensures forall i :: 0 <= i < |tables[Table(k)]| ==>
      Carries(Store.Select(tables, BaseSelection(k), map[]).value[i], Table(k), tables[Table(k)][i])
  {
    Store.WhereAll(tables[Table(k)], map[]);
    assert BaseSelection(k) == BaseSelection(k).(filters := []);
    SelectFindsAll(tables, k, [], map[]);
  }
}
