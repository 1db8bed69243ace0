/**
 * The relational database behind the shared JDBC connection, as an
 * in-memory store: per table an ordered list of rows keyed by a generated
 * id, one counter that hands out fresh keys, and the log of SQL texts the
 * application sent.  An SQLException is a nondeterministic failure of a
 * statement: the store is then left as it was.
 */
module Store {
  import opened Wrappers

  /** `java.sql.Timestamp`, as an opaque ordered instant. */
  type Timestamp = int

  /** A value a statement parameter or a column can hold. */
  datatype SqlValue =
    | SqlNull
    | SqlBool(b: bool)
    | SqlDouble(d: real)
    | SqlFloat(f: real)
    | SqlInt(i: int)
    | SqlString(s: string)
    | SqlTimestamp(t: Timestamp)

  /** The parameters bound on a prepared statement: position (from 1) to value. */
  type Bindings = map<nat, SqlValue>

  /** A stored row: its generated key and its other columns. */
  datatype Row = Row(id: int, cols: map<string, SqlValue>)

  /** A row of a result set: for each table of the query, its columns (`rs.getX("sensor.name")` reads row["sensor"]["name"]). */
  type ResultRow = map<string, map<string, SqlValue>>

  /** The comparison of a WHERE condition `<table>.<column> <cmp> ?`. */
  datatype Cmp = Eq | Ge | Le

  /** A WHERE condition on a column of the base table, against the parameter at `param`. */
  datatype Filter = Filter(column: string, cmp: Cmp, param: nat)

  /** `LEFT JOIN table ON <base>.fkColumn = table.id`; `columns` are the joined table's columns besides id. */
  datatype JoinOn = JoinOn(table: string, fkColumn: string, columns: seq<string>)

  /** What a SELECT of the application asks for: a base table, left joins, conditions. */
  datatype Selection = Selection(table: string, joins: seq<JoinOn>, filters: seq<Filter>)

  /** The value of a column of a stored row; a column the row lacks reads as NULL. */
  function Column(r: Row, c: string): SqlValue
  {
    if c == "id" then SqlInt(r.id) else if c in r.cols then r.cols[c] else SqlNull
  }

  /** SQL comparison: NULL matches nothing, values of different kinds never match. */
  predicate Compare(a: SqlValue, cmp: Cmp, b: SqlValue)
  {
    match cmp
    case Eq => a != SqlNull && a == b
    case Ge => Ordered(b, a)
    case Le => Ordered(a, b)
  }

  /** a <= b for two non-NULL values of the same ordered kind. */
  predicate Ordered(a: SqlValue, b: SqlValue)
  {
    || (a.SqlInt? && b.SqlInt? && a.i <= b.i)
    || (a.SqlDouble? && b.SqlDouble? && a.d <= b.d)
    || (a.SqlTimestamp? && b.SqlTimestamp? && a.t <= b.t)
  }

  /** Every position from 1 to n has a bound value. */
  predicate AllBound(b: Bindings, n: nat)
  {
    forall k :: 1 <= k <= n ==> k in b
  }

  predicate FiltersBound(filters: seq<Filter>, b: Bindings)
  {
    forall i :: 0 <= i < |filters| ==> filters[i].param in b
  }

  predicate Matches(r: Row, filters: seq<Filter>, b: Bindings)
    requires FiltersBound(filters, b)
  {
    forall i :: 0 <= i < |filters| ==> Compare(Column(r, filters[i].column), filters[i].cmp, b[filters[i].param])
  }

  /** The columns of a stored row, qualified by the table name. */
  function Qualify(t: string, r: Row): ResultRow
  {
    map[t := r.cols["id" := SqlInt(r.id)]]
  }

  /** The NULL columns a LEFT JOIN produces when no row matches. */
  function NullColumns(j: JoinOn): ResultRow
  {
    map[j.table := (map c | c in j.columns :: SqlNull)["id" := SqlNull]]
  }

  /** The first row whose key is `id`, if any. */
  function RowWithId(rows: seq<Row>, id: int): Option<Row>
  {
    if rows == [] then None
    else if rows[0].id == id then Some(rows[0])
    else RowWithId(rows[1..], id)
  }

  /** The columns one LEFT JOIN adds to the result row of base row `r`. */
  function Joined(tables: map<string, seq<Row>>, r: Row, j: JoinOn): ResultRow
  {
    var fk := Column(r, j.fkColumn);
    if fk.SqlInt? && j.table in tables && RowWithId(tables[j.table], fk.i).Some? then
      Qualify(j.table, RowWithId(tables[j.table], fk.i).value)
    else NullColumns(j)
  }

  /** The result row of base row `r` with the joins applied in order. */
  function WithJoins(tables: map<string, seq<Row>>, t: string, r: Row, joins: seq<JoinOn>): ResultRow
  {
    if joins == [] then Qualify(t, r)
    else WithJoins(tables, t, r, joins[..|joins| - 1]) + Joined(tables, r, joins[|joins| - 1])
  }

  /** The base rows that satisfy every condition, in stored order. */
  function Where(rows: seq<Row>, filters: seq<Filter>, b: Bindings): (r: seq<Row>)
    requires FiltersBound(filters, b)
    ensures |r| <= |rows|
    ensures forall i :: 0 <= i < |r| ==> r[i] in rows && Matches(r[i], filters, b)
    ensures forall x :: x in rows && Matches(x, filters, b) ==> x in r
  {
    if rows == [] then []
    else if Matches(rows[0], filters, b) then [rows[0]] + Where(rows[1..], filters, b)
    else Where(rows[1..], filters, b)
  }

  /** Without conditions every row is kept, in stored order. */
  lemma {:induction false} WhereAll(rows: seq<Row>, b: Bindings)
    ensures Where(rows, [], b) == rows
  {
    if rows != [] {
      WhereAll(rows[1..], b);
      assert [rows[0]] + rows[1..] == rows;
    }
  }

  /**
   * The answer of the database to a SELECT: None when it raises an
   * SQLException (unknown table, a parameter left unbound).
   */
  function Select(tables: map<string, seq<Row>>, sel: Selection, b: Bindings): (r: Option<seq<ResultRow>>)
    ensures r.Some? <==> sel.table in tables && FiltersBound(sel.filters, b)
  {
    if sel.table !in tables || !FiltersBound(sel.filters, b) then None
    else
      var rows := Where(tables[sel.table], sel.filters, b);
      Some(seq(|rows|, i requires 0 <= i < |rows| => WithJoins(tables, sel.table, rows[i], sel.joins)))
  }

  /** No column is named twice. */
  predicate Distinct(columns: seq<string>)
  {
    forall i, j :: 0 <= i < j < |columns| ==> columns[i] != columns[j]
  }

  /** The columns an INSERT or UPDATE writes: columns[i] takes the parameter at i + 1. */
  function Assign(columns: seq<string>, b: Bindings): (m: map<string, SqlValue>)
    requires AllBound(b, |columns|) && Distinct(columns)
    ensures m.Keys == set c | c in columns
    ensures forall i :: 0 <= i < |columns| ==> m[columns[i]] == b[i + 1]
  {
    map i | 0 <= i < |columns| :: columns[i] := b[i + 1]
  }

  /** The rows with the row keyed `id` given the updated columns. */
  function UpdateRows(rows: seq<Row>, id: int, updates: map<string, SqlValue>): (r: seq<Row>)
    ensures |r| == |rows|
    ensures forall i :: 0 <= i < |rows| ==> r[i].id == rows[i].id
    ensures forall i :: 0 <= i < |rows| ==> r[i] == if rows[i].id == id then Row(id, rows[i].cols + updates) else rows[i]
  {
    seq(|rows|, i requires 0 <= i < |rows| => if rows[i].id == id then Row(id, rows[i].cols + updates) else rows[i])
  }

  /** Every row keyed `id` holds the updated values in the updated columns. */
  ghost predicate RowsHold(rows: seq<Row>, id: int, updates: map<string, SqlValue>)
  {
    forall j, c :: 0 <= j < |rows| && rows[j].id == id && c in updates ==>
      c in rows[j].cols && rows[j].cols[c] == updates[c]
  }

  /** After an UPDATE, the row keyed `id` holds the new values, whatever it held before. */
  lemma UpdateRowsHold(rows: seq<Row>, id: int, updates: map<string, SqlValue>)
    ensures RowsHold(UpdateRows(rows, id, updates), id, updates)
  {
  }

  /** The rows without the row keyed `id`, the others in their order. */
  function RemoveRow(rows: seq<Row>, id: int): (r: seq<Row>)
    ensures |r| <= |rows|
  {
    if rows == [] then []
    else if rows[0].id == id then RemoveRow(rows[1..], id)
    else [rows[0]] + RemoveRow(rows[1..], id)
  }

  /** Keys strictly increase along the table and lie in [1, next). */
  ghost predicate KeysBelow(rows: seq<Row>, next: int)
  {
    && (forall i :: 0 <= i < |rows| ==> 1 <= rows[i].id < next)
    && (forall i, j :: 0 <= i < j < |rows| ==> rows[i].id < rows[j].id)
  }

  class Connection {
    /** The tables by name. */
    var tables: map<string, seq<Row>>
    /** The next generated key; every stored key is smaller. */
    var nextKey: int
    /** The SQL texts sent to the database, in order. */
    var executed: seq<string>

    ghost predicate Valid()
      reads this
    {
      && nextKey >= 1
      && forall t :: t in tables ==> KeysBelow(tables[t], nextKey)
    }

    /** An empty database with the given (empty) tables. */
    constructor (names: set<string>)
      ensures Valid()
      ensures tables == map t | t in names :: []
      ensures nextKey == 1 && executed == []
    {
      tables := map t | t in names :: [];
      nextKey := 1;
      executed := [];
    }

    /**
     * `prepareStatement` or `createStatement`: false when it raises an
     * SQLException. Nothing is sent to the database yet.
     */
    method Prepare(sql: string) returns (ok: bool)
    {
      ok := *;
    }

    /**
     * Prepare and run a SELECT: `rows` is None when an SQLException is
     * raised, otherwise the answer of the store.
     */
    method ExecuteQuery(sql: string, sel: Selection, b: Bindings) returns (rows: Option<seq<ResultRow>>)
      modifies this`executed
      ensures executed == old(executed) + [sql]
      ensures rows.Some? ==> Select(tables, sel, b) == rows
    {
      executed := executed + [sql];
      var failed: bool := *;
      var answer := Select(tables, sel, b);
      if failed || answer.None? {
        rows := None;
      } else {
        rows := answer;
      }
    }

    /**
     * Run `INSERT INTO table(columns) VALUES(?, ...)`: on success the new
     * row takes the next generated key, which is returned.
     */
    method ExecuteInsert(sql: string, table: string, columns: seq<string>, b: Bindings) returns (key: Option<int>)
      requires Valid()
      modifies this
      ensures Valid()
      ensures executed == old(executed) + [sql]
      ensures key.Some? ==> table in old(tables) && AllBound(b, |columns|) && Distinct(columns)
      ensures key.Some? ==>
        && key.value == old(nextKey)
        && nextKey == old(nextKey) + 1
        && tables == old(tables)[table := old(tables)[table] + [Row(key.value, Assign(columns, b))]]
      ensures key.None? ==> tables == old(tables) && nextKey == old(nextKey)
    {
      executed := executed + [sql];
      var failed: bool := *;
      if failed || table !in tables || !AllBound(b, |columns|) || !Distinct(columns) {
        key := None;
      } else {
        var row := Row(nextKey, Assign(columns, b));
        tables := tables[table := tables[table] + [row]];
        key := Some(nextKey);
        nextKey := nextKey + 1;
      }
    }

    /** Run `UPDATE table SET c1=?, ... WHERE id=<id>`; no row with that key changes nothing. */
    method ExecuteUpdate(sql: string, table: string, id: int, columns: seq<string>, b: Bindings) returns (ok: bool)
      requires Valid()
      modifies this`tables, this`executed
      ensures Valid()
      ensures executed == old(executed) + [sql]
      ensures ok ==> table in old(tables) && AllBound(b, |columns|) && Distinct(columns)
      ensures ok ==> tables == old(tables)[table := UpdateRows(old(tables)[table], id, Assign(columns, b))]
      ensures !ok ==> tables == old(tables)
    {
      executed := executed + [sql];
      var failed: bool := *;
      if failed || table !in tables || !AllBound(b, |columns|) || !Distinct(columns) {
        ok := false;
      } else {
        tables := tables[table := UpdateRows(tables[table], id, Assign(columns, b))];
        ok := true;
      }
    }

    /** Run `DELETE FROM table WHERE id=<id>`. */
    method ExecuteDelete(sql: string, table: string, id: int) returns (ok: bool)
      requires Valid()
      modifies this`tables, this`executed
      ensures Valid()
      ensures executed == old(executed) + [sql]
      ensures ok ==> table in old(tables) && tables == old(tables)[table := RemoveRow(old(tables)[table], id)]
      ensures !ok ==> tables == old(tables)
    {
      executed := executed + [sql];
      var failed: bool := *;
      if failed || table !in tables {
        ok := false;
      } else {
        RemoveKeepsKeys(tables[table], id, nextKey);
        tables := tables[table := RemoveRow(tables[table], id)];
        ok := true;
      }
    }
  }

  /** Deleting keeps exactly the rows with another key. */
  lemma {:induction false} RemoveRowContents(rows: seq<Row>, id: int)
    ensures forall x :: x in RemoveRow(rows, id) <==> x in rows && x.id != id
  {
    if rows != [] {
      RemoveRowContents(rows[1..], id);
      assert rows == [rows[0]] + rows[1..];
    }
  }

  lemma {:induction false} RemoveKeepsKeys(rows: seq<Row>, id: int, next: int)
    requires KeysBelow(rows, next)
    ensures KeysBelow(RemoveRow(rows, id), next)
  {
    if rows != [] {
      var tail := rows[1..];
      RemoveKeepsKeys(tail, id, next);
      RemoveRowContents(tail, id);
      var rest := RemoveRow(tail, id);
      if rows[0].id != id {
        forall x | x in rest ensures rows[0].id < x.id {
          var j :| 0 <= j < |tail| && tail[j] == x;
          assert rows[j + 1] == x;
        }
        KeysCons(rows[0], rest, next);
      }
    }
  }

  lemma KeysCons(r: Row, rest: seq<Row>, next: int)
    requires KeysBelow(rest, next) && 1 <= r.id < next
    requires forall x :: x in rest ==> r.id < x.id
    ensures KeysBelow([r] + rest, next)
  {
    var s := [r] + rest;
    forall i, j | 0 <= i < j < |s| ensures s[i].id < s[j].id {
      if i == 0 {
        assert s[j] == rest[j - 1];
      } else {
        assert s[i] == rest[i - 1] && s[j] == rest[j - 1];
      }
    }
  }
}
