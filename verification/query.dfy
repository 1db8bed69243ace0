/**
 * The query builder: chained calls gather the SELECT fields, FROM tables,
 * LEFT JOIN conditions grouped by table, WHERE conditions, ORDER BY
 * directions and positional parameters; `ToString` renders the SQL text and
 * `Execute` binds the parameters on the prepared statement and runs it.
 */
module Queries {
  import opened Wrappers
  import JS = JavaStrings
  import Store

  datatype Order = ASC | DESC

  /** The name of an order constant, which is also its `toString`. */
  function OrderName(o: Order): string
  {
    match o
    case ASC => "ASC"
    case DESC => "DESC"
  }

  /** A parameter object, by its runtime class. */
  datatype Param =
    | PBool(b: bool)
    | PDouble(d: real)
    | PFloat(f: real)
    | PInt(i: int)
    | PString(s: string)
    | PTimestamp(t: Store.Timestamp)
    | PEnum(name: string)  // any enum constant, by its name()
    | PNull                // a null reference: no instanceof test holds
    | POther               // an object of any other class

  /**
   * What `execute` does with one parameter: the value its setter binds, or
   * the unsupported-parameter error.
   */
  function Bind(p: Param): (r: Result<Store.SqlValue>)
    ensures r.Throw? <==> p.PNull? || p.POther?
    ensures r.Throw? ==> r.exception == UnsupportedParameter
    ensures r.Ok? ==> r.value != Store.SqlNull
  {
    match p
    case PBool(b) => Ok(Store.SqlBool(b))
    case PDouble(d) => Ok(Store.SqlDouble(d))
    case PFloat(f) => Ok(Store.SqlFloat(f))
    case PInt(i) => Ok(Store.SqlInt(i))
    case PString(s) => Ok(Store.SqlString(s))
    case PTimestamp(t) => Ok(Store.SqlTimestamp(t))
    case PEnum(name) => Ok(Store.SqlString(name))
    case PNull => Throw(UnsupportedParameter)
    case POther => Throw(UnsupportedParameter)
  }

  /**
   * The bindings left on a statement with `n` placeholders after binding
   * `ps` at positions 1, 2, ...: a position past `n` is rejected by the
   * statement with an SQLException that is caught and skipped.
   */
  function BindAll(ps: seq<Param>, n: nat): Result<Store.Bindings>
  {
    if ps == [] then Ok(map[])
    else
      match BindAll(ps[..|ps| - 1], n)
      case Throw(e) => Throw(e)
      case Ok(b) =>
        match Bind(ps[|ps| - 1])
        case Throw(e) => Throw(e)
        case Ok(v) => Ok(if |ps| <= n then b[|ps| := v] else b)
  }

  /**
   * Binding fails exactly when some parameter is of an unsupported kind;
   * otherwise the k-th parameter is bound at position k, for every k the
   * statement has, and at no other position.
   */
  lemma {:induction false} BindAllPositions(ps: seq<Param>, n: nat)
    ensures BindAll(ps, n).Throw? <==> exists i :: 0 <= i < |ps| && Bind(ps[i]).Throw?
    ensures BindAll(ps, n).Throw? ==> BindAll(ps, n).exception == UnsupportedParameter
    ensures BindAll(ps, n).Ok? ==>
      && (forall k :: k in BindAll(ps, n).value <==> 1 <= k <= |ps| && k <= n)
      && (forall k :: 1 <= k <= |ps| && k <= n ==> BindAll(ps, n).value[k] == Bind(ps[k - 1]).value)
  {
    if ps != [] {
      var init := ps[..|ps| - 1];
      BindAllPositions(init, n);
      assert forall i :: 0 <= i < |init| ==> init[i] == ps[i];
    }
  }

  /** The state of a query: its clauses and parameters. */
  datatype QueryState = QueryState(
    fields: seq<string>,
    tables: seq<string>,
    joinTables: seq<string>,
    joinConditions: map<string, seq<string>>,
    conditions: seq<string>,
    orderColumns: seq<string>,
    orderDirections: map<string, Order>,
    parameters: seq<Param>)

  predicate Distinct(xs: seq<string>)
  {
    forall i, j :: 0 <= i < j < |xs| ==> xs[i] != xs[j]
  }

  /**
   * The two insertion-ordered maps: their key order is kept as a sequence of
   * distinct keys, which are exactly the keys of the map.
   */
  ghost predicate WellFormed(st: QueryState)
  {
    && Distinct(st.joinTables)
    && (forall t :: t in st.joinTables <==> t in st.joinConditions)
    && Distinct(st.orderColumns)
    && (forall c :: c in st.orderColumns <==> c in st.orderDirections)
  }

  /** The projection: `*` when no field was selected. */
  function Projection(fields: seq<string>): string
  {
    if fields == [] then "*" else JS.Join(fields, ", ")
  }

  function JoinClause(table: string, conditions: seq<string>): string
  {
    "LEFT JOIN " + table + " ON " + JS.Join(conditions, " AND ")
  }

  /** One LEFT JOIN per table, in the order the tables were first joined. */
  function JoinClauses(tables: seq<string>, conditions: map<string, seq<string>>): seq<string>
    requires forall t :: t in tables ==> t in conditions
  {
    seq(|tables|, i requires 0 <= i < |tables| => JoinClause(tables[i], conditions[tables[i]]))
  }

  function WhereClause(conditions: seq<string>): seq<string>
  {
    if conditions == [] then [] else ["WHERE", "(" + JS.Join(conditions, ") AND (") + ")"]
  }

  function OrderItems(columns: seq<string>, directions: map<string, Order>): seq<string>
    requires forall c :: c in columns ==> c in directions
  {
    seq(|columns|, i requires 0 <= i < |columns| => columns[i] + " " + OrderName(directions[columns[i]]))
  }

  function OrderClause(columns: seq<string>, directions: map<string, Order>): seq<string>
    requires forall c :: c in columns ==> c in directions
  {
    if columns == [] then [] else ["ORDER BY", JS.Join(OrderItems(columns, directions), ", ")]
  }

  /** The clauses after FROM. */
  function Tail(st: QueryState): seq<string>
    requires WellFormed(st)
  {
    JoinClauses(st.joinTables, st.joinConditions) + WhereClause(st.conditions)
      + OrderClause(st.orderColumns, st.orderDirections)
  }

  /** The SQL text of a query, or IllegalStateException when it has no FROM table. */
  function Render(st: QueryState): (r: Result<string>)
    requires WellFormed(st)
    ensures r.Throw? <==> st.tables == []
    ensures r.Throw? ==> r.exception == IllegalState
  {
    if st.tables == [] then Throw(IllegalState)
    else Ok(JS.Join(["SELECT", Projection(st.fields), "FROM", JS.Join(st.tables, ", ")] + Tail(st), " "))
  }

  /**
   * The shape of the rendered text: SELECT, the projection, FROM, the
   * tables, then every later clause (joins, WHERE, ORDER BY, in that order)
   * after a single space.
   */
  lemma RenderShape(st: QueryState)
    requires WellFormed(st) && st.tables != []
    ensures Render(st) == Ok("SELECT " + Projection(st.fields) + " FROM " + JS.Join(st.tables, ", ")
                             + JS.Prefixed(Tail(st), " "))
  {
    var head := ["SELECT", Projection(st.fields), "FROM", JS.Join(st.tables, ", ")];
    JS.JoinAppend(head, Tail(st), " ");
    HeadText(Projection(st.fields), JS.Join(st.tables, ", "));
  }

  /** The first four words, joined by spaces. */
  lemma HeadText(projection: string, tables: string)
    ensures JS.Join(["SELECT", projection, "FROM", tables], " ") == "SELECT " + projection + " FROM " + tables
  {
    var head := ["SELECT", projection, "FROM", tables];
    assert head[1..][1..][1..] == [tables];
    assert JS.Join(head[1..][1..], " ") == "FROM" + " " + tables;
    assert JS.Join(head[1..], " ") == projection + " " + ("FROM" + " " + tables);
    assert JS.Join(head, " ") == "SELECT" + " " + (projection + " " + ("FROM" + " " + tables));
    assert "SELECT" + " " == "SELECT ";
    assert " " + "FROM" + " " == " FROM ";
  }

  /** A query with only SELECT and FROM renders as just those two clauses. */
  lemma RenderSelectFrom(st: QueryState)
    requires WellFormed(st) && st.tables != []
    requires st.joinTables == [] && st.conditions == [] && st.orderColumns == []
    ensures Render(st) == Ok("SELECT " + Projection(st.fields) + " FROM " + JS.Join(st.tables, ", "))
  {
    RenderShape(st);
    assert Tail(st) == [];
    var text := "SELECT " + Projection(st.fields) + " FROM " + JS.Join(st.tables, ", ");
    assert text + JS.Prefixed([], " ") == text;
  }

  /** Each WHERE condition, whatever call added it, is parenthesised and the lot joined by AND. */
  lemma WhereSplitCalls(a: seq<string>, b: seq<string>)
    requires a != [] && b != []
    ensures WhereClause(a + b) == ["WHERE", "(" + JS.Join(a, ") AND (") + JS.Prefixed(b, ") AND (") + ")"]
  {
    JS.JoinAppend(a, b, ") AND (");
    var ja, pb := JS.Join(a, ") AND ("), JS.Prefixed(b, ") AND (");
    assert "(" + (ja + pb) + ")" == "(" + ja + pb + ")";
    assert WhereClause(a + b) == ["WHERE", "(" + JS.Join(a + b, ") AND (") + ")"];
  }

  /** No field, table, join or ordering of the query contains a `?` placeholder. */
  ghost predicate NoMarks(st: QueryState)
  {
    && (forall i :: 0 <= i < |st.fields| ==> '?' !in st.fields[i])
    && (forall i :: 0 <= i < |st.tables| ==> '?' !in st.tables[i])
    && (forall i :: 0 <= i < |st.joinTables| ==> '?' !in st.joinTables[i])
    && (forall t, i :: t in st.joinConditions && 0 <= i < |st.joinConditions[t]| ==> '?' !in st.joinConditions[t][i])
    && (forall i :: 0 <= i < |st.orderColumns| ==> '?' !in st.orderColumns[i])
  }

  /**
   * When only the WHERE conditions carry placeholders, the rendered text
   * has exactly as many as the conditions together: the count a statement
   * prepared from it expects to be bound.
   */
  lemma RenderPlaceholders(st: QueryState)
    requires WellFormed(st) && st.tables != [] && NoMarks(st)
    ensures JS.Occurrences(Render(st).value, '?') == JS.SumOccurrences(st.conditions, '?')
  {
    var head := ["SELECT", Projection(st.fields), "FROM", JS.Join(st.tables, ", ")];
    var joins := JoinClauses(st.joinTables, st.joinConditions);
    var where := WhereClause(st.conditions);
    var order := OrderClause(st.orderColumns, st.orderDirections);
    assert Render(st).value == JS.Join(head + (joins + where + order), " ");
    JS.OccurrencesJoin(head + (joins + where + order), " ", '?');
    JS.SumOccurrencesAppend(head, joins + where + order, '?');
    JS.SumOccurrencesAppend(joins + where, order, '?');
    JS.SumOccurrencesAppend(joins, where, '?');
    HeadNoMarks(st);
    JoinClausesNoMarks(st);
    OrderClauseNoMarks(st);
    WhereClauseMarks(st.conditions);
  }

  lemma HeadNoMarks(st: QueryState)
    requires NoMarks(st)
    ensures JS.SumOccurrences(["SELECT", Projection(st.fields), "FROM", JS.Join(st.tables, ", ")], '?') == 0
  {
    JS.JoinFree(st.fields, ", ", '?');
    JS.JoinFree(st.tables, ", ", '?');
    JS.SumOccurrencesNone(["SELECT", Projection(st.fields), "FROM", JS.Join(st.tables, ", ")], '?');
  }

  lemma JoinClausesNoMarks(st: QueryState)
    requires WellFormed(st) && NoMarks(st)
    ensures JS.SumOccurrences(JoinClauses(st.joinTables, st.joinConditions), '?') == 0
  {
    var joins := JoinClauses(st.joinTables, st.joinConditions);
    forall i | 0 <= i < |joins|
      ensures '?' !in joins[i]
    {
      var t := st.joinTables[i];
      JS.JoinFree(st.joinConditions[t], " AND ", '?');
    }
    JS.SumOccurrencesNone(joins, '?');
  }

  lemma OrderClauseNoMarks(st: QueryState)
    requires WellFormed(st) && NoMarks(st)
    ensures JS.SumOccurrences(OrderClause(st.orderColumns, st.orderDirections), '?') == 0
  {
    if st.orderColumns != [] {
      var items := OrderItems(st.orderColumns, st.orderDirections);
      forall i | 0 <= i < |items|
        ensures '?' !in items[i]
      {
        assert '?' !in OrderName(st.orderDirections[st.orderColumns[i]]);
      }
      JS.JoinFree(items, ", ", '?');
      JS.SumOccurrencesNone(OrderClause(st.orderColumns, st.orderDirections), '?');
    }
  }

  lemma WhereClauseMarks(conditions: seq<string>)
    ensures JS.SumOccurrences(WhereClause(conditions), '?') == JS.SumOccurrences(conditions, '?')
  {
    if conditions != [] {
      var body := JS.Join(conditions, ") AND (");
      JS.OccurrencesJoin(conditions, ") AND (", '?');
      JS.OccurrencesAppend("(", body, '?');
      JS.OccurrencesAppend("(" + body, ")", '?');
      assert JS.SumOccurrences(WhereClause(conditions), '?')
          == JS.Occurrences("WHERE", '?') + JS.SumOccurrences(["(" + body + ")"], '?');
    }
  }

  class Query {
    var fields: seq<string>
    var tables: seq<string>
    var joinTables: seq<string>
    var joinConditions: map<string, seq<string>>
    var conditions: seq<string>
    var orderColumns: seq<string>
    var orderDirections: map<string, Order>
    var parameters: seq<Param>

    function State(): QueryState
      reads this
    {
      QueryState(fields, tables, joinTables, joinConditions, conditions, orderColumns, orderDirections, parameters)
    }

    ghost predicate Valid()
      reads this
    {
      WellFormed(State())
    }

    /** An empty query. */
    constructor ()
      ensures Valid()
      ensures State() == QueryState([], [], [], map[], [], [], map[], [])
    {
      fields, tables, joinTables, joinConditions := [], [], [], map[];
      conditions, orderColumns, orderDirections, parameters := [], [], map[], [];
    }

    /** `select(fields...)`: appends the fields to the projection. */
    method Select(fs: seq<string>)
      requires Valid()
      modifies this`fields
      ensures Valid()
      ensures fields == old(fields) + fs
    {
      fields := fields + fs;
    }

    /** `from(tables...)`: appends the tables to FROM. */
    method From(ts: seq<string>)
      requires Valid()
      modifies this`tables
      ensures Valid()
      ensures tables == old(tables) + ts
    {
      tables := tables + ts;
    }

    /**
     * `join(table, condition)`: adds the condition to the table's LEFT JOIN,
     * opening one at the end when the table has none yet.
     */
    method Join(table: string, condition: string)
      requires Valid()
      modifies this`joinTables, this`joinConditions
      ensures Valid()
      ensures old(table in joinConditions) ==>
        && joinTables == old(joinTables)
        && joinConditions == old(joinConditions)[table := old(joinConditions[table]) + [condition]]
      ensures old(table !in joinConditions) ==>
        && joinTables == old(joinTables) + [table]
        && joinConditions == old(joinConditions)[table := [condition]]
    {
      if table in joinConditions {
        joinConditions := joinConditions[table := joinConditions[table] + [condition]];
      } else {
        joinConditions := joinConditions[table := [condition]];
        joinTables := joinTables + [table];
      }
    }

    /** `where(conditions...)`: appends the conditions to WHERE. */
    method Where(cs: seq<string>)
      requires Valid()
      modifies this`conditions
      ensures Valid()
      ensures conditions == old(conditions) + cs
    {
      conditions := conditions + cs;
    }

    /**
     * `orderBy(column, order)`: a new column goes last; a column already
     * present takes the new direction and keeps its place.
     */
    method OrderBy(column: string, order: Order)
      requires Valid()
      modifies this`orderColumns, this`orderDirections
      ensures Valid()
      ensures orderDirections == old(orderDirections)[column := order]
      ensures orderColumns == if old(column in orderDirections) then old(orderColumns) else old(orderColumns) + [column]
    {
      if column !in orderDirections {
        orderColumns := orderColumns + [column];
      }
      orderDirections := orderDirections[column := order];
    }

    /** `params(parameters...)`: appends the parameters. */
    method Params(ps: seq<Param>)
      requires Valid()
      modifies this`parameters
      ensures Valid()
      ensures parameters == old(parameters) + ps
    {
      parameters := parameters + ps;
    }

    /** `toString`: the SQL text, built clause by clause; the query is left as it was. */
    method ToString() returns (r: Result<string>)
      requires Valid()
      ensures r == Render(State())
    {
      var parts := ConstructSelect([]);
      var withFrom := ConstructFrom(parts);
      if withFrom.Throw? {
        return Throw(withFrom.exception);
      }
      var head := withFrom.value;
      ghost var st := State();
      ghost var j, w, o := JoinClauses(st.joinTables, st.joinConditions), WhereClause(st.conditions), OrderClause(st.orderColumns, st.orderDirections);
      assert head == ["SELECT", Projection(st.fields), "FROM", JS.Join(st.tables, ", ")];
      assert Tail(st) == j + w + o;
      assert Render(st) == Ok(JS.Join(head + (j + w + o), " "));
      parts := ConstructJoin(head);
      parts := ConstructWhere(parts);
      parts := ConstructOrderBy(parts);
      assert parts == head + (j + w + o);
      r := Ok(JS.Join(parts, " "));
    }

    method ConstructSelect(parts: seq<string>) returns (out: seq<string>)
      ensures out == parts + ["SELECT", Projection(fields)]
    {
      out := parts + ["SELECT"];
      if fields == [] {
        out := out + ["*"];
      } else {
        out := out + [JS.Join(fields, ", ")];
      }
    }

    method ConstructFrom(parts: seq<string>) returns (out: Result<seq<string>>)
      ensures out.Throw? <==> tables == []
      ensures out.Throw? ==> out.exception == IllegalState
      ensures out.Ok? ==> out.value == parts + ["FROM", JS.Join(tables, ", ")]
    {
      var withKeyword := parts + ["FROM"];
      if tables == [] {
        return Throw(IllegalState);
      }
      out := Ok(withKeyword + [JS.Join(tables, ", ")]);
    }

    method ConstructJoin(parts: seq<string>) returns (out: seq<string>)
      requires Valid()
      ensures out == parts + JoinClauses(joinTables, joinConditions)
    {
      out := parts;
      var i := 0;
      while i < |joinTables|
        invariant 0 <= i <= |joinTables|
        invariant out == parts + JoinClauses(joinTables[..i], joinConditions)
      {
        var table := joinTables[i];
        out := out + ["LEFT JOIN " + table + " ON " + JS.Join(joinConditions[table], " AND ")];
        assert JoinClauses(joinTables[..i + 1], joinConditions)
          == JoinClauses(joinTables[..i], joinConditions) + [JoinClause(table, joinConditions[table])];
        i := i + 1;
      }
      assert joinTables[..i] == joinTables;
    }

    method ConstructWhere(parts: seq<string>) returns (out: seq<string>)
      ensures out == parts + WhereClause(conditions)
    {
      out := parts;
      if conditions != [] {
        out := out + ["WHERE", "(" + JS.Join(conditions, ") AND (") + ")"];
      }
    }

    /** The ORDER BY items are written one after the other, a comma between two. */
    method ConstructOrderBy(parts: seq<string>) returns (out: seq<string>)
      requires Valid()
      ensures out == parts + OrderClause(orderColumns, orderDirections)
    {
      out := parts;
      if orderColumns != [] {
        out := out + ["ORDER BY"];
        var items := OrderItems(orderColumns, orderDirections);
        var builder := "";
        var i := 0;
        while i < |orderColumns|
          invariant 0 <= i <= |orderColumns|
          invariant i == 0 ==> builder == ""
          invariant 0 < i < |orderColumns| ==> builder == JS.Join(items[..i], ", ") + ", "
          invariant i == |orderColumns| ==> builder == JS.Join(items, ", ")
        {
          var column := orderColumns[i];
          builder := builder + (column + " " + OrderName(orderDirections[column]));
          assert items[i] == column + " " + OrderName(orderDirections[column]);
          if i > 0 {
            JS.JoinSnoc(items[..i], items[i], ", ");
          }
          assert items[..i + 1] == items[..i] + [items[i]];
          if i + 1 < |orderColumns| {
            builder := builder + ", ";
          } else {
            assert items[..i + 1] == items;
          }
          i := i + 1;
        }
        out := out + [builder];
      }
    }

    /**
     * `execute(pst)` on a statement prepared from `sql`: the parameters are
     * bound at positions 1, 2, ... by kind; a position the statement does
     * not have is rejected and skipped; an unsupported kind throws before
     * anything runs. The statement then runs; `None` is an SQLException.
     */
    method Execute(conn: Store.Connection, sql: string, sel: Store.Selection)
      returns (r: Result<Option<seq<Store.ResultRow>>>)
      modifies conn`executed
      ensures r.Throw? <==> BindAll(parameters, JS.Occurrences(sql, '?')).Throw?
      ensures r.Throw? ==> r.exception == UnsupportedParameter && conn.executed == old(conn.executed)
      ensures r.Ok? ==> conn.executed == old(conn.executed) + [sql]
      ensures r.Ok? && r.value.Some? ==>
        r.value == Store.Select(conn.tables, sel, BindAll(parameters, JS.Occurrences(sql, '?')).value)
    {
      var n := JS.Occurrences(sql, '?');
      var bindings: Store.Bindings := map[];
      var k := 1;
      while k <= |parameters|
        invariant 1 <= k <= |parameters| + 1
        invariant BindAll(parameters[..k - 1], n) == Ok(bindings)
      {
        var value: Store.SqlValue;
        match parameters[k - 1] {
          case PBool(b) => value := Store.SqlBool(b);
          case PDouble(d) => value := Store.SqlDouble(d);
          case PFloat(f) => value := Store.SqlFloat(f);
          case PInt(i) => value := Store.SqlInt(i);
          case PString(s) => value := Store.SqlString(s);
          case PTimestamp(t) => value := Store.SqlTimestamp(t);
          case PEnum(name) => value := Store.SqlString(name);
          case PNull =>
            BindAllThrowsOn(parameters, k, n);
            return Throw(UnsupportedParameter);
          case POther =>
            BindAllThrowsOn(parameters, k, n);
            return Throw(UnsupportedParameter);
        }
        if k <= n {
          bindings := bindings[k := value];
        }
        assert parameters[..k][..k - 1] == parameters[..k - 1];
        k := k + 1;
      }
      assert parameters[..k - 1] == parameters;
      var rows := conn.ExecuteQuery(sql, sel, bindings);
      r := Ok(rows);
    }
  }

  /** An unsupported parameter at position k makes the whole binding fail. */
  lemma BindAllThrowsOn(ps: seq<Param>, k: nat, n: nat)
    requires 1 <= k <= |ps| && Bind(ps[k - 1]).Throw?
    ensures BindAll(ps, n).Throw?
  {
    BindAllPositions(ps, n);
  }

  /** A query with one field, one table, one condition and one ordering, rendered. */
  lemma ExampleRender()
    ensures Render(QueryState(["a"], ["t"], [], map[], ["x=?"], ["a"], map["a" := ASC], [PInt(1)]))
         == Ok("SELECT a FROM t WHERE (x=?) ORDER BY a ASC")
  {
    var st := QueryState(["a"], ["t"], [], map[], ["x=?"], ["a"], map["a" := ASC], [PInt(1)]);
    ExampleTail(st);
    ExampleHead(st);
    RenderShape(st);
    ExampleConcat();
  }

  lemma ExampleHead(st: QueryState)
    requires st.fields == ["a"] && st.tables == ["t"]
    ensures Projection(st.fields) == "a" && JS.Join(st.tables, ", ") == "t"
  {
  }

  lemma ExampleConcat()
    ensures "SELECT " + "a" + " FROM " + "t" + " WHERE (x=?) ORDER BY a ASC"
         == "SELECT a FROM t WHERE (x=?) ORDER BY a ASC"
  {
  }

  lemma ExampleTail(st: QueryState)
    requires st == QueryState(["a"], ["t"], [], map[], ["x=?"], ["a"], map["a" := ASC], [PInt(1)])
    ensures WellFormed(st)
    ensures JS.Prefixed(Tail(st), " ") == " WHERE (x=?) ORDER BY a ASC"
  {
    ExampleClauses(st);
    ExamplePrefixed();
  }

  lemma ExampleClauses(st: QueryState)
    requires st == QueryState(["a"], ["t"], [], map[], ["x=?"], ["a"], map["a" := ASC], [PInt(1)])
    ensures WellFormed(st)
    ensures Tail(st) == ["WHERE", "(x=?)", "ORDER BY", "a ASC"]
  {
    assert "a" + " " + "ASC" == "a ASC";
    assert OrderItems(st.orderColumns, st.orderDirections)[0] == "a ASC";
    assert OrderItems(st.orderColumns, st.orderDirections) == ["a ASC"];
    assert "(" + "x=?" + ")" == "(x=?)";
    assert WhereClause(st.conditions) == ["WHERE", "(x=?)"];
    assert JoinClauses(st.joinTables, st.joinConditions) == [];
  }

  lemma ExamplePrefixed()
    ensures JS.Prefixed(["WHERE", "(x=?)", "ORDER BY", "a ASC"], " ") == " WHERE (x=?) ORDER BY a ASC"
  {
    var tail := ["WHERE", "(x=?)", "ORDER BY", "a ASC"];
    assert tail[1..] == ["(x=?)", "ORDER BY", "a ASC"];
    assert tail[1..][1..] == ["ORDER BY", "a ASC"];
    assert tail[1..][1..][1..] == ["a ASC"];
    assert JS.Prefixed(tail[1..][1..][1..], " ") == " " + "a ASC" + "";
    ExampleLiterals();
  }

  /** The pieces of the example's tail, glued back together. */
  lemma ExampleLiterals()
    ensures " " + "WHERE" + (" " + "(x=?)" + (" " + "ORDER BY" + (" " + "a ASC" + "")))
         == " WHERE (x=?) ORDER BY a ASC"
  {
    var order := " " + "ORDER BY" + (" " + "a ASC" + "");
    assert order == " ORDER BY a ASC";
    var condition := " " + "(x=?)" + order;
    assert condition == " (x=?) ORDER BY a ASC";
  }
}
