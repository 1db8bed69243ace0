/**
 * The managers at work on one database connection: `Manager`'s fetch,
 * find, insert, update and delete, the `hydrate` of each manager building
 * fresh entity objects from result rows, the `dehydrate` of each manager
 * binding an entity's fields (and saving the fluid, building, readings or
 * sensor it refers to first), and the lazy loaders of the two proxies.
 *
 * The database also keeps, as ghost state, the entity objects the
 * application holds, so that a save that cascades from entity to entity
 * can say which objects it may touch.
 */
module Persistence {
  import opened Wrappers
  import Store
  import Q = Queries
  import E = Entities
  import M = Managers
  import R = Rows
  import JS = JavaStrings

  /** A `T` of the generic manager: null, or an entity of one of the four kinds. */
  datatype Entity =
    | Null
    | ABuilding(building: E.Building)
    | AFluid(fluid: E.Fluid)
    | ASensor(sensor: E.Sensor)
    | AValue(value: E.Value)

  /** The object behind an entity reference. */
  function Objects(e: Entity): set<object>
  {
    match e
    case Null => {}
    case ABuilding(b) => {b}
    case AFluid(f) => {f}
    case ASensor(s) => {s}
    case AValue(v) => {v}
  }

  /** The entities a sensor or reading refers to: its fluid and building, or its sensor. */
  function Refs(e: Entity): set<object>
    reads Objects(e)
  {
    match e
    case ASensor(s) =>
      var f: set<object> := if s.fluid == null then {} else {s.fluid};
      var b: set<object> := if s.building == null then {} else {s.building};
      f + b
    case AValue(v) => if v.sensor == null then {} else {v.sensor}
    case _ => {}
  }

  /** A `T` of manager `k`: null, or an entity of that kind. */
  predicate OfKind(e: Entity, k: M.Kind)
  {
    match e
    case Null => true
    case ABuilding(_) => k == M.BuildingKind
    case AFluid(_) => k == M.FluidKind
    case ASensor(_) => k == M.SensorKind
    case AValue(_) => k == M.ValueKind
  }

  /** `getId()`; null has no id and reads as 0 here. */
  function Id(e: Entity): int
    reads Objects(e)
  {
    match e
    case Null => 0
    case ABuilding(b) => b.id
    case AFluid(f) => f.id
    case ASensor(s) => s.id
    case AValue(v) => v.id
  }

  /** The reading behind a `T` of the value manager, or null. */
  function AsValue(e: Entity): E.Value?
  {
    if e.AValue? then e.value else null
  }

  /** The sensor behind a `T` of the sensor manager, or null. */
  function AsSensor(e: Entity): E.Sensor?
  {
    if e.ASensor? then e.sensor else null
  }

  /**
   * A sensor built by `SensorManager.hydrate` from the data: a proxy with
   * the stored columns, a fresh fluid and building of their own, and its
   * readings not yet loaded.
   */
  ghost predicate SensorHolds(s: E.Sensor, x: R.SensorData)
    reads s, s.fluid, s.building
  {
    && s.isProxy && s.id == x.id && s.name == x.name && s.floor == x.floor && s.place == x.place
    && s.minThreshold == x.minThreshold && s.maxThreshold == x.maxThreshold
    && s.fluid != null && s.fluid.id == x.fluid.id && s.fluid.fluidType == x.fluid.fluidType
    && (match x.building
        case None => s.building == null
        case Some(b) => s.building != null && s.building.id == b.id && s.building.name == b.name)
    && s.values.None? && s.lastValue == null
  }

  /** The entity `hydrate` builds from what it read: null for None, else the entity with those fields. */
  ghost predicate Holds(e: Entity, d: Option<R.Data>)
    reads Objects(e), Refs(e)
  {
    match d
    case None => e.Null?
    case Some(BuildingD(x)) => e.ABuilding? && e.building.id == x.id && e.building.name == x.name
    case Some(FluidD(x)) => e.AFluid? && e.fluid.id == x.id && e.fluid.fluidType == x.fluidType
    case Some(SensorD(x)) => e.ASensor? && SensorHolds(e.sensor, x)
    case Some(ValueD(x)) =>
      && e.AValue? && e.value.isProxy && e.value.sensorId == x.sensorId
      && e.value.id == x.id && e.value.value == x.value && e.value.dateTime == x.dateTime
      && e.value.sensor == null
  }

  /** A hydrated entity has the id it was read with. */
  lemma HoldsId(e: Entity, d: R.Data)
    requires Holds(e, Some(d))
    ensures Id(e) == R.DataId(d)
  {
  }

  /**
   * The parameters `dehydrate` bound for the entity, as they read after
   * the save: the entity's own fields, and the id of the entity it refers
   * to (NULL for none). A sensor's fluid or building that could not be
   * stored was bound with its id 0, and a later step of the same save may
   * have stored it since.
   */
  ghost predicate BoundFor(e: Entity, b: Store.Bindings)
    reads Objects(e), Refs(e)
  {
    match e
    case Null => true
    case ABuilding(x) => BuildingBound(x, b)
    case AFluid(x) => FluidBound(x, b)
    case AValue(x) => ValueBound(x, b)
    case ASensor(x) => SensorBound(x, b)
  }

  /** `BuildingManager.dehydrate`: the name. */
  ghost predicate BuildingBound(x: E.Building, b: Store.Bindings)
    reads x`name
  {
    b == R.BuildingBindings(x.name)
  }

  /** `FluidManager.dehydrate`: the type. */
  ghost predicate FluidBound(x: E.Fluid, b: Store.Bindings)
    reads x`fluidType
  {
    b == R.FluidBindings(x.fluidType)
  }

  /** `ValueManager.dehydrate`: the reading, its instant, and its sensor's id or NULL. */
  ghost predicate ValueBound(x: E.Value, b: Store.Bindings)
    reads x`value, x`dateTime, x`sensor, (if x.sensor == null then {} else {x.sensor})`id
  {
    b == R.ValueBindings(x.value, x.dateTime, if x.sensor == null then Store.SqlNull else Store.SqlInt(x.sensor.id))
  }

  /** `SensorManager.dehydrate`: the sensor's columns, its fluid's and building's ids (or 0, or NULL). */
  ghost predicate SensorBound(x: E.Sensor, b: Store.Bindings)
    reads x`name, x`floor, x`place, x`minThreshold, x`maxThreshold, x`fluid, x`building
    reads (if x.fluid == null then {} else {x.fluid})`id, (if x.building == null then {} else {x.building})`id
  {
    && 4 in b && 5 in b
    && b == R.SensorBindings(x.name, x.floor, x.place, b[4], b[5], x.minThreshold, x.maxThreshold)
    && (if x.fluid == null then b[4] == Store.SqlNull else b[4] in {Store.SqlInt(x.fluid.id), Store.SqlInt(0)})
    && (if x.building == null then b[5] == Store.SqlNull else b[5] in {Store.SqlInt(x.building.id), Store.SqlInt(0)})
  }

  /** The entity was hydrated from the row by manager `k`; `made` holds the objects it reaches. */
  ghost predicate Loaded(e: Entity, row: Store.ResultRow, k: M.Kind, made: set<object>)
    reads made
  {
    && Objects(e) <= made && Refs(e) <= made && OfKind(e, k)
    && R.ReadEntity(k, row).Ok? && Holds(e, R.ReadEntity(k, row).value)
  }

  /** The entities hydrated from the first rows, in order. */
  ghost predicate AllLoaded(list: seq<Entity>, rows: seq<Store.ResultRow>, k: M.Kind, made: set<object>)
    reads made
  {
    |list| <= |rows| && forall j :: 0 <= j < |list| ==> Loaded(list[j], rows[j], k, made)
  }

  /** Loading more objects keeps what was loaded. */
  lemma LoadedMore(e: Entity, row: Store.ResultRow, k: M.Kind, made: set<object>, more: set<object>)
    requires Loaded(e, row, k, made) && made <= more
    ensures Loaded(e, row, k, more)
  {
  }

  /** One more entity, hydrated from the next row. */
  lemma AllLoadedExtend(list: seq<Entity>, rows: seq<Store.ResultRow>, k: M.Kind, made: set<object>, e: Entity, more: set<object>)
    requires AllLoaded(list, rows, k, made) && |list| < |rows| && made <= more && Loaded(e, rows[|list|], k, more)
    ensures AllLoaded(list + [e], rows, k, more)
  {
    forall j | 0 <= j < |list| + 1
      ensures Loaded((list + [e])[j], rows[j], k, more)
    {
      if j < |list| {
        assert (list + [e])[j] == list[j];
        LoadedMore(list[j], rows[j], k, made, more);
      }
    }
  }

  /** The rows the database answers a query with, as `sel` describes the query; None for an SQLException. */
  ghost function Answer(tables: map<string, seq<Store.Row>>, st: Q.QueryState, sel: Store.Selection): Option<seq<Store.ResultRow>>
    requires Q.WellFormed(st)
  {
    var text := Q.Render(st);
    if text.Throw? then None
    else
      var b := Q.BindAll(st.parameters, JS.Occurrences(text.value, '?'));
      if b.Throw? then None else Store.Select(tables, sel, b.value)
  }

  /**
   * Running the query throws `e` before any row is read: IllegalState when
   * it has no table, UnsupportedParameter when a parameter cannot be bound.
   */
  ghost predicate Refused(st: Q.QueryState, e: JavaException)
    requires Q.WellFormed(st)
  {
    match Q.Render(st)
    case Throw(x) => e == x
    case Ok(text) => Q.BindAll(st.parameters, JS.Occurrences(text, '?')).Throw? && e == UnsupportedParameter
  }

  /** A reading hydrated from a row of the between query: of that sensor, taken in [t1, t2]. */
  lemma LoadedBetween(e: Entity, row: Store.ResultRow, made: set<object>, sensorId: int, t1: Store.Timestamp, t2: Store.Timestamp)
    requires Loaded(e, row, M.ValueKind, made) && M.BetweenRow(row, sensorId, t1, t2)
    ensures AsValue(e) != null ==> InRange(AsValue(e), sensorId, t1, t2)
  {
  }

  /** The reading is one of the sensor's, taken in [t1, t2]. */
  ghost predicate InRange(v: E.Value, sensorId: int, t1: Store.Timestamp, t2: Store.Timestamp)
    reads v
  {
    v.sensorId == sensorId && v.dateTime.Some? && t1 <= v.dateTime.value <= t2
  }

  /** The base query is never refused, and the database answers it with the whole table. */
  lemma BaseAnswer(tables: map<string, seq<Store.Row>>, k: M.Kind, e: JavaException)
    ensures !Refused(M.BaseState(k), e)
    ensures Answer(tables, M.BaseState(k), M.BaseSelection(k)) == Store.Select(tables, M.BaseSelection(k), map[])
  {
    Q.RenderPlaceholders(M.BaseState(k));
  }

  /**
   * A find-by query is refused exactly when its parameter cannot be bound;
   * otherwise every row it is answered with holds the bound value in the
   * searched column.
   */
  lemma FindByAnswer(tables: map<string, seq<Store.Row>>, k: M.Kind, column: string, p: Q.Param, e: JavaException)
    ensures Refused(M.FindByState(k, column, p), e) <==> Q.Bind(p).Throw? && e == UnsupportedParameter
    ensures Answer(tables, M.FindByState(k, column, p), M.FindBySelection(k, column)).Some? ==> Q.Bind(p).Ok?
    ensures Answer(tables, M.FindByState(k, column, p), M.FindBySelection(k, column)).Some? && '?' !in column ==>
      forall i :: 0 <= i < |Answer(tables, M.FindByState(k, column, p), M.FindBySelection(k, column)).value| ==>
        R.Cell(Answer(tables, M.FindByState(k, column, p), M.FindBySelection(k, column)).value[i], M.Table(k), column)
          == Some(Q.Bind(p).value)
  {
    var st := M.FindByState(k, column, p);
    var n := JS.Occurrences(Q.Render(st).value, '?');
    Q.BindAllPositions([p], n);
    if Answer(tables, st, M.FindBySelection(k, column)).Some? && '?' !in column {
      M.FindByPlaceholders(k, column, p);
      assert Q.BindAll([p], 1) == Ok(map[1 := Q.Bind(p).value]);
      M.FoundRowsMatch(tables, k, column, Q.Bind(p).value);
    }
  }

  /** The between query is refused exactly when an instant is null, which cannot be bound. */
  lemma BetweenRefused(sensorId: int, t1: Option<Store.Timestamp>, t2: Option<Store.Timestamp>, e: JavaException)
    ensures Refused(M.BetweenState(sensorId, t1, t2), e) <==> (t1.None? || t2.None?) && e == UnsupportedParameter
  {
    var params := [M.TimestampParam(t1), M.TimestampParam(t2), Q.PInt(sensorId)];
    assert M.BetweenState(sensorId, t1, t2).parameters == params;
    Q.BindAllPositions(params, 3);
    M.BetweenPlaceholders(sensorId, t1, t2);
    if t1.None? {
      assert Q.Bind(params[0]).Throw?;
    } else if t2.None? {
      assert Q.Bind(params[1]).Throw?;
    }
  }

  /** The between query is answered, if at all, with readings of the sensor taken in [t1, t2]. */
  lemma BetweenAnswered(tables: map<string, seq<Store.Row>>, sensorId: int, t1: Store.Timestamp, t2: Store.Timestamp)
    requires Answer(tables, M.BetweenState(sensorId, Some(t1), Some(t2)), M.BetweenSelection).Some?
    ensures forall i :: 0 <= i < |Answer(tables, M.BetweenState(sensorId, Some(t1), Some(t2)), M.BetweenSelection).value| ==>
      M.BetweenRow(Answer(tables, M.BetweenState(sensorId, Some(t1), Some(t2)), M.BetweenSelection).value[i], sensorId, t1, t2)
  {
    M.BetweenPlaceholders(sensorId, Some(t1), Some(t2));
    M.BetweenBound(sensorId, t1, t2);
    M.BetweenRowsMatch(tables, sensorId, t1, t2);
  }

  /** Readings hydrated from rows of the between query. */
  lemma ReadingsBetween(list: seq<Entity>, rows: seq<Store.ResultRow>, made: set<object>,
                        sensorId: int, t1: Option<Store.Timestamp>, t2: Option<Store.Timestamp>)
    requires AllLoaded(list, rows, M.ValueKind, made)
    requires t1.Some? && t2.Some? ==> forall i :: 0 <= i < |rows| ==> M.BetweenRow(rows[i], sensorId, t1.value, t2.value)
    ensures forall i :: 0 <= i < |list| ==> OfKind(list[i], M.ValueKind)
    ensures t1.Some? && t2.Some? ==> forall i :: 0 <= i < |list| ==>
      AsValue(list[i]) != null ==> InRange(AsValue(list[i]), sensorId, t1.value, t2.value)
  {
    forall i | 0 <= i < |list|
      ensures OfKind(list[i], M.ValueKind)
      ensures t1.Some? && t2.Some? && AsValue(list[i]) != null ==> InRange(AsValue(list[i]), sensorId, t1.value, t2.value)
    {
      assert Loaded(list[i], rows[i], M.ValueKind, made);
      if t1.Some? && t2.Some? {
        LoadedBetween(list[i], rows[i], made, sensorId, t1.value, t2.value);
      }
    }
  }

  /**
   * What `fetch` returns once its statement ran and was answered with
   * `rows`: null when there is no row, otherwise the entity hydrated from
   * the first row, or the exception hydrating it threw.
   */
  ghost predicate FirstHydrated(r: Result<Entity>, k: M.Kind, rows: seq<Store.ResultRow>)
    reads if r.Ok? then Objects(r.value) + Refs(r.value) else {}
  {
    if rows == [] then r == Ok(Null) else HydratedFrom(r, k, rows[0])
  }

  /** What `hydrate` of manager `k` returns for the row: the entity it reads as, or the exception reading it throws. */
  ghost predicate HydratedFrom(r: Result<Entity>, k: M.Kind, row: Store.ResultRow)
    reads if r.Ok? then Objects(r.value) + Refs(r.value) else {}
  {
    match R.ReadEntity(k, row)
    case Throw(x) => r == Throw(x)
    case Ok(d) => r.Ok? && Holds(r.value, d)
  }

  /**
   * What the cursor loop of `fetchAll` returns once it went through all of
   * `rows`: one entity per row, hydrated in order, or the exception of the
   * first row whose hydration throws.
   */
  ghost predicate AllHydrated(r: Result<seq<Entity>>, k: M.Kind, rows: seq<Store.ResultRow>, made: set<object>)
    reads made
  {
    match r
    case Ok(list) => |list| == |rows| && AllLoaded(list, rows, k, made)
    case Throw(x) =>
      exists i :: 0 <= i < |rows| && R.ReadEntity(k, rows[i]) == Throw(x) && forall j :: 0 <= j < i ==> R.ReadEntity(k, rows[j]).Ok?
  }

  /** A `Sensor` lookup's result as a `T` of the sensor manager. */
  function SensorResult(r: Result<E.Sensor?>): Result<Entity>
  {
    match r
    case Throw(x) => Throw(x)
    case Ok(s) => if s == null then Ok(Null) else Ok(ASensor(s))
  }

  /**
   * The rows `findBy(column, p)` and `findAllBy(column, p)` of manager `k`
   * are answered with (`FindByRowsAnswer`): the store's answer to the
   * selection with the parameter bound at position 1, None when it cannot
   * be bound.
   */
  ghost function FindByRows(tables: map<string, seq<Store.Row>>, k: M.Kind, column: string, p: Q.Param): Option<seq<Store.ResultRow>>
  {
    match Q.Bind(p)
    case Throw(_) => None
    case Ok(v) => Store.Select(tables, M.FindBySelection(k, column), map[1 := v])
  }

  /**
   * What `findBy` returns when its statement ran: null when `FindByRows`
   * is empty, otherwise the hydration of its first row, which is `row`.
   */
  ghost predicate FoundBy(r: Result<Entity>, row: Store.ResultRow, tables: map<string, seq<Store.Row>>, k: M.Kind, column: string, p: Q.Param)
    reads if r.Ok? then Objects(r.value) + Refs(r.value) else {}
  {
    forall rows {:trigger FirstHydrated(r, k, rows)} ::
      FindByRows(tables, k, column, p) == Some(rows) ==> FirstHydrated(r, k, rows) && (rows != [] ==> row == rows[0])
  }

  /** A find-by on a column name without a '?' is answered with `FindByRows`. */
  lemma FindByRowsAnswer(tables: map<string, seq<Store.Row>>, k: M.Kind, column: string, p: Q.Param)
    requires '?' !in column
    ensures Answer(tables, M.FindByState(k, column, p), M.FindBySelection(k, column)) == FindByRows(tables, k, column, p)
  {
    M.FindByPlaceholders(k, column, p);
    Q.BindAllPositions([p], 1);
    if Q.Bind(p).Ok? {
      assert Q.BindAll([p], 1) == Ok(map[1 := Q.Bind(p).value]);
    }
  }

  /**
   * A find-by that was answered bound its parameter on an existing table;
   * a non-null entity it fetched from its answer's first row is read from
   * that row, which holds the bound value in the searched column.
   */
  lemma FirstRowRead(tables: map<string, seq<Store.Row>>, k: M.Kind, column: string, p: Q.Param, r: Result<Entity>, row: Store.ResultRow)
    requires Answer(tables, M.FindByState(k, column, p), M.FindBySelection(k, column)).Some?
    requires forall rows {:trigger FirstHydrated(r, k, rows)} ::
      Answer(tables, M.FindByState(k, column, p), M.FindBySelection(k, column)) == Some(rows) ==> FirstHydrated(r, k, rows)
    requires Answer(tables, M.FindByState(k, column, p), M.FindBySelection(k, column)).value != [] ==>
      row == Answer(tables, M.FindByState(k, column, p), M.FindBySelection(k, column)).value[0]
    ensures Q.Bind(p).Ok? && M.Table(k) in tables
    ensures r.Ok? && !r.value.Null? ==> R.ReadEntity(k, row).Ok? && Holds(r.value, R.ReadEntity(k, row).value)
    ensures r.Ok? && !r.value.Null? && '?' !in column ==> R.Cell(row, M.Table(k), column) == Some(Q.Bind(p).value)
  {
    FindByAnswer(tables, k, column, p, UnsupportedParameter);
    assert FirstHydrated(r, k, Answer(tables, M.FindByState(k, column, p), M.FindBySelection(k, column)).value);
  }

  /** The same, stated over `FindByRows` for a column name without a '?'. */
  lemma FoundFirst(tables: map<string, seq<Store.Row>>, k: M.Kind, column: string, p: Q.Param, r: Result<Entity>, row: Store.ResultRow)
    requires '?' !in column
    requires Answer(tables, M.FindByState(k, column, p), M.FindBySelection(k, column)).Some?
    requires forall rows {:trigger FirstHydrated(r, k, rows)} ::
      Answer(tables, M.FindByState(k, column, p), M.FindBySelection(k, column)) == Some(rows) ==> FirstHydrated(r, k, rows)
    requires Answer(tables, M.FindByState(k, column, p), M.FindBySelection(k, column)).value != [] ==>
      row == Answer(tables, M.FindByState(k, column, p), M.FindBySelection(k, column)).value[0]
    ensures FoundBy(r, row, tables, k, column, p)
  {
    FindByRowsAnswer(tables, k, column, p);
  }

  /**
   * What `findBy` returns, from what `fetch` returned for its query: the
   * facts of `Fetch`'s contract on the find-by query give those of
   * `FindBy`'s.
   */
  lemma FindByFetched(tables: map<string, seq<Store.Row>>, k: M.Kind, column: string, p: Q.Param, r: Result<Entity>, row: Store.ResultRow, ran: bool)
    requires ran ==> Answer(tables, M.FindByState(k, column, p), M.FindBySelection(k, column)).Some?
    requires ran ==> forall rows {:trigger FirstHydrated(r, k, rows)} ::
      Answer(tables, M.FindByState(k, column, p), M.FindBySelection(k, column)) == Some(rows) ==> FirstHydrated(r, k, rows)
    requires !ran ==> r == Ok(Null) || (r.Throw? && Refused(M.FindByState(k, column, p), r.exception))
    requires r.Throw? ==>
      || Refused(M.FindByState(k, column, p), r.exception)
      || (Answer(tables, M.FindByState(k, column, p), M.FindBySelection(k, column)).Some? && (k == M.SensorKind || k == M.FluidKind))
    requires var answer := Answer(tables, M.FindByState(k, column, p), M.FindBySelection(k, column));
      row == if answer.Some? && answer.value != [] then answer.value[0] else map[]
    ensures ran ==> Q.Bind(p).Ok? && M.Table(k) in tables
    ensures ran && '?' !in column ==> FoundBy(r, row, tables, k, column, p)
    ensures !ran ==> r == Ok(Null) || (Q.Bind(p).Throw? && r == Throw(UnsupportedParameter))
    ensures r.Throw? ==> (Q.Bind(p).Throw? && r.exception == UnsupportedParameter) || k == M.SensorKind || k == M.FluidKind
    ensures Q.Bind(p).Throw? ==> r == Throw(UnsupportedParameter) || r == Ok(Null)
    ensures r.Ok? && !r.value.Null? ==> Q.Bind(p).Ok? && R.ReadEntity(k, row).Ok? && Holds(r.value, R.ReadEntity(k, row).value)
    ensures r.Ok? && !r.value.Null? && '?' !in column ==> R.Cell(row, M.Table(k), column) == Some(Q.Bind(p).value)
  {
    if r.Throw? {
      FindByAnswer(tables, k, column, p, r.exception);
    } else {
      FindByAnswer(tables, k, column, p, UnsupportedParameter);
    }
    if ran {
      FirstRowRead(tables, k, column, p, r, row);
    }
    if '?' !in column && ran {
      FoundFirst(tables, k, column, p, r, row);
    }
  }

  /**
   * What a find-by that ran returns, in terms of the stored rows: when a
   * stored row's column holds the value, the hydration of the first row
   * answered; when none does, null.
   */
  lemma FindByFindsStored(tables: map<string, seq<Store.Row>>, k: M.Kind, column: string, p: Q.Param, r: Result<Entity>)
    requires '?' !in column && Q.Bind(p).Ok? && M.Table(k) in tables
    requires forall rows {:trigger FirstHydrated(r, k, rows)} :: FindByRows(tables, k, column, p) == Some(rows) ==> FirstHydrated(r, k, rows)
    ensures (exists x :: x in tables[M.Table(k)] && Store.Compare(Store.Column(x, column), Store.Eq, Q.Bind(p).value)) ==>
      FindByRows(tables, k, column, p).value != [] && HydratedFrom(r, k, FindByRows(tables, k, column, p).value[0])
    ensures (forall x :: x in tables[M.Table(k)] ==> !Store.Compare(Store.Column(x, column), Store.Eq, Q.Bind(p).value)) ==> r == Ok(Null)
  {
    FindByFinds(tables, k, column, p);
    assert FirstHydrated(r, k, FindByRows(tables, k, column, p).value);
  }

  /** The same for `find(id)`: a stored row with the id is found, and with none the result is null. */
  lemma FindFindsStored(tables: map<string, seq<Store.Row>>, k: M.Kind, id: int, r: Result<Entity>)
    requires M.Table(k) in tables
    requires forall rows {:trigger FirstHydrated(r, k, rows)} :: FindByRows(tables, k, "id", Q.PInt(id)) == Some(rows) ==> FirstHydrated(r, k, rows)
    ensures (exists x :: x in tables[M.Table(k)] && x.id == id) ==>
      FindByRows(tables, k, "id", Q.PInt(id)).value != [] && HydratedFrom(r, k, FindByRows(tables, k, "id", Q.PInt(id)).value[0])
    ensures (forall x :: x in tables[M.Table(k)] ==> x.id != id) ==> r == Ok(Null)
  {
    FindsById(tables, k, id);
    assert FirstHydrated(r, k, FindByRows(tables, k, "id", Q.PInt(id)).value);
  }

  /**
   * The rows `findAllBySensorBetween(sensorId, t1, t2)` is answered with
   * (`BetweenRowsAnswer`): None when an instant is null, else the store's
   * answer with both instants and the sensor id bound.
   */
  ghost function BetweenRows(tables: map<string, seq<Store.Row>>, sensorId: int, t1: Option<Store.Timestamp>, t2: Option<Store.Timestamp>): Option<seq<Store.ResultRow>>
  {
    if t1.None? || t2.None? then None
    else Store.Select(tables, M.BetweenSelection, M.BetweenBindings(sensorId, t1.value, t2.value))
  }

  /** The between query is answered with `BetweenRows`. */
  lemma BetweenRowsAnswer(tables: map<string, seq<Store.Row>>, sensorId: int, t1: Option<Store.Timestamp>, t2: Option<Store.Timestamp>)
    ensures Answer(tables, M.BetweenState(sensorId, t1, t2), M.BetweenSelection) == BetweenRows(tables, sensorId, t1, t2)
  {
    BetweenRefused(sensorId, t1, t2, UnsupportedParameter);
    if t1.Some? && t2.Some? {
      M.BetweenPlaceholders(sensorId, t1, t2);
      M.BetweenBound(sensorId, t1.value, t2.value);
    }
  }

  /**
   * A find-by whose parameter binds is answered exactly when the table
   * exists, then with a row for every stored row whose column holds the
   * bound value, and with none exactly when no stored row does.
   */
  lemma FindByFinds(tables: map<string, seq<Store.Row>>, k: M.Kind, column: string, p: Q.Param)
    requires '?' !in column && Q.Bind(p).Ok?
    ensures FindByRows(tables, k, column, p).Some? <==> M.Table(k) in tables
    ensures M.Table(k) in tables ==> forall x :: x in tables[M.Table(k)] && Store.Compare(Store.Column(x, column), Store.Eq, Q.Bind(p).value) ==>
      exists i :: 0 <= i < |FindByRows(tables, k, column, p).value| && M.Carries(FindByRows(tables, k, column, p).value[i], M.Table(k), x)
    ensures M.Table(k) in tables ==> (FindByRows(tables, k, column, p).value == [] <==>
      forall x :: x in tables[M.Table(k)] ==> !Store.Compare(Store.Column(x, column), Store.Eq, Q.Bind(p).value))
  {
    if M.Table(k) in tables {
      M.FindByFindsAll(tables, k, column, Q.Bind(p).value);
    }
  }

  /** `find(id)` is answered, when the table exists, with some row exactly when a stored row has that id. */
  lemma FindsById(tables: map<string, seq<Store.Row>>, k: M.Kind, id: int)
    ensures FindByRows(tables, k, "id", Q.PInt(id)).Some? <==> M.Table(k) in tables
    ensures M.Table(k) in tables ==> (FindByRows(tables, k, "id", Q.PInt(id)).value != [] <==> exists x :: x in tables[M.Table(k)] && x.id == id)
  {
    FindByFinds(tables, k, "id", Q.PInt(id));
    if M.Table(k) in tables && FindByRows(tables, k, "id", Q.PInt(id)).value == [] {
      forall x | x in tables[M.Table(k)]
        ensures x.id != id
      {
        assert !Store.Compare(Store.Column(x, "id"), Store.Eq, Store.SqlInt(id));
      }
    }
  }

  /**
   * The between query on two instants is answered exactly when the `value`
   * table exists, then with a row for every stored reading of the sensor
   * taken in [t1, t2], and with none exactly when there is no such reading.
   */
  lemma BetweenFinds(tables: map<string, seq<Store.Row>>, sensorId: int, t1: Store.Timestamp, t2: Store.Timestamp)
    ensures BetweenRows(tables, sensorId, Some(t1), Some(t2)).Some? <==> M.Table(M.ValueKind) in tables
    ensures M.Table(M.ValueKind) in tables ==> forall x :: x in tables[M.Table(M.ValueKind)] && M.StoredBetween(x, sensorId, t1, t2) ==>
      exists i :: 0 <= i < |BetweenRows(tables, sensorId, Some(t1), Some(t2)).value| &&
        M.Carries(BetweenRows(tables, sensorId, Some(t1), Some(t2)).value[i], M.Table(M.ValueKind), x)
    ensures M.Table(M.ValueKind) in tables ==> (BetweenRows(tables, sensorId, Some(t1), Some(t2)).value == [] <==>
      forall x :: x in tables[M.Table(M.ValueKind)] ==> !M.StoredBetween(x, sensorId, t1, t2))
  {
    M.BetweenMatches(Store.Row(0, map[]), sensorId, t1, t2);
    if M.Table(M.ValueKind) in tables {
      M.BetweenFindsAll(tables, sensorId, t1, t2);
    }
  }

  /**
   * `findAll()` is answered exactly when the table exists, then with one
   * row per stored row, in stored order, each carrying that row's key.
   */
  lemma BaseFinds(tables: map<string, seq<Store.Row>>, k: M.Kind)
    ensures Store.Select(tables, M.BaseSelection(k), map[]).Some? <==> M.Table(k) in tables
    ensures M.Table(k) in tables ==>
      && |Store.Select(tables, M.BaseSelection(k), map[]).value| == |tables[M.Table(k)]|
      && forall i :: 0 <= i < |tables[M.Table(k)]| ==>
           M.Carries(Store.Select(tables, M.BaseSelection(k), map[]).value[i], M.Table(k), tables[M.Table(k)][i])
  {
    if M.Table(k) in tables {
      M.BaseFindsAll(tables, k);
    }
  }

  /** The readings behind a list of `T`s of the value manager. */
  function AsValues(list: seq<Entity>): seq<E.Value?>
  {
    seq(|list|, i requires 0 <= i < |list| => AsValue(list[i]))
  }

  /** Readings hydrated from rows whose `sensor_id` is the sensor's: proxies remembering that sensor. */
  lemma LoadedReadings(list: seq<Entity>, rows: seq<Store.ResultRow>, made: set<object>, sensorId: int)
    requires AllLoaded(list, rows, M.ValueKind, made)
    requires forall i :: 0 <= i < |rows| ==> R.Cell(rows[i], M.Table(M.ValueKind), "sensor_id") == Some(Store.SqlInt(sensorId))
    ensures forall i :: 0 <= i < |list| ==> OfKind(list[i], M.ValueKind)
    ensures forall i :: 0 <= i < |list| && AsValue(list[i]) != null ==>
      AsValue(list[i]) in made && AsValue(list[i]).isProxy && AsValue(list[i]).sensorId == sensorId
  {
    forall i | 0 <= i < |list|
      ensures OfKind(list[i], M.ValueKind)
      ensures AsValue(list[i]) != null ==> AsValue(list[i]) in made && AsValue(list[i]).isProxy && AsValue(list[i]).sensorId == sensorId
    {
      assert Loaded(list[i], rows[i], M.ValueKind, made);
      if AsValue(list[i]) != null {
        R.ReadValueSensorId(rows[i], sensorId);
      }
    }
  }

  /** The last row of a table. */
  function Last(rows: seq<Store.Row>): Store.Row
    requires rows != []
  {
    rows[|rows| - 1]
  }

  class Database {
    const conn: Store.Connection
    /** The entity objects the application holds. */
    ghost var sensors: set<E.Sensor>
    ghost var values: set<E.Value>
    ghost var fluids: set<E.Fluid>
    ghost var buildings: set<E.Building>

    /** A held sensor refers only to held objects. */
    ghost predicate SensorLinks(s: E.Sensor)
      reads this, s`fluid, s`building, s`values
    {
      && (s.fluid == null || s.fluid in fluids)
      && (s.building == null || s.building in buildings)
      && (s.values.Some? ==> forall i :: 0 <= i < |s.values.value| && s.values.value[i] != null ==> s.values.value[i] in values)
    }

    /** Every held entity refers only to held entities. */
    ghost predicate Linked()
      reads this, sensors`fluid, sensors`building, sensors`values, values`sensor
    {
      && (forall s :: s in sensors ==> SensorLinks(s))
      && (forall v :: v in values ==> v.sensor == null || v.sensor in sensors)
    }

    ghost predicate Valid()
      reads this, conn, sensors`fluid, sensors`building, sensors`values, values`sensor
    {
      conn.Valid() && Linked()
    }

    /** The entity is null or one the application holds. */
    ghost predicate Tracked(e: Entity)
      reads this
    {
      match e
      case Null => true
      case ABuilding(b) => b in buildings
      case AFluid(f) => f in fluids
      case ASensor(s) => s in sensors
      case AValue(v) => v in values
    }

    /** Every object the application holds. */
    ghost function Held(): set<object>
      reads this
    {
      var s: set<object> := sensors;
      var v: set<object> := values;
      var f: set<object> := fluids;
      var b: set<object> := buildings;
      s + v + f + b
    }

    /** The held objects are still held; loading entities only adds new objects to them. */
    twostate predicate Grown()
      reads this
    {
      && old(sensors) <= sensors && old(values) <= values && old(fluids) <= fluids && old(buildings) <= buildings
      && (forall s :: s in sensors && s !in old(sensors) ==> fresh(s))
      && (forall v :: v in values && v !in old(values) ==> fresh(v))
      && (forall f :: f in fluids && f !in old(fluids) ==> fresh(f))
      && (forall b :: b in buildings && b !in old(buildings) ==> fresh(b))
    }

    constructor (c: Store.Connection)
      requires c.Valid()
      ensures Valid() && conn == c
      ensures sensors == {} && values == {} && fluids == {} && buildings == {}
    {
      conn := c;
      sensors, values, fluids, buildings := {}, {}, {}, {};
    }

    /** Hold a new entity object whose references are held already. */
    ghost method Track(e: Entity)
      requires Valid()
      requires e.ASensor? ==> SensorLinks(e.sensor)
      requires e.AValue? ==> e.value.sensor == null || e.value.sensor in sensors
      modifies this
      ensures Valid() && Tracked(e)
      ensures sensors == old(sensors) + (if e.ASensor? then {e.sensor} else {})
      ensures values == old(values) + (if e.AValue? then {e.value} else {})
      ensures fluids == old(fluids) + (if e.AFluid? then {e.fluid} else {})
      ensures buildings == old(buildings) + (if e.ABuilding? then {e.building} else {})
    {
      match e {
        case Null =>
        case ABuilding(b) => buildings := buildings + {b};
        case AFluid(f) => fluids := fluids + {f};
        case ASensor(s) => sensors := sensors + {s};
        case AValue(v) => values := values + {v};
      }
    }

    /**
     * The statement and result set that `fetch` and `fetchAll` open:
     * `toString()` throws on a query without a table, a statement that
     * cannot be prepared or run gives no rows (None), and an unsupported
     * parameter throws.
     */
    method RunQuery(q: Q.Query, sel: Store.Selection) returns (r: Result<Option<seq<Store.ResultRow>>>)
      requires q.Valid()
      modifies conn`executed
      ensures Q.Render(q.State()).Throw? ==> r == Throw(IllegalState)
      ensures r.Throw? ==> Refused(q.State(), r.exception)
      ensures r.Ok? && r.value.Some? ==> r.value == Answer(conn.tables, q.State(), sel)
    {
      var text := q.ToString();
      if text.Throw? {
        return Throw(text.exception);
      }
      var prepared := conn.Prepare(text.value);
      if !prepared {
        return Ok(None);
      }
      r := q.Execute(conn, text.value, sel);
    }

    /** A building as `BuildingManager.hydrate` builds it: `new Building()`, then its id and name. */
    method BuildBuilding(x: R.BuildingData) returns (b: E.Building)
      requires Valid()
      modifies this
      ensures Valid() && Grown() && buildings == old(buildings) + {b}
      ensures fresh(b) && b.id == x.id && b.name == x.name
    {
      b := new E.Building();
      b.SetId(x.id);
      b.SetName(x.name);
      buildings := buildings + {b};
    }

    /** A fluid as `FluidManager.hydrate` builds it: `new Fluid(type)`, then its id. */
    method BuildFluid(x: R.FluidData) returns (f: E.Fluid)
      requires Valid()
      modifies this
      ensures Valid() && Grown() && fluids == old(fluids) + {f}
      ensures fresh(f) && f.id == x.id && f.fluidType == x.fluidType
    {
      f := new E.Fluid(x.fluidType);
      f.SetId(x.id);
      fluids := fluids + {f};
    }

    /** `new SensorProxy(id, fluid)` and the setters of `SensorManager.hydrate`, on a fluid and building built already. */
    method NewSensor(x: R.SensorData, f: E.Fluid, b: E.Building?) returns (s: E.Sensor)
      requires Valid() && f in fluids && (b == null || b in buildings)
      modifies this
      ensures Valid() && Grown() && sensors == old(sensors) + {s}
      ensures fresh(s) && s.isProxy && s.fluid == f && s.building == b && s.values.None? && s.lastValue == null
      ensures s.id == x.id && s.name == x.name && s.floor == x.floor && s.place == x.place
      ensures s.minThreshold == x.minThreshold && s.maxThreshold == x.maxThreshold
    {
      s := new E.Sensor.Proxy(x.id, f);
      s.name, s.floor, s.place, s.building := x.name, x.floor, x.place, b;
      s.minThreshold, s.maxThreshold := x.minThreshold, x.maxThreshold;
      sensors := sensors + {s};
    }

    /**
     * A sensor as `SensorManager.hydrate` builds it: its fluid and building,
     * then the sensor itself.
     */
    method BuildSensor(x: R.SensorData) returns (s: E.Sensor)
      requires Valid()
      modifies this
      ensures Valid() && Grown() && s in sensors
      ensures fresh(s) && fresh(s.fluid) && (s.building != null ==> fresh(s.building))
      ensures SensorHolds(s, x)
    {
      var f := BuildFluid(x.fluid);
      var b: E.Building? := null;
      if x.building.Some? {
        b := BuildBuilding(x.building.value);
      }
      s := NewSensor(x, f, b);
    }

    /** A reading as `ValueManager.hydrate` builds it: `new ValueProxy(sensorId)`, then its fields. */
    method BuildValue(x: R.ValueData) returns (v: E.Value)
      requires Valid()
      modifies this
      ensures Valid() && Grown() && values == old(values) + {v}
      ensures fresh(v) && v.isProxy && v.sensorId == x.sensorId && v.sensor == null
      ensures v.id == x.id && v.value == x.value && v.dateTime == x.dateTime
    {
      v := new E.Value.Proxy(x.sensorId);
      v.SetId(x.id);
      v.SetValue(x.value);
      v.SetDateTime(x.dateTime);
      values := values + {v};
    }

    /**
     * `hydrate` of manager `k`: fresh objects holding what the row reads
     * as; null on an SQLException; `valueOf` and the proxy's constructor
     * may throw.
     */
    method Hydrate(k: M.Kind, row: Store.ResultRow) returns (r: Result<Entity>)
      requires Valid()
      modifies this
      ensures Valid() && Grown()
      ensures r.Throw? <==> R.ReadEntity(k, row).Throw?
      ensures r.Throw? ==> r.exception == R.ReadEntity(k, row).exception
      ensures r.Ok? ==> OfKind(r.value, k) && Tracked(r.value) && Holds(r.value, R.ReadEntity(k, row).value)
      ensures r.Ok? ==> fresh(Objects(r.value)) && fresh(Refs(r.value)) && Objects(r.value) + Refs(r.value) <= Held()
    {
      var d := R.ReadEntity(k, row);
      if d.Throw? {
        return Throw(d.exception);
      }
      if d.value.None? {
        return Ok(Null);
      }
      var data := d.value.value;
      if data.BuildingD? {
        var b := BuildBuilding(data.building);
        r := Ok(ABuilding(b));
      } else if data.FluidD? {
        var f := BuildFluid(data.fluid);
        r := Ok(AFluid(f));
      } else if data.SensorD? {
        var s := BuildSensor(data.sensor);
        r := Ok(ASensor(s));
      } else {
        var v := BuildValue(data.value);
        r := Ok(AValue(v));
      }
    }

    /**
     * `fetch(query)`: the entity hydrated from the first row, or null when
     * there is none or on an SQLException. `ran` tells that the statement
     * was prepared and run without one.
     */
    method Fetch(k: M.Kind, q: Q.Query, sel: Store.Selection) returns (r: Result<Entity>, ghost ran: bool)
      requires Valid() && q.Valid()
      modifies this, conn`executed
      ensures Valid() && Grown() && conn.tables == old(conn.tables)
      ensures Q.Render(q.State()).Throw? ==> r == Throw(IllegalState)
      ensures ran ==> Answer(conn.tables, q.State(), sel).Some?
      ensures ran ==> forall rows {:trigger FirstHydrated(r, k, rows)} :: Answer(conn.tables, q.State(), sel) == Some(rows) ==> FirstHydrated(r, k, rows)
      ensures !ran ==> r == Ok(Null) || (r.Throw? && Refused(q.State(), r.exception))
      ensures r.Ok? ==> OfKind(r.value, k) && Tracked(r.value) && fresh(Objects(r.value)) && fresh(Refs(r.value))
      ensures r.Throw? ==> Refused(q.State(), r.exception) || (Answer(conn.tables, q.State(), sel).Some? && (k == M.SensorKind || k == M.FluidKind))
    {
      var rows := RunQuery(q, sel);
      ran := rows.Ok? && rows.value.Some?;
      if rows.Throw? {
        return Throw(rows.exception), ran;
      }
      if rows.value.None? || rows.value.value == [] {
        return Ok(Null), ran;
      }
      r := Hydrate(k, rows.value.value[0]);
    }

    /** One pass of `fetchAll`'s loop: hydrate the next row and add the entity to the list. */
    method LoadRow(k: M.Kind, rows: seq<Store.ResultRow>, list: seq<Entity>, ghost made: set<object>)
      returns (r: Result<seq<Entity>>, ghost more: set<object>)
      requires Valid() && AllLoaded(list, rows, k, made) && |list| < |rows| && this !in made
      modifies this
      ensures Valid() && Grown()
      ensures r.Throw? ==> R.ReadEntity(k, rows[|list|]).Throw? && r.exception == R.ReadEntity(k, rows[|list|]).exception
      ensures r.Ok? ==> |r.value| == |list| + 1 && AllLoaded(r.value, rows, k, more)
      ensures r.Ok? ==> made <= more && this !in more && fresh(more - made) && more - made <= Held()
    {
      var e := Hydrate(k, rows[|list|]);
      if e.Throw? {
        return Throw(e.exception), made;
      }
      more := made + Objects(e.value) + Refs(e.value);
      assert AllLoaded(list, rows, k, made);
      AllLoadedExtend(list, rows, k, made, e.value, more);
      r := Ok(list + [e.value]);
    }

    /**
     * The cursor loop of `fetchAll`: the entities hydrated from the rows in
     * order, a null for each row that cannot be read; an SQLException on
     * the cursor ends the list early, and `complete` tells that none did.
     */
    method LoadRows(k: M.Kind, rows: seq<Store.ResultRow>) returns (r: Result<seq<Entity>>, ghost made: set<object>, ghost complete: bool)
      requires Valid()
      modifies this
      ensures Valid() && Grown()
      ensures r.Throw? ==> exists i :: 0 <= i < |rows| && R.ReadEntity(k, rows[i]).Throw? && r.exception == R.ReadEntity(k, rows[i]).exception
      ensures r.Ok? ==> AllLoaded(r.value, rows, k, made) && fresh(made) && made <= Held()
      ensures complete ==> AllHydrated(r, k, rows, made)
      ensures !complete ==> r.Ok?
    {
      var list: seq<Entity> := [];
      made, complete := {}, true;
      while |list| < |rows|
        invariant Valid() && Grown()
        invariant AllLoaded(list, rows, k, made) && fresh(made) && made <= Held()
        decreases |rows| - |list|
      {
        var cursorFailed: bool := *;
        if cursorFailed {
          complete := false;
          break;
        }
        var next;
        ghost var more;
        next, more := LoadRow(k, rows, list, made);
        if next.Throw? {
          assert forall j :: 0 <= j < |list| ==> Loaded(list[j], rows[j], k, made);
          return Throw(next.exception), made, complete;
        }
        list, made := next.value, more;
      }
      r := Ok(list);
    }

    /**
     * `fetchAll(query)`: the entities hydrated from the rows the query
     * answers, in order; `made` holds the objects they reach. `ran` tells
     * that neither the statement nor the cursor raised an SQLException.
     */
    method FetchAll(k: M.Kind, q: Q.Query, sel: Store.Selection) returns (r: Result<seq<Entity>>, ghost made: set<object>, ghost ran: bool)
      requires Valid() && q.Valid()
      modifies this, conn`executed
      ensures Valid() && Grown() && conn.tables == old(conn.tables)
      ensures Q.Render(q.State()).Throw? ==> r == Throw(IllegalState)
      ensures ran ==> Answer(conn.tables, q.State(), sel).Some? && AllHydrated(r, k, Answer(conn.tables, q.State(), sel).value, made)
      ensures !ran ==> r.Ok? || Refused(q.State(), r.exception)
      ensures r.Ok? && r.value != [] ==> Answer(conn.tables, q.State(), sel).Some? && AllLoaded(r.value, Answer(conn.tables, q.State(), sel).value, k, made)
      ensures r.Ok? ==> fresh(made) && made <= Held()
      ensures r.Throw? ==> Refused(q.State(), r.exception) || (Answer(conn.tables, q.State(), sel).Some? && (k == M.SensorKind || k == M.FluidKind))
    {
      var rows := RunQuery(q, sel);
      if rows.Throw? {
        return Throw(rows.exception), {}, false;
      }
      if rows.value.None? {
        return Ok([]), {}, false;
      }
      r, made, ran := LoadRows(k, rows.value.value);
    }

    /**
     * `findBy(column, value)`: the first entity whose column holds the
     * value, or null. `row` is the row it was hydrated from; `ran` tells
     * that no SQLException was raised.
     */
    method FindBy(k: M.Kind, column: string, p: Q.Param) returns (r: Result<Entity>, ghost row: Store.ResultRow, ghost ran: bool)
      requires Valid()
      modifies this, conn`executed
      ensures Valid() && Grown() && conn.tables == old(conn.tables)
      ensures ran ==> Q.Bind(p).Ok? && M.Table(k) in conn.tables
      ensures ran && '?' !in column ==> FoundBy(r, row, conn.tables, k, column, p)
      ensures !ran ==> r == Ok(Null) || (Q.Bind(p).Throw? && r == Throw(UnsupportedParameter))
      ensures r.Throw? ==> (Q.Bind(p).Throw? && r.exception == UnsupportedParameter) || k == M.SensorKind || k == M.FluidKind
      ensures Q.Bind(p).Throw? ==> r == Throw(UnsupportedParameter) || r == Ok(Null)
      ensures r.Ok? && !r.value.Null? ==> Q.Bind(p).Ok? && R.ReadEntity(k, row).Ok? && Holds(r.value, R.ReadEntity(k, row).value)
      ensures r.Ok? && !r.value.Null? && '?' !in column ==> R.Cell(row, M.Table(k), column) == Some(Q.Bind(p).value)
      ensures r.Ok? ==> OfKind(r.value, k) && Tracked(r.value) && fresh(Objects(r.value)) && fresh(Refs(r.value))
    {
      var q := M.FindByQuery(k, column, p);
      ghost var answer := Answer(conn.tables, q.State(), M.FindBySelection(k, column));
      r, ran := Fetch(k, q, M.FindBySelection(k, column));
      row := if answer.Some? && answer.value != [] then answer.value[0] else map[];
      FindByFetched(conn.tables, k, column, p, r, row, ran);
    }

    /** `find(id)`: `findBy("id", id)`; the entity found has that id. */
    method Find(k: M.Kind, id: int) returns (r: Result<Entity>, ghost ran: bool)
      requires Valid()
      modifies this, conn`executed
      ensures Valid() && Grown() && conn.tables == old(conn.tables)
      ensures ran ==> M.Table(k) in conn.tables
      ensures ran ==> forall rows {:trigger FirstHydrated(r, k, rows)} :: FindByRows(conn.tables, k, "id", Q.PInt(id)) == Some(rows) ==> FirstHydrated(r, k, rows)
      ensures !ran ==> r == Ok(Null)
      ensures r.Throw? ==> k == M.SensorKind || k == M.FluidKind
      ensures r.Ok? && !r.value.Null? ==> Id(r.value) == id
      ensures r.Ok? ==> OfKind(r.value, k) && Tracked(r.value) && fresh(Objects(r.value)) && fresh(Refs(r.value))
    {
      ghost var row;
      r, row, ran := FindBy(k, "id", Q.PInt(id));
      if r.Ok? && !r.value.Null? {
        R.ReadEntityId(k, row, id);
        HoldsId(r.value, R.ReadEntity(k, row).value.value);
      }
    }

    /** `findAll()`: every entity of the table, hydrated in stored order. */
    method FindAll(k: M.Kind) returns (r: Result<seq<Entity>>, ghost made: set<object>, ghost ran: bool)
      requires Valid()
      modifies this, conn`executed
      ensures Valid() && Grown() && conn.tables == old(conn.tables)
      ensures ran ==>
        && Store.Select(conn.tables, M.BaseSelection(k), map[]).Some?
        && AllHydrated(r, k, Store.Select(conn.tables, M.BaseSelection(k), map[]).value, made)
      ensures !ran ==> r.Ok?
      ensures r.Throw? ==> k == M.SensorKind || k == M.FluidKind
      ensures r.Ok? && r.value != [] ==>
        && Store.Select(conn.tables, M.BaseSelection(k), map[]).Some?
        && AllLoaded(r.value, Store.Select(conn.tables, M.BaseSelection(k), map[]).value, k, made)
      ensures r.Ok? ==> fresh(made) && made <= Held()
    {
      var q := M.BaseQuery(k);
      r, made, ran := FetchAll(k, q, M.BaseSelection(k));
      BaseAnswer(conn.tables, k, if r.Throw? then r.exception else IllegalState);
    }

    /**
     * `findAllBy(column, value)`: every entity whose column holds the value,
     * hydrated in stored order from `rows`; `ran` tells that no
     * SQLException was raised.
     */
    method FindAllBy(k: M.Kind, column: string, p: Q.Param)
      returns (r: Result<seq<Entity>>, ghost made: set<object>, ghost rows: seq<Store.ResultRow>, ghost ran: bool)
      requires Valid()
      modifies this, conn`executed
      ensures Valid() && Grown() && conn.tables == old(conn.tables)
      ensures ran ==> Q.Bind(p).Ok? && AllHydrated(r, k, rows, made)
      ensures ran && '?' !in column ==> FindByRows(conn.tables, k, column, p) == Some(rows)
      ensures !ran ==> r.Ok? || (Q.Bind(p).Throw? && r == Throw(UnsupportedParameter))
      ensures r.Throw? ==> (Q.Bind(p).Throw? && r.exception == UnsupportedParameter) || k == M.SensorKind || k == M.FluidKind
      ensures Q.Bind(p).Throw? ==> r == Throw(UnsupportedParameter) || r == Ok([])
      ensures r.Ok? && r.value != [] ==> Q.Bind(p).Ok? && AllLoaded(r.value, rows, k, made)
      ensures r.Ok? && r.value != [] && '?' !in column ==>
        forall i :: 0 <= i < |rows| ==> R.Cell(rows[i], M.Table(k), column) == Some(Q.Bind(p).value)
      ensures r.Ok? ==> fresh(made) && made <= Held()
    {
      var q := M.FindByQuery(k, column, p);
      ghost var answer := Answer(conn.tables, q.State(), M.FindBySelection(k, column));
      r, made, ran := FetchAll(k, q, M.FindBySelection(k, column));
      rows := if answer.Some? then answer.value else [];
      FindByAnswer(conn.tables, k, column, p, if r.Throw? then r.exception else UnsupportedParameter);
      if '?' !in column {
        FindByRowsAnswer(conn.tables, k, column, p);
      }
    }

    /**
     * `ValueManager.findAllBySensorBetween(sensorId, t1, t2)`: the readings
     * of the sensor taken between the two instants, both included; a null
     * instant cannot be bound and throws; `ran` tells that no SQLException
     * was raised.
     */
    method FindAllValuesBySensorBetween(sensorId: int, t1: Option<Store.Timestamp>, t2: Option<Store.Timestamp>)
      returns (r: Result<seq<Entity>>, ghost made: set<object>, ghost ran: bool)
      requires Valid()
      modifies this, conn`executed
      ensures Valid() && Grown() && conn.tables == old(conn.tables)
      ensures ran ==>
        && t1.Some? && t2.Some? && BetweenRows(conn.tables, sensorId, t1, t2).Some?
        && AllHydrated(r, M.ValueKind, BetweenRows(conn.tables, sensorId, t1, t2).value, made)
      ensures t1.None? || t2.None? ==> r == Throw(UnsupportedParameter) || r == Ok([])
      ensures t1.Some? && t2.Some? ==> r.Ok?
      ensures r.Ok? ==> forall i :: 0 <= i < |r.value| ==> OfKind(r.value[i], M.ValueKind)
      ensures r.Ok? && t1.Some? && t2.Some? ==> forall i :: 0 <= i < |r.value| ==>
        AsValue(r.value[i]) != null ==> InRange(AsValue(r.value[i]), sensorId, t1.value, t2.value)
      ensures r.Ok? ==> fresh(made) && made <= Held()
    {
      var q := M.BetweenQuery(sensorId, t1, t2);
      ghost var answer := Answer(conn.tables, q.State(), M.BetweenSelection);
      r, made, ran := FetchAll(M.ValueKind, q, M.BetweenSelection);
      BetweenRefused(sensorId, t1, t2, if r.Throw? then r.exception else UnsupportedParameter);
      BetweenRowsAnswer(conn.tables, sensorId, t1, t2);
      if r.Ok? && r.value != [] {
        if t1.Some? && t2.Some? {
          BetweenAnswered(conn.tables, sensorId, t1.value, t2.value);
        }
        ReadingsBetween(r.value, answer.value, made, sensorId, t1, t2);
      }
    }
  

    /**
     * `SensorProxy.getValues()`: a proxy whose readings are not loaded yet
     * loads them with `findAllBy("sensor_id", id)` and keeps the list; a
     * loaded list, or a plain sensor's list, is returned as it is. `found`
     * is what the lookup hydrated, and `ran` tells that it raised no
     * SQLException.
     */
    method GetValues(s: E.Sensor) returns (r: Option<seq<E.Value?>>, ghost found: seq<Entity>, ghost made: set<object>, ghost ran: bool)
      requires Valid() && s in sensors
      modifies this, conn`executed, (if s.values.None? then {s} else {})`values
      ensures Valid() && Grown() && conn.tables == old(conn.tables)
      ensures s.isProxy && old(s.values).None? && ran ==> M.Table(M.ValueKind) in conn.tables && r == Some(AsValues(found))
      ensures s.isProxy && old(s.values).None? && ran ==> forall rows {:trigger AllHydrated(Ok(found), M.ValueKind, rows, made)} ::
        FindByRows(conn.tables, M.ValueKind, "sensor_id", Q.PInt(s.id)) == Some(rows) ==> AllHydrated(Ok(found), M.ValueKind, rows, made)
      ensures r == s.values
      ensures !s.isProxy || old(s.values).Some? ==> s.values == old(s.values) && conn.executed == old(conn.executed)
      ensures s.isProxy && old(s.values).None? ==> r.Some?
      ensures s.isProxy && old(s.values).None? ==> forall i :: 0 <= i < |r.value| && r.value[i] != null ==>
        r.value[i] in values && fresh(r.value[i]) && r.value[i].isProxy && r.value[i].sensorId == s.id
    {
      found, made, ran := [], {}, false;
      if !s.isProxy || s.values.Some? {
        return s.values, found, made, ran;
      }
      var loaded;
      loaded, found, made, ran := Readings(s.id);
      label Fetched:
      s.SetValues(Some(loaded));
      r := s.values;
      forall rows | ran && FindByRows(conn.tables, M.ValueKind, "sensor_id", Q.PInt(s.id)) == Some(rows)
        ensures AllHydrated(Ok(found), M.ValueKind, rows, made)
      {
        assert old@Fetched(AllHydrated(Ok(found), M.ValueKind, rows, made));
      }
    }

    /** The readings `getValues` loads: `findAllBy("sensor_id", id)` of the value manager, as readings. */
    method Readings(sensorId: int) returns (loaded: seq<E.Value?>, ghost found: seq<Entity>, ghost made: set<object>, ghost ran: bool)
      requires Valid()
      modifies this, conn`executed
      ensures Valid() && Grown() && conn.tables == old(conn.tables)
      ensures loaded == AsValues(found) && fresh(made)
      ensures ran ==> M.Table(M.ValueKind) in conn.tables
      ensures ran ==> forall rows {:trigger AllHydrated(Ok(found), M.ValueKind, rows, made)} ::
        FindByRows(conn.tables, M.ValueKind, "sensor_id", Q.PInt(sensorId)) == Some(rows) ==> AllHydrated(Ok(found), M.ValueKind, rows, made)
      ensures forall i :: 0 <= i < |loaded| && loaded[i] != null ==>
        loaded[i] in values && fresh(loaded[i]) && loaded[i].isProxy && loaded[i].sensorId == sensorId
    {
      var all;
      ghost var rows;
      all, made, rows, ran := FindAllBy(M.ValueKind, "sensor_id", Q.PInt(sensorId));
      assert all.Ok?;
      found := all.value;
      assert all == Ok(found);
      if found != [] {
        LoadedReadings(found, rows, made, sensorId);
      }
      loaded := AsValues(all.value);
    }

    /**
     * `ValueProxy.getSensor()`: a proxy without a sensor looks it up with
     * `find(sensorId)` and keeps what it finds, so a null result is looked
     * up again next time; a sensor already there is returned as it is.
     * `ran` tells that the lookup raised no SQLException.
     */
    method GetSensor(v: E.Value) returns (r: Result<E.Sensor?>, ghost ran: bool)
      requires Valid() && v in values
      modifies this, conn`executed, (if v.sensor == null then {v} else {})`sensor
      ensures Valid() && Grown() && conn.tables == old(conn.tables)
      ensures v.isProxy && old(v.sensor) == null && ran ==> M.Table(M.SensorKind) in conn.tables
      ensures v.isProxy && old(v.sensor) == null && ran ==> forall rows {:trigger FirstHydrated(SensorResult(r), M.SensorKind, rows)} ::
        FindByRows(conn.tables, M.SensorKind, "id", Q.PInt(v.sensorId)) == Some(rows) ==> FirstHydrated(SensorResult(r), M.SensorKind, rows)
      ensures r.Ok? ==> r.value == v.sensor
      ensures r.Throw? ==> v.sensor == null
      ensures !v.isProxy || old(v.sensor) != null ==> r == Ok(old(v.sensor)) && v.sensor == old(v.sensor) && conn.executed == old(conn.executed)
      ensures v.isProxy && old(v.sensor) == null && r.Ok? && r.value != null ==> fresh(r.value) && r.value.id == v.sensorId
    {
      ran := false;
      if !v.isProxy || v.sensor != null {
        return Ok(v.sensor), ran;
      }
      var found;
      found, ran := Find(M.SensorKind, v.sensorId);
      if found.Throw? {
        return Throw(found.exception), ran;
      }
      v.SetSensor(AsSensor(found.value));
      r := Ok(v.sensor);
    }
  

    /**
     * `Manager.insert(entity)`: nothing for null; otherwise prepare the
     * INSERT, let `dehydrate` bind the columns (saving what the entity
     * refers to first), run it, and give the entity the generated key.
     * An SQLException is caught and ends the insert; `depth` bounds the
     * nesting of cascading saves, which overflows the stack when exhausted.
     * `key` and `bound` are the key the row was stored under and the
     * parameters bound for it.
     */
    method Insert(k: M.Kind, e: Entity, depth: nat) returns (out: Outcome, ghost key: Option<int>, ghost bound: Store.Bindings)
      requires Valid() && Tracked(e) && OfKind(e, k)
      modifies this, conn, (set s | s in sensors && s.values.None?)`values, (set v | v in values && v.sensor == null)`sensor
      modifies (set s | s in sensors && s.id == 0)`id, (set v | v in values && v.id == 0)`id
      modifies (set f | f in fluids && f.id == 0)`id, (set x | x in buildings && x.id == 0)`id
      modifies (if e.ASensor? then {e.sensor} else {})`id, (if e.AValue? then {e.value} else {})`id
      modifies (if e.AFluid? then {e.fluid} else {})`id, (if e.ABuilding? then {e.building} else {})`id
      decreases depth, 0
      ensures Valid() && Grown() && conn.nextKey >= old(conn.nextKey)
      ensures e.Null? ==> out == Normal && key == None && conn.tables == old(conn.tables)
      ensures !e.Null? && depth == 0 ==> out == Thrown(StackOverflow) && key == None
      ensures key.Some? ==> out.Normal? && Id(e) == key.value && key.value >= old(conn.nextKey)
      ensures key.Some? ==>
        && M.Table(k) in conn.tables && conn.tables[M.Table(k)] != [] && Store.AllBound(bound, |M.Columns(k)|)
        && Last(conn.tables[M.Table(k)]) == R.StoredRow(k, key.value, bound) && BoundFor(e, bound)
      ensures key.None? && (e.AFluid? || e.ABuilding?) ==> Id(e) == old(Id(e)) && conn.tables == old(conn.tables)
    {
      key := None;
      bound := map[];
      if e.Null? {
        return Normal, key, bound;
      }
      if depth == 0 {
        return Thrown(StackOverflow), key, bound;
      }
      var sql := M.GenerateInsertQuery(M.Table(k), M.Columns(k));
      var prepared := conn.Prepare(sql);
      if !prepared {
        return Normal, key, bound;
      }
      out, key, bound := RunInsert(k, e, depth - 1, sql);
    }

    /**
     * The body of `insert`'s try block, on a prepared statement:
     * `dehydrate`, `executeUpdate`, then `setId` with the generated key.
     */
    method RunInsert(k: M.Kind, e: Entity, depth: nat, sql: string) returns (out: Outcome, ghost key: Option<int>, ghost bound: Store.Bindings)
      requires Valid() && Tracked(e) && OfKind(e, k) && !e.Null?
      modifies this, conn, (set s | s in sensors && s.values.None?)`values, (set v | v in values && v.sensor == null)`sensor
      modifies (set s | s in sensors && s.id == 0)`id, (set v | v in values && v.id == 0)`id
      modifies (set f | f in fluids && f.id == 0)`id, (set x | x in buildings && x.id == 0)`id
      modifies (if e.ASensor? then {e.sensor} else {})`id, (if e.AValue? then {e.value} else {})`id
      modifies (if e.AFluid? then {e.fluid} else {})`id, (if e.ABuilding? then {e.building} else {})`id
      decreases depth, 5
      ensures Valid() && Grown() && conn.nextKey >= old(conn.nextKey)
      ensures key.Some? ==> out.Normal? && Id(e) == key.value && key.value >= old(conn.nextKey)
      ensures key.Some? ==>
        && M.Table(k) in conn.tables && conn.tables[M.Table(k)] != [] && Store.AllBound(bound, |M.Columns(k)|)
        && Last(conn.tables[M.Table(k)]) == R.StoredRow(k, key.value, bound) && BoundFor(e, bound)
      ensures key.None? && (e.AFluid? || e.ABuilding?) ==> Id(e) == old(Id(e)) && conn.tables == old(conn.tables)
    {
      key := None;
      var b;
      out, b := Dehydrate(e, depth);
      bound := b;
      if out.Thrown? {
        return;
      }
      var generated := StoreRow(k, e, sql, b);
      key := generated;
    }

    /**
     * `Manager.update(entity)`: nothing for null; otherwise prepare the
     * UPDATE for the entity's id as it is before `dehydrate` runs, bind the
     * columns (saving what the entity refers to first) and run it; `ok`
     * tells whether it ran. Update itself never changes the entity's id.
     */
    method Update(k: M.Kind, e: Entity, depth: nat) returns (out: Outcome, ghost ok: bool, ghost bound: Store.Bindings)
      requires Valid() && Tracked(e) && OfKind(e, k)
      modifies this, conn, (set s | s in sensors && s.values.None?)`values, (set v | v in values && v.sensor == null)`sensor
      modifies (set s | s in sensors && s.id == 0)`id, (set v | v in values && v.id == 0)`id
      modifies (set f | f in fluids && f.id == 0)`id, (set x | x in buildings && x.id == 0)`id
      decreases depth, 0
      ensures Valid() && Grown() && conn.nextKey >= old(conn.nextKey)
      ensures e.Null? ==> out == Normal && !ok && conn.tables == old(conn.tables)
      ensures !e.Null? && depth == 0 ==> out == Thrown(StackOverflow) && !ok
      ensures ok ==>
        && out.Normal? && M.Table(k) in conn.tables && Store.AllBound(bound, |M.Columns(k)|)
        && Store.RowsHold(conn.tables[M.Table(k)], old(Id(e)), Store.Assign(M.Columns(k), bound)) && BoundFor(e, bound)
      ensures e.AFluid? || e.ABuilding? ==> Id(e) == old(Id(e))
    {
      ok := false;
      bound := map[];
      if e.Null? {
        return Normal, ok, bound;
      }
      if depth == 0 {
        return Thrown(StackOverflow), ok, bound;
      }
      var id := Id(e);
      var sql := M.UpdateSql(M.Table(k), M.Columns(k), id);
      var prepared := conn.Prepare(sql);
      if !prepared {
        return Normal, ok, bound;
      }
      out, ok, bound := RunUpdate(k, e, depth - 1, sql);
    }

    /** The body of `update`'s try block, on a prepared statement: `dehydrate`, then `executeUpdate`. */
    method RunUpdate(k: M.Kind, e: Entity, depth: nat, sql: string) returns (out: Outcome, ghost ok: bool, ghost bound: Store.Bindings)
      requires Valid() && Tracked(e) && OfKind(e, k) && !e.Null?
      modifies this, conn, (set s | s in sensors && s.values.None?)`values, (set v | v in values && v.sensor == null)`sensor
      modifies (set s | s in sensors && s.id == 0)`id, (set v | v in values && v.id == 0)`id
      modifies (set f | f in fluids && f.id == 0)`id, (set x | x in buildings && x.id == 0)`id
      decreases depth, 5
      ensures Valid() && Grown() && conn.nextKey >= old(conn.nextKey)
      ensures ok ==>
        && out.Normal? && M.Table(k) in conn.tables && Store.AllBound(bound, |M.Columns(k)|)
        && Store.RowsHold(conn.tables[M.Table(k)], old(Id(e)), Store.Assign(M.Columns(k), bound)) && BoundFor(e, bound)
      ensures e.AFluid? || e.ABuilding? ==> Id(e) == old(Id(e))
    {
      ok := false;
      var id := Id(e);
      var b;
      out, b := Dehydrate(e, depth);
      bound := b;
      if out.Thrown? {
        return;
      }
      ghost var before := conn.tables;
      ok := conn.ExecuteUpdate(sql, M.Table(k), id, M.Columns(k), b);
      if ok {
        Store.UpdateRowsHold(before[M.Table(k)], id, Store.Assign(M.Columns(k), b));
      }
    }

    /** `executeUpdate` of the bound INSERT, then `setId` with the generated key when there is one. */
    method StoreRow(k: M.Kind, e: Entity, sql: string, b: Store.Bindings) returns (key: Option<int>)
      requires conn.Valid() && !e.Null? && OfKind(e, k)
      modifies conn
      modifies (if e.ASensor? then {e.sensor} else {})`id, (if e.AValue? then {e.value} else {})`id
      modifies (if e.AFluid? then {e.fluid} else {})`id, (if e.ABuilding? then {e.building} else {})`id
      ensures conn.Valid() && conn.nextKey >= old(conn.nextKey)
      ensures key.Some? ==> Id(e) == key.value && key.value == old(conn.nextKey)
      ensures key.Some? ==>
        && M.Table(k) in conn.tables && conn.tables[M.Table(k)] != [] && Store.AllBound(b, |M.Columns(k)|)
        && Last(conn.tables[M.Table(k)]) == R.StoredRow(k, key.value, b)
      ensures key.None? ==> Id(e) == old(Id(e)) && conn.tables == old(conn.tables)
      ensures old(BoundFor(e, b)) ==> BoundFor(e, b)
    {
      key := conn.ExecuteInsert(sql, M.Table(k), M.Columns(k), b);
      if key.Some? {
        match e {
          case ABuilding(x) => x.SetId(key.value);
          case AFluid(x) => x.SetId(key.value);
          case ASensor(x) => x.SetId(key.value);
          case AValue(x) => x.SetId(key.value);
        }
      }
    }

    /**
     * `dehydrate(pst, entity)` of manager `k`: the parameters bound for
     * the entity, after saving the entities it refers to.
     */
    method Dehydrate(e: Entity, depth: nat) returns (out: Outcome, b: Store.Bindings)
      requires Valid() && Tracked(e) && !e.Null?
      modifies this, conn, (set s | s in sensors && s.values.None?)`values, (set v | v in values && v.sensor == null)`sensor
      modifies (set s | s in sensors && s.id == 0)`id, (set v | v in values && v.id == 0)`id
      modifies (set f | f in fluids && f.id == 0)`id, (set x | x in buildings && x.id == 0)`id
      decreases depth, 4
      ensures Valid() && Grown() && conn.nextKey >= old(conn.nextKey)
      ensures out.Normal? ==> BoundFor(e, b)
      ensures e.AFluid? || e.ABuilding? ==> out.Normal? && Id(e) == old(Id(e)) && unchanged(conn) && unchanged(this)
    {
      match e {
        case ABuilding(x) =>
          return Normal, R.BuildingBindings(x.name);
        case AFluid(x) =>
          return Normal, R.FluidBindings(x.fluidType);
        case ASensor(x) =>
          out, b := DehydrateSensor(x, depth);
        case AValue(x) =>
          out, b := DehydrateValue(x, depth);
      }
    }

    /**
     * `SensorManager.dehydrate`: name, floor and place at 1 to 3; the
     * fluid, inserted when its id is 0 and updated otherwise, by id at 4
     * (NULL for none); the building likewise at 5; the thresholds at 6 and
     * 7; then every reading of `getValues()` whose id is 0 is inserted.
     */
    method DehydrateSensor(s: E.Sensor, depth: nat) returns (out: Outcome, b: Store.Bindings)
      requires Valid() && s in sensors
      modifies this, conn, (set s | s in sensors && s.values.None?)`values, (set v | v in values && v.sensor == null)`sensor
      modifies (set s | s in sensors && s.id == 0)`id, (set v | v in values && v.id == 0)`id
      modifies (set f | f in fluids && f.id == 0)`id, (set x | x in buildings && x.id == 0)`id
      decreases depth, 3
      ensures Valid() && Grown() && conn.nextKey >= old(conn.nextKey)
      ensures out.Normal? ==> BoundFor(ASensor(s), b)
      ensures out.Normal? && s.fluid != null && old(s.fluid.id) != 0 ==> b[4] == Store.SqlInt(old(s.fluid.id))
      ensures out.Normal? && s.building != null && old(s.building.id) != 0 ==> b[5] == Store.SqlInt(old(s.building.id))
    {
      out, b := BindSensor(s, depth);
      if out.Normal? {
        out := SaveReadings(s, depth);
      }
    }

    /** Positions 1 to 7 of `SensorManager.dehydrate`, saving the fluid and the building on the way. */
    method BindSensor(s: E.Sensor, depth: nat) returns (out: Outcome, b: Store.Bindings)
      requires Valid() && s in sensors
      modifies this, conn, (set s | s in sensors && s.values.None?)`values, (set v | v in values && v.sensor == null)`sensor
      modifies (set s | s in sensors && s.id == 0)`id, (set v | v in values && v.id == 0)`id
      modifies (set f | f in fluids && f.id == 0)`id, (set x | x in buildings && x.id == 0)`id
      decreases depth, 2
      ensures Valid() && Grown() && conn.nextKey >= old(conn.nextKey)
      ensures out.Normal? ==> BoundFor(ASensor(s), b)
      ensures out.Normal? && s.fluid != null && old(s.fluid.id) != 0 ==> b[4] == Store.SqlInt(old(s.fluid.id))
      ensures out.Normal? && s.building != null && old(s.building.id) != 0 ==> b[5] == Store.SqlInt(old(s.building.id))
    {
      b := map[];
      var fluidRef, buildingRef := Store.SqlNull, Store.SqlNull;
      if s.fluid != null {
        out, fluidRef := SaveFluid(s.fluid, depth);
        if out.Thrown? {
          return;
        }
      }
      if s.building != null {
        out, buildingRef := SaveBuilding(s.building, depth);
        if out.Thrown? {
          return;
        }
      }
      b := R.SensorBindings(s.name, s.floor, s.place, fluidRef, buildingRef, s.minThreshold, s.maxThreshold);
      out := Normal;
    }

    /** The end of `SensorManager.dehydrate`: `getValues()`, then the readings whose id is 0 are inserted. */
    method SaveReadings(s: E.Sensor, depth: nat) returns (out: Outcome)
      requires Valid() && s in sensors
      modifies this, conn, (set s | s in sensors && s.values.None?)`values, (set v | v in values && v.sensor == null)`sensor
      modifies (set s | s in sensors && s.id == 0)`id, (set v | v in values && v.id == 0)`id
      modifies (set f | f in fluids && f.id == 0)`id, (set x | x in buildings && x.id == 0)`id
      decreases depth, 2
      ensures Valid() && Grown() && conn.nextKey >= old(conn.nextKey)
      ensures s.values.Some? && null in s.values.value ==> out.Thrown?
    {
      var list;
      ghost var found, made, ran;
      list, found, made, ran := GetValues(s);
      out := Normal;
      if list.Some? {
        out := InsertTransient(list.value, depth);
      }
    }

    /** The fluid of a sensor being saved: inserted when its id is 0, updated otherwise; then its id. */
    method SaveFluid(f: E.Fluid, depth: nat) returns (out: Outcome, ref: Store.SqlValue)
      requires Valid() && f in fluids
      modifies this, conn, (set s | s in sensors && s.values.None?)`values, (set v | v in values && v.sensor == null)`sensor
      modifies (set s | s in sensors && s.id == 0)`id, (set v | v in values && v.id == 0)`id
      modifies (set f | f in fluids && f.id == 0)`id, (set x | x in buildings && x.id == 0)`id
      decreases depth, 1
      ensures Valid() && Grown() && conn.nextKey >= old(conn.nextKey)
      ensures out.Normal? ==> ref == Store.SqlInt(f.id)
      ensures out.Normal? && old(f.id) != 0 ==> f.id == old(f.id)
      ensures out.Normal? && old(f.id) == 0 ==> f.id == 0 || f.id >= old(conn.nextKey)
    {
      ghost var key, ok, bound;
      if f.id == 0 {
        out, key, bound := Insert(M.FluidKind, AFluid(f), depth);
      } else {
        out, ok, bound := Update(M.FluidKind, AFluid(f), depth);
      }
      ref := Store.SqlInt(f.id);
    }

    /** The building of a sensor being saved: inserted when its id is 0, updated otherwise; then its id. */
    method SaveBuilding(x: E.Building, depth: nat) returns (out: Outcome, ref: Store.SqlValue)
      requires Valid() && x in buildings
      modifies this, conn, (set s | s in sensors && s.values.None?)`values, (set v | v in values && v.sensor == null)`sensor
      modifies (set s | s in sensors && s.id == 0)`id, (set v | v in values && v.id == 0)`id
      modifies (set f | f in fluids && f.id == 0)`id, (set x | x in buildings && x.id == 0)`id
      decreases depth, 1
      ensures Valid() && Grown() && conn.nextKey >= old(conn.nextKey)
      ensures out.Normal? ==> ref == Store.SqlInt(x.id)
      ensures out.Normal? && old(x.id) != 0 ==> x.id == old(x.id)
      ensures out.Normal? && old(x.id) == 0 ==> x.id == 0 || x.id >= old(conn.nextKey)
    {
      ghost var key, ok, bound;
      if x.id == 0 {
        out, key, bound := Insert(M.BuildingKind, ABuilding(x), depth);
      } else {
        out, ok, bound := Update(M.BuildingKind, ABuilding(x), depth);
      }
      ref := Store.SqlInt(x.id);
    }

    /**
     * The `forEach` of `SensorManager.dehydrate`: each reading whose id is
     * 0 is inserted; persisted readings are left alone; a null element
     * throws NullPointerException.
     */
    method InsertTransient(list: seq<E.Value?>, depth: nat) returns (out: Outcome)
      requires Valid() && forall i :: 0 <= i < |list| && list[i] != null ==> list[i] in values
      modifies this, conn, (set s | s in sensors && s.values.None?)`values, (set v | v in values && v.sensor == null)`sensor
      modifies (set s | s in sensors && s.id == 0)`id, (set v | v in values && v.id == 0)`id
      modifies (set f | f in fluids && f.id == 0)`id, (set x | x in buildings && x.id == 0)`id
      decreases depth, 1
      ensures Valid() && Grown() && conn.nextKey >= old(conn.nextKey)
      ensures null in list ==> out.Thrown?
    {
      var i := 0;
      while i < |list|
        invariant 0 <= i <= |list|
        invariant Valid() && Grown() && conn.nextKey >= old(conn.nextKey)
        invariant forall j :: 0 <= j < |list| && list[j] != null ==> list[j] in values
        invariant null !in list[..i]
      {
        var v := list[i];
        if v == null {
          return Thrown(NullPointer);
        }
        if v.id == 0 {
          ghost var key, bound;
          out, key, bound := Insert(M.ValueKind, AValue(v), depth);
          if out.Thrown? {
            return;
          }
        }
        i := i + 1;
      }
      out := Normal;
    }

    /**
     * `ValueManager.dehydrate`: the reading and its instant at 1 and 2;
     * the sensor of `getSensor()`, inserted when its id is 0 and updated
     * otherwise, by id at 3 (NULL for none).
     */
    method DehydrateValue(v: E.Value, depth: nat) returns (out: Outcome, b: Store.Bindings)
      requires Valid() && v in values
      modifies this, conn, (set s | s in sensors && s.values.None?)`values, (set v | v in values && v.sensor == null)`sensor
      modifies (set s | s in sensors && s.id == 0)`id, (set v | v in values && v.id == 0)`id
      modifies (set f | f in fluids && f.id == 0)`id, (set x | x in buildings && x.id == 0)`id
      decreases depth, 2
      ensures Valid() && Grown() && conn.nextKey >= old(conn.nextKey)
      ensures out.Normal? ==> BoundFor(AValue(v), b)
      ensures out.Normal? && old(v.sensor) != null && old(v.sensor.id) != 0 ==> b[3] == Store.SqlInt(old(v.sensor.id))
    {
      b := map[];
      var sensor;
      ghost var ran;
      sensor, ran := GetSensor(v);
      if sensor.Throw? {
        return Thrown(sensor.exception), b;
      }
      var sensorRef := Store.SqlNull;
      if sensor.value != null {
        ghost var key, ok, bound;
        if sensor.value.id == 0 {
          out, key, bound := Insert(M.SensorKind, ASensor(sensor.value), depth);
        } else {
          out, ok, bound := Update(M.SensorKind, ASensor(sensor.value), depth);
        }
        if out.Thrown? {
          return;
        }
        sensorRef := Store.SqlInt(sensor.value.id);
      }
      b := R.ValueBindings(v.value, v.dateTime, sensorRef);
      out := Normal;
    }

    /**
     * `Manager.delete(entity)`: nothing for null; otherwise run
     * `DELETE FROM t WHERE id=<id>` and, when it succeeds, reset the id to 0.
     */
    method Delete(k: M.Kind, e: Entity) returns (ghost ok: bool)
      requires Valid() && Tracked(e) && OfKind(e, k)
      modifies conn, Objects(e)
      ensures conn.Valid()
      ensures e.Null? ==> !ok && conn.tables == old(conn.tables)
      ensures ok ==> Id(e) == 0 && M.Table(k) in old(conn.tables)
      ensures ok ==> conn.tables == old(conn.tables)[M.Table(k) := Store.RemoveRow(old(conn.tables)[M.Table(k)], old(Id(e)))]
      ensures !ok ==> Id(e) == old(Id(e)) && conn.tables == old(conn.tables)
    {
      ok := false;
      if e.Null? {
        return;
      }
      var sql := M.DeleteSql(M.Table(k), Id(e));
      var created := conn.Prepare(sql);
      if !created {
        return;
      }
      var done := conn.ExecuteDelete(sql, M.Table(k), Id(e));
      ok := done;
      if done {
        match e {
          case ABuilding(b) => b.SetId(0);
          case AFluid(f) => f.SetId(0);
          case ASensor(s) => s.SetId(0);
          case AValue(v) => v.SetId(0);
        }
      }
    }
  }
}
