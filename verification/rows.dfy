/**
 * The managers' row mappings, apart from the objects they build: reading
 * a result row column by column (`hydrate`) into the data of a building,
 * fluid, sensor or reading, and the statement parameters `dehydrate`
 * binds.  A column that cannot be read raises an SQLException, which the
 * `hydrate` methods catch and turn into a null entity.
 */
module Rows {
  import opened Wrappers
  import Store
  import E = Entities
  import M = Managers

  /** The outcome of reading columns: their value, or an SQLException. */
  datatype Read<+T> = Got(value: T) | SqlError

  /** The column `<t>.<c>` of a result row, if the query returned it. */
  function Cell(row: Store.ResultRow, t: string, c: string): Option<Store.SqlValue>
  {
    if t in row && c in row[t] then Some(row[t][c]) else None
  }

  /** `rs.getInt("<t>.<c>")`: NULL reads as 0; a missing column or one of another kind raises SQLException. */
  function GetInt(row: Store.ResultRow, t: string, c: string): Read<int>
  {
    match Cell(row, t, c)
    case Some(SqlInt(i)) => Got(i)
    case Some(SqlNull) => Got(0)
    case _ => SqlError
  }

  /** `rs.getString(...)`: NULL reads as null. */
  function GetString(row: Store.ResultRow, t: string, c: string): Read<Option<string>>
  {
    match Cell(row, t, c)
    case Some(SqlString(s)) => Got(Some(s))
    case Some(SqlNull) => Got(None)
    case _ => SqlError
  }

  /** `rs.getDouble(...)`: NULL reads as 0. */
  function GetDouble(row: Store.ResultRow, t: string, c: string): Read<real>
  {
    match Cell(row, t, c)
    case Some(SqlDouble(d)) => Got(d)
    case Some(SqlNull) => Got(0.0)
    case _ => SqlError
  }

  /** `rs.getTimestamp(...)`: NULL reads as null. */
  function GetTimestamp(row: Store.ResultRow, t: string, c: string): Read<Option<Store.Timestamp>>
  {
    match Cell(row, t, c)
    case Some(SqlTimestamp(x)) => Got(Some(x))
    case Some(SqlNull) => Got(None)
    case _ => SqlError
  }

  datatype BuildingData = BuildingData(id: int, name: Option<string>)
  datatype FluidData = FluidData(id: int, fluidType: E.FluidType)
  datatype SensorData = SensorData(
    id: int, name: Option<string>, floor: int, place: Option<string>,
    minThreshold: real, maxThreshold: real, fluid: FluidData, building: Option<BuildingData>)
  datatype ValueData = ValueData(id: int, value: real, dateTime: Option<Store.Timestamp>, sensorId: int)

  /** `BuildingManager.hydrate`: `building.id` and `building.name`. */
  function ReadBuilding(row: Store.ResultRow): Read<BuildingData>
  {
    var t := M.Table(M.BuildingKind);
    var id, name := GetInt(row, t, "id"), GetString(row, t, "name");
    if id.Got? && name.Got? then Got(BuildingData(id.value, name.value)) else SqlError
  }

  /**
   * `FluidManager.hydrate`: `fluid.id`, then `Type.valueOf(fluid.type)`;
   * an SQLException gives null, while `valueOf` throws on a null or
   * unknown name and that exception escapes.
   */
  function ReadFluid(row: Store.ResultRow): Result<Option<FluidData>>
  {
    var t := M.Table(M.FluidKind);
    match GetInt(row, t, "id")
    case SqlError => Ok(None)
    case Got(id) =>
      match GetString(row, t, "type")
      case SqlError => Ok(None)
      case Got(name) =>
        match E.ValueOf(name)
        case Throw(e) => Throw(e)
        case Ok(ft) => Ok(Some(FluidData(id, ft)))
  }

  /** `ValueManager.hydrate`: id, value, date_time and sensor_id of the `value` table. */
  function ReadValue(row: Store.ResultRow): Read<ValueData>
  {
    var t := M.Table(M.ValueKind);
    var id, x, dt, sid := GetInt(row, t, "id"), GetDouble(row, t, "value"),
                          GetTimestamp(row, t, "date_time"), GetInt(row, t, "sensor_id");
    if id.Got? && x.Got? && dt.Got? && sid.Got? then Got(ValueData(id.value, x.value, dt.value, sid.value))
    else SqlError
  }

  /** The sensor table's own columns, read in the order `SensorManager.hydrate` reads them. */
  function ReadSensorColumns(row: Store.ResultRow): Read<(int, Option<string>, int, Option<string>, real, real)>
  {
    var t := M.Table(M.SensorKind);
    var id, name, floor := GetInt(row, t, "id"), GetString(row, t, "name"), GetInt(row, t, "floor");
    var place, mn, mx := GetString(row, t, "place"), GetDouble(row, t, "min_threshold"), GetDouble(row, t, "max_threshold");
    if id.Got? && name.Got? && floor.Got? && place.Got? && mn.Got? && mx.Got? then
      Got((id.value, name.value, floor.value, place.value, mn.value, mx.value))
    else SqlError
  }

  /**
   * `SensorManager.hydrate`: the sensor's own columns, then the fluid and
   * the building hydrated from the same joined row, then a `SensorProxy`
   * of that fluid; a null fluid makes the proxy's constructor throw
   * NullPointerException when it seeds the default thresholds.
   */
  function ReadSensor(row: Store.ResultRow): Result<Option<SensorData>>
  {
    match ReadSensorColumns(row)
    case SqlError => Ok(None)
    case Got((id, name, floor, place, mn, mx)) =>
      match ReadFluid(row)
      case Throw(e) => Throw(e)
      case Ok(fluid) =>
        var building := match ReadBuilding(row) case Got(b) => Some(b) case SqlError => None;
        match fluid
        case None => Throw(NullPointer)
        case Some(f) => Ok(Some(SensorData(id, name, floor, place, mn, mx, f, building)))
  }

  /** What the `hydrate` of one of the four managers reads from a row. */
  datatype Data =
    | BuildingD(building: BuildingData)
    | FluidD(fluid: FluidData)
    | SensorD(sensor: SensorData)
    | ValueD(value: ValueData)

  /** The kind of entity the data describes. */
  function DataKind(d: Data): M.Kind
  {
    match d
    case BuildingD(_) => M.BuildingKind
    case FluidD(_) => M.FluidKind
    case SensorD(_) => M.SensorKind
    case ValueD(_) => M.ValueKind
  }

  /** The id the data carries. */
  function DataId(d: Data): int
  {
    match d
    case BuildingD(b) => b.id
    case FluidD(f) => f.id
    case SensorD(s) => s.id
    case ValueD(v) => v.id
  }

  /**
   * `hydrate` of manager `k`: None where it returns null (an SQLException
   * while reading), `Throw` where an exception escapes it.
   */
  function ReadEntity(k: M.Kind, row: Store.ResultRow): (r: Result<Option<Data>>)
    ensures r.Ok? && r.value.Some? ==> DataKind(r.value.value) == k
    ensures r.Throw? ==> k == M.SensorKind || k == M.FluidKind
  {
    match k
    case BuildingKind =>
      (match ReadBuilding(row) case Got(b) => Ok(Some(BuildingD(b))) case SqlError => Ok(None))
    case FluidKind =>
      (match ReadFluid(row) case Throw(e) => Throw(e) case Ok(None) => Ok(None) case Ok(Some(f)) => Ok(Some(FluidD(f))))
    case SensorKind =>
      (match ReadSensor(row) case Throw(e) => Throw(e) case Ok(None) => Ok(None) case Ok(Some(s)) => Ok(Some(SensorD(s))))
    case ValueKind =>
      (match ReadValue(row) case Got(v) => Ok(Some(ValueD(v))) case SqlError => Ok(None))
  }

  /** An entity hydrated from a row carries the row's `id` column. */
  lemma ReadEntityId(k: M.Kind, row: Store.ResultRow, id: int)
    requires Cell(row, M.Table(k), "id") == Some(Store.SqlInt(id))
    requires ReadEntity(k, row).Ok? && ReadEntity(k, row).value.Some?
    ensures DataId(ReadEntity(k, row).value.value) == id
  {
  }

  /** A reading hydrated from a row carries the row's `sensor_id` column. */
  lemma ReadValueSensorId(row: Store.ResultRow, sensorId: int)
    requires Cell(row, M.Table(M.ValueKind), "sensor_id") == Some(Store.SqlInt(sensorId))
    requires ReadEntity(M.ValueKind, row).Ok? && ReadEntity(M.ValueKind, row).value.Some?
    ensures ReadEntity(M.ValueKind, row).value.value.value.sensorId == sensorId
  {
  }

  /** A sensor hydrated from a row carries the row's `name` column; a building likewise. */
  lemma ReadNamed(k: M.Kind, row: Store.ResultRow, name: string)
    requires k == M.SensorKind || k == M.BuildingKind
    requires Cell(row, M.Table(k), "name") == Some(Store.SqlString(name))
    requires ReadEntity(k, row).Ok? && ReadEntity(k, row).value.Some?
    ensures k == M.SensorKind ==> ReadEntity(k, row).value.value.sensor.name == Some(name)
    ensures k == M.BuildingKind ==> ReadEntity(k, row).value.value.building.name == Some(name)
  {
  }

  /** A fluid hydrated from a row has the type whose `name()` the `type` column holds. */
  lemma ReadFluidTyped(row: Store.ResultRow, name: string)
    requires Cell(row, M.Table(M.FluidKind), "type") == Some(Store.SqlString(name))
    requires ReadEntity(M.FluidKind, row).Ok? && ReadEntity(M.FluidKind, row).value.Some?
    ensures E.Name(ReadEntity(M.FluidKind, row).value.value.fluid.fluidType) == name
  {
  }

  /** `pst.setString(i, s)`: a null string binds SQL NULL. */
  function StringValue(s: Option<string>): Store.SqlValue
  {
    match s
    case None => Store.SqlNull
    case Some(x) => Store.SqlString(x)
  }

  /** `pst.setTimestamp(i, t)`: a null instant binds SQL NULL. */
  function TimestampValue(t: Option<Store.Timestamp>): Store.SqlValue
  {
    match t
    case None => Store.SqlNull
    case Some(x) => Store.SqlTimestamp(x)
  }

  /** `BuildingManager.dehydrate`: the name at position 1. */
  function BuildingBindings(name: Option<string>): Store.Bindings
  {
    map[1 := StringValue(name)]
  }

  /** `FluidManager.dehydrate`: the type's `name()` at position 1. */
  function FluidBindings(t: E.FluidType): Store.Bindings
  {
    map[1 := Store.SqlString(E.Name(t))]
  }

  /** `ValueManager.dehydrate`: the reading, its instant and the sensor reference at 1, 2 and 3. */
  function ValueBindings(x: real, dt: Option<Store.Timestamp>, sensorRef: Store.SqlValue): Store.Bindings
  {
    map[1 := Store.SqlDouble(x), 2 := TimestampValue(dt), 3 := sensorRef]
  }

  /** `SensorManager.dehydrate`: positions 1 to 7 in column order. */
  function SensorBindings(name: Option<string>, floor: int, place: Option<string>,
                          fluidRef: Store.SqlValue, buildingRef: Store.SqlValue, mn: real, mx: real): Store.Bindings
  {
    map[1 := StringValue(name), 2 := Store.SqlInt(floor), 3 := StringValue(place), 4 := fluidRef,
        5 := buildingRef, 6 := Store.SqlDouble(mn), 7 := Store.SqlDouble(mx)]
  }

  /** The row an INSERT of the manager stores under `key` for the bindings. */
  function StoredRow(k: M.Kind, key: int, b: Store.Bindings): Store.Row
    requires Store.AllBound(b, |M.Columns(k)|)
  {
    M.DeclarationsWellFormed(k);
    Store.Row(key, Store.Assign(M.Columns(k), b))
  }

  /** The columns of a stored row as a query on the manager's table returns them. */
  function Fetched(k: M.Kind, r: Store.Row): Store.ResultRow
  {
    Store.Qualify(M.Table(k), r)
  }

  /** Column `i` of a stored row, read back through a query on its table, is the value bound at `i + 1`. */
  lemma FetchedCell(k: M.Kind, key: int, b: Store.Bindings, i: nat, t: string, c: string)
    requires Store.AllBound(b, |M.Columns(k)|) && i < |M.Columns(k)|
    requires t == M.Table(k) && c == M.Columns(k)[i]
    ensures Cell(Fetched(k, StoredRow(k, key, b)), t, c) == Some(b[i + 1])
  {
    M.DeclarationsWellFormed(k);
    assert M.Columns(k)[i] != "id";
  }

  /** Every position of a manager's statement is bound by its dehydrate bindings. */
  lemma BindingsComplete(name: Option<string>, t: E.FluidType, x: real, dt: Option<Store.Timestamp>,
                         ref1: Store.SqlValue, ref2: Store.SqlValue, floor: int, place: Option<string>, mn: real, mx: real)
    ensures Store.AllBound(BuildingBindings(name), |M.Columns(M.BuildingKind)|)
    ensures Store.AllBound(FluidBindings(t), |M.Columns(M.FluidKind)|)
    ensures Store.AllBound(ValueBindings(x, dt, ref1), |M.Columns(M.ValueKind)|)
    ensures Store.AllBound(SensorBindings(name, floor, place, ref1, ref2, mn, mx), |M.Columns(M.SensorKind)|)
  {
  }

  /** A building written by `dehydrate` reads back by `hydrate` as the same name under the generated key. */
  lemma BuildingRoundTrip(key: int, name: Option<string>)
    ensures Store.AllBound(BuildingBindings(name), 1)
    ensures ReadBuilding(Fetched(M.BuildingKind, StoredRow(M.BuildingKind, key, BuildingBindings(name))))
         == Got(BuildingData(key, name))
  {
    FetchedCell(M.BuildingKind, key, BuildingBindings(name), 0, "building", "name");
  }

  /** A fluid written by `dehydrate` (its `name()`) reads back by `hydrate` (`valueOf`) as the same type. */
  lemma FluidRoundTrip(key: int, t: E.FluidType)
    ensures Store.AllBound(FluidBindings(t), 1)
    ensures ReadFluid(Fetched(M.FluidKind, StoredRow(M.FluidKind, key, FluidBindings(t)))) == Ok(Some(FluidData(key, t)))
  {
    FetchedCell(M.FluidKind, key, FluidBindings(t), 0, "fluid", "type");
    E.ValueOfName(t);
  }

  /** `setInt(i, id)` for a referenced entity, `setNull(i, INTEGER)` for none. */
  function SensorRef(id: Option<int>): Store.SqlValue
  {
    match id
    case None => Store.SqlNull
    case Some(i) => Store.SqlInt(i)
  }

  /**
   * A reading written by `dehydrate` reads back by `hydrate` with the same
   * number, instant and sensor id; a null sensor (bound as NULL) reads back
   * as sensor id 0.
   */
  lemma ValueRoundTrip(key: int, x: real, dt: Option<Store.Timestamp>, sensorId: Option<int>)
    ensures Store.AllBound(ValueBindings(x, dt, SensorRef(sensorId)), 3)
    ensures ReadValue(Fetched(M.ValueKind, StoredRow(M.ValueKind, key, ValueBindings(x, dt, SensorRef(sensorId)))))
         == Got(ValueData(key, x, dt, if sensorId.Some? then sensorId.value else 0))
  {
    ValueColumnsBack(key, ValueBindings(x, dt, SensorRef(sensorId)), x, dt, sensorId);
  }

  /** A stored reading's columns read back as the values bound at positions 1 to 3. */
  lemma ValueColumnsBack(key: int, b: Store.Bindings, x: real, dt: Option<Store.Timestamp>, sensorId: Option<int>)
    requires Store.AllBound(b, 3)
    requires b[1] == Store.SqlDouble(x) && b[2] == TimestampValue(dt) && b[3] == SensorRef(sensorId)
    ensures ReadValue(Fetched(M.ValueKind, StoredRow(M.ValueKind, key, b))) ==
      Got(ValueData(key, x, dt, if sensorId.Some? then sensorId.value else 0))
  {
    ValueCells(key, b);
    ReadValueOf(Fetched(M.ValueKind, StoredRow(M.ValueKind, key, b)), key, x, dt, sensorId);
  }

  lemma ValueCells(key: int, b: Store.Bindings)
    requires Store.AllBound(b, 3)
    ensures Cell(Fetched(M.ValueKind, StoredRow(M.ValueKind, key, b)), "value", "id") == Some(Store.SqlInt(key))
    ensures Cell(Fetched(M.ValueKind, StoredRow(M.ValueKind, key, b)), "value", "value") == Some(b[1])
    ensures Cell(Fetched(M.ValueKind, StoredRow(M.ValueKind, key, b)), "value", "date_time") == Some(b[2])
    ensures Cell(Fetched(M.ValueKind, StoredRow(M.ValueKind, key, b)), "value", "sensor_id") == Some(b[3])
  {
    FetchedCell(M.ValueKind, key, b, 0, "value", "value");
    FetchedCell(M.ValueKind, key, b, 1, "value", "date_time");
    FetchedCell(M.ValueKind, key, b, 2, "value", "sensor_id");
  }

  lemma ReadValueOf(row: Store.ResultRow, key: int, x: real, dt: Option<Store.Timestamp>, sensorId: Option<int>)
    requires Cell(row, "value", "id") == Some(Store.SqlInt(key))
    requires Cell(row, "value", "value") == Some(Store.SqlDouble(x))
    requires Cell(row, "value", "date_time") == Some(TimestampValue(dt))
    requires Cell(row, "value", "sensor_id") == Some(SensorRef(sensorId))
    ensures ReadValue(row) == Got(ValueData(key, x, dt, if sensorId.Some? then sensorId.value else 0))
  {
  }

  /** A query on one manager's table returns that table's columns only. */
  lemma FetchedKeys(k: M.Kind, r: Store.Row)
    ensures Fetched(k, r).Keys == {M.Table(k)}
  {
  }

  /**
   * A sensor row joined with its fluid's and its building's rows reads back,
   * through the two LEFT JOINs, as the sensor's own columns with that fluid
   * and that building; with the per-table round trips above, a sensor written
   * by `dehydrate` reads back with the fields, fluid and building it was
   * written with.
   */
  lemma SensorRoundTrip(s: Store.ResultRow, f: Store.ResultRow, b: Store.ResultRow,
                        columns: (int, Option<string>, int, Option<string>, real, real),
                        fluid: FluidData, building: BuildingData)
    requires s.Keys == {M.Table(M.SensorKind)} && f.Keys == {M.Table(M.FluidKind)} && b.Keys == {M.Table(M.BuildingKind)}
    requires ReadSensorColumns(s) == Got(columns)
    requires ReadFluid(f) == Ok(Some(fluid))
    requires ReadBuilding(b) == Got(building)
    ensures ReadSensor(s + f + b) == Ok(Some(SensorData(columns.0, columns.1, columns.2, columns.3, columns.4, columns.5,
                                                       fluid, Some(building))))
  {
    JoinedParts(s, f, b);
  }

  /** Each reader looks only at its own table's part of a joined row. */
  lemma JoinedParts(s: Store.ResultRow, f: Store.ResultRow, b: Store.ResultRow)
    requires s.Keys == {M.Table(M.SensorKind)} && f.Keys == {M.Table(M.FluidKind)} && b.Keys == {M.Table(M.BuildingKind)}
    ensures ReadSensorColumns(s + f + b) == ReadSensorColumns(s)
    ensures ReadFluid(s + f + b) == ReadFluid(f)
    ensures ReadBuilding(s + f + b) == ReadBuilding(b)
  {
    var row := s + f + b;
    assert row["sensor"] == s["sensor"];
    assert row["fluid"] == f["fluid"];
    assert row["building"] == b["building"];
  }

  /** A stored sensor's own columns read back as the values bound at positions 1, 2, 3, 6 and 7. */
  lemma SensorColumnsBack(key: int, b: Store.Bindings, name: Option<string>, floor: int, place: Option<string>,
                          mn: real, mx: real)
    requires Store.AllBound(b, 7)
    requires b[1] == StringValue(name) && b[2] == Store.SqlInt(floor) && b[3] == StringValue(place)
    requires b[6] == Store.SqlDouble(mn) && b[7] == Store.SqlDouble(mx)
    ensures ReadSensorColumns(Fetched(M.SensorKind, StoredRow(M.SensorKind, key, b))) ==
      Got((key, name, floor, place, mn, mx))
  {
    SensorCells(key, b);
    ReadSensorColumnsOf(Fetched(M.SensorKind, StoredRow(M.SensorKind, key, b)), key, name, floor, place, mn, mx);
  }

  lemma SensorCells(key: int, b: Store.Bindings)
    requires Store.AllBound(b, 7)
    ensures Cell(Fetched(M.SensorKind, StoredRow(M.SensorKind, key, b)), "sensor", "id") == Some(Store.SqlInt(key))
    ensures Cell(Fetched(M.SensorKind, StoredRow(M.SensorKind, key, b)), "sensor", "name") == Some(b[1])
    ensures Cell(Fetched(M.SensorKind, StoredRow(M.SensorKind, key, b)), "sensor", "floor") == Some(b[2])
    ensures Cell(Fetched(M.SensorKind, StoredRow(M.SensorKind, key, b)), "sensor", "place") == Some(b[3])
    ensures Cell(Fetched(M.SensorKind, StoredRow(M.SensorKind, key, b)), "sensor", "min_threshold") == Some(b[6])
    ensures Cell(Fetched(M.SensorKind, StoredRow(M.SensorKind, key, b)), "sensor", "max_threshold") == Some(b[7])
  {
    PlaceCells(key, b);
    ThresholdCells(key, b);
  }

  lemma PlaceCells(key: int, b: Store.Bindings)
    requires Store.AllBound(b, 7)
    ensures Cell(Fetched(M.SensorKind, StoredRow(M.SensorKind, key, b)), "sensor", "name") == Some(b[1])
    ensures Cell(Fetched(M.SensorKind, StoredRow(M.SensorKind, key, b)), "sensor", "floor") == Some(b[2])
    ensures Cell(Fetched(M.SensorKind, StoredRow(M.SensorKind, key, b)), "sensor", "place") == Some(b[3])
  {
    NameCells(key, b);
    FetchedCell(M.SensorKind, key, b, 2, "sensor", "place");
  }

  lemma NameCells(key: int, b: Store.Bindings)
    requires Store.AllBound(b, 7)
    ensures Cell(Fetched(M.SensorKind, StoredRow(M.SensorKind, key, b)), "sensor", "name") == Some(b[1])
    ensures Cell(Fetched(M.SensorKind, StoredRow(M.SensorKind, key, b)), "sensor", "floor") == Some(b[2])
  {
    FetchedCell(M.SensorKind, key, b, 0, "sensor", "name");
    FetchedCell(M.SensorKind, key, b, 1, "sensor", "floor");
  }

  lemma ThresholdCells(key: int, b: Store.Bindings)
    requires Store.AllBound(b, 7)
    ensures Cell(Fetched(M.SensorKind, StoredRow(M.SensorKind, key, b)), "sensor", "min_threshold") == Some(b[6])
    ensures Cell(Fetched(M.SensorKind, StoredRow(M.SensorKind, key, b)), "sensor", "max_threshold") == Some(b[7])
  {
    FetchedCell(M.SensorKind, key, b, 5, "sensor", "min_threshold");
    FetchedCell(M.SensorKind, key, b, 6, "sensor", "max_threshold");
  }

  lemma ReadSensorColumnsOf(row: Store.ResultRow, key: int, name: Option<string>, floor: int,
                            place: Option<string>, mn: real, mx: real)
    requires Cell(row, "sensor", "id") == Some(Store.SqlInt(key))
    requires Cell(row, "sensor", "name") == Some(StringValue(name))
    requires Cell(row, "sensor", "floor") == Some(Store.SqlInt(floor))
    requires Cell(row, "sensor", "place") == Some(StringValue(place))
    requires Cell(row, "sensor", "min_threshold") == Some(Store.SqlDouble(mn))
    requires Cell(row, "sensor", "max_threshold") == Some(Store.SqlDouble(mx))
    ensures ReadSensorColumns(row) == Got((key, name, floor, place, mn, mx))
  {
  }

  /**
   * A sensor stored without a fluid cannot be read back: the LEFT JOIN
   * leaves `fluid.type` NULL and `Type.valueOf(null)` throws
   * NullPointerException, which escapes every fetch of that sensor.
   */
  lemma SensorWithoutFluidThrows(sensorRow: Store.ResultRow)
    requires ReadSensorColumns(sensorRow).Got?
    ensures ReadSensor(sensorRow + Store.NullColumns(M.FluidJoin)) == Throw(NullPointer)
  {
    var row := sensorRow + Store.NullColumns(M.FluidJoin);
    assert ReadSensorColumns(row) == ReadSensorColumns(sensorRow) by {
      assert "sensor" in row <==> "sensor" in sensorRow;
      assert "sensor" in row ==> row["sensor"] == sensorRow["sensor"];
    }
    assert GetString(row, M.Table(M.FluidKind), "type") == Got(None);
  }

  /**
   * A sensor stored without a building reads back with a building anyway:
   * the LEFT JOIN's NULL columns read as id 0 and a null name, a transient
   * building that the next save of the sensor would insert.
   */
  lemma SensorWithoutBuildingReadsTransient(row: Store.ResultRow)
    requires ReadSensor(row + Store.NullColumns(M.BuildingJoin)).Ok?
    requires ReadSensor(row + Store.NullColumns(M.BuildingJoin)).value.Some?
    ensures ReadSensor(row + Store.NullColumns(M.BuildingJoin)).value.value.building == Some(BuildingData(0, None))
  {
    var full := row + Store.NullColumns(M.BuildingJoin);
    assert GetInt(full, M.Table(M.BuildingKind), "id") == Got(0);
    assert GetString(full, M.Table(M.BuildingKind), "name") == Got(None);
  }
}
