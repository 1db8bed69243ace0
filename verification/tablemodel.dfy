/**
 * `SensorTableModel`: the rows of the real-time table, one sensor per row,
 * in the order the server announced them, and the six cells of each row.
 */
module Table {
  import opened Wrappers
  import E = Entities
  import Identity

  const ColumnNames: seq<string> := ["Nom", "Type", "Bâtiment", "Étage", "Lieu", "Valeur"]

  /** What `getValueAt` returns: one field of the row's sensor. */
  datatype CellValue =
    | NameCell(name: Option<string>)
    | FluidCell(fluid: E.Fluid?)
    | BuildingCell(building: E.Building?)
    | FloorCell(floor: int)
    | PlaceCell(place: Option<string>)
    | LastValueCell(lastValue: E.Value?)

  /** The runtime classes a cell can have; `Object` stands for the class reported for a null cell. */
  datatype ColumnClass = ObjectClass | StringClass | FluidClass | BuildingClass | IntegerClass | ValueClass | ValueProxyClass

  /** `value.getClass()`, with a null cell reported as `Object`. */
  function ClassOf(c: CellValue): ColumnClass
  {
    match c
    case NameCell(n) => if n.None? then ObjectClass else StringClass
    case FluidCell(f) => if f == null then ObjectClass else FluidClass
    case BuildingCell(b) => if b == null then ObjectClass else BuildingClass
    case FloorCell(_) => IntegerClass
    case PlaceCell(p) => if p.None? then ObjectClass else StringClass
    case LastValueCell(v) => if v == null then ObjectClass else if v.isProxy then ValueProxyClass else ValueClass
  }

  /** `getValueAt`'s switch on a sensor: columns 0 to 5, any other column rejected. */
  function SensorCell(s: E.Sensor, column: int): (r: Result<CellValue>)
    reads s
    ensures r.Throw? <==> !(0 <= column < |ColumnNames|)
    ensures r.Throw? ==> r.exception == IllegalArgument
    ensures column == 0 ==> r == Ok(NameCell(s.name))
    ensures column == 1 ==> r == Ok(FluidCell(s.fluid))
    ensures column == 2 ==> r == Ok(BuildingCell(s.building))
    ensures column == 3 ==> r == Ok(FloorCell(s.floor))
    ensures column == 4 ==> r == Ok(PlaceCell(s.place))
    ensures column == 5 ==> r == Ok(LastValueCell(s.lastValue))
  {
    if column == 0 then Ok(NameCell(s.name))
    else if column == 1 then Ok(FluidCell(s.fluid))
    else if column == 2 then Ok(BuildingCell(s.building))
    else if column == 3 then Ok(FloorCell(s.floor))
    else if column == 4 then Ok(PlaceCell(s.place))
    else if column == 5 then Ok(LastValueCell(s.lastValue))
    else Throw(IllegalArgument)
  }

  /** `sensor.equals(row)`, through `Entity.equals`. */
  predicate Same(s: E.Sensor, row: E.Sensor)
    reads s, row
  {
    Identity.Equals(s.Key(), Identity.Ent(row.Key()))
  }

  /** `indexOf(sensor)` on a list of rows: the first row equal to the sensor, or -1. */
  function IndexOf(rows: seq<E.Sensor>, s: E.Sensor): (r: int)
    reads rows, s
    ensures -1 <= r < |rows|
    ensures r == -1 <==> forall i :: 0 <= i < |rows| ==> !Same(s, rows[i])
    ensures r >= 0 ==> Same(s, rows[r]) && forall i :: 0 <= i < r ==> !Same(s, rows[i])
    decreases |rows|
  {
    if rows == [] then -1
    else if Same(s, rows[0]) then 0
    else
      var r := IndexOf(rows[1..], s);
      assert forall i :: 1 <= i < |rows| ==> rows[i] == rows[1..][i - 1];
      if r == -1 then -1 else r + 1
  }

  /** The number of rows equal to the sensor. */
  function Occurrences(rows: seq<E.Sensor>, s: E.Sensor): nat
    reads rows, s
  {
    if rows == [] then 0
    else Occurrences(rows[..|rows| - 1], s) + (if Same(s, rows[|rows| - 1]) then 1 else 0)
  }

  /** A sensor announced twice has two more rows equal to it. */
  lemma {:induction false} InsertedTwice(rows: seq<E.Sensor>, s: E.Sensor)
    ensures Occurrences(rows + [s] + [s], s) == Occurrences(rows, s) + 2
  {
    Identity.EqualsReflexive(s.Key());
    assert (rows + [s] + [s])[..|rows| + 1] == rows + [s];
    assert (rows + [s])[..|rows|] == rows;
  }

  /** Removing the row at an index takes exactly one occurrence of that row's sensor away. */
  lemma {:induction false} OccurrencesRemoved(rows: seq<E.Sensor>, i: int, s: E.Sensor)
    requires 0 <= i < |rows| && Same(s, rows[i])
    ensures Occurrences(rows[..i] + rows[i + 1..], s) == Occurrences(rows, s) - 1
    decreases |rows|
  {
    var last := |rows| - 1;
    if i == last {
      assert rows[..i] + rows[i + 1..] == rows[..last];
    } else {
      OccurrencesRemoved(rows[..last], i, s);
      assert rows[..last][..i] + rows[..last][i + 1..] == (rows[..i] + rows[i + 1..])[..last - 1];
      assert (rows[..i] + rows[i + 1..])[last - 1] == rows[last];
    }
  }

  /**
   * The rows once the first row equal to the sensor is dropped: the rows
   * before it and after it are kept in order, no row before it is equal,
   * and one equal row fewer remains.
   */
  function Removed(rows: seq<E.Sensor>, s: E.Sensor): (r: seq<E.Sensor>)
    reads rows, s
    requires IndexOf(rows, s) >= 0
    ensures var i := IndexOf(rows, s);
      && |r| == |rows| - 1 && r[..i] == rows[..i] && r[i..] == rows[i + 1..]
      && (forall j :: 0 <= j < i ==> !Same(s, r[j]))
      && Occurrences(r, s) == Occurrences(rows, s) - 1
  {
    var i := IndexOf(rows, s);
    OccurrencesRemoved(rows, i, s);
    assert forall j :: 0 <= j < i ==> (rows[..i] + rows[i + 1..])[j] == rows[j];
    rows[..i] + rows[i + 1..]
  }

  class SensorTableModel {
    /** The sensors, one per row. */
    var sensors: seq<E.Sensor>

    constructor ()
      ensures sensors == []
    {
      sensors := [];
    }

    /** `getRowCount()`. */
    function RowCount(): (n: nat)
      reads this
      ensures n == |sensors|
    {
      |sensors|
    }

    /** `getColumnCount()`: the six column names. */
    function ColumnCount(): (n: nat)
      ensures n == 6
    {
      |ColumnNames|
    }

    /** `getColumnName(column)`: an index outside the six names throws. */
    function ColumnName(column: int): (r: Result<string>)
      ensures r.Ok? <==> 0 <= column < 6
      ensures r.Ok? ==> r.value == ColumnNames[column]
    {
      if 0 <= column < |ColumnNames| then Ok(ColumnNames[column]) else Throw(IndexOutOfBounds)
    }

    /** `getValueAt(row, column)`: a row outside the list throws first, then an unknown column. */
    function ValueAt(row: int, column: int): (r: Result<CellValue>)
      reads this, sensors
      ensures !(0 <= row < |sensors|) ==> r == Throw(IndexOutOfBounds)
      ensures 0 <= row < |sensors| ==> r == SensorCell(sensors[row], column)
    {
      if 0 <= row < |sensors| then SensorCell(sensors[row], column) else Throw(IndexOutOfBounds)
    }

    /**
     * `getColumnClass(column)`: Object for an empty table, otherwise the
     * class of the first row's cell, or Object when that cell is null.
     */
    function GetColumnClass(column: int): (r: Result<ColumnClass>)
      reads this, sensors
      ensures sensors == [] ==> r == Ok(ObjectClass)
      ensures sensors != [] && !(0 <= column < 6) ==> r == Throw(IllegalArgument)
      ensures sensors != [] && 0 <= column < 6 ==> r == Ok(ClassOf(SensorCell(sensors[0], column).value))
    {
      if |sensors| == 0 then Ok(ObjectClass)
      else
        match ValueAt(0, column)
        case Throw(e) => Throw(e)
        case Ok(c) => Ok(ClassOf(c))
    }

    /** `getSensorAt(row)`: the sensor of that row. */
    function GetSensorAt(row: int): (r: Result<E.Sensor>)
      reads this
      ensures r.Ok? <==> 0 <= row < |sensors|
      ensures r.Ok? ==> r.value == sensors[row]
      ensures r.Throw? ==> r.exception == IndexOutOfBounds
    {
      if 0 <= row < |sensors| then Ok(sensors[row]) else Throw(IndexOutOfBounds)
    }

    /** `insert(sensor)`: the sensor becomes the last row, whether or not an equal row is there already. */
    method Insert(s: E.Sensor)
      modifies this
      ensures sensors == old(sensors) + [s]
      ensures Occurrences(sensors, s) == old(Occurrences(sensors, s)) + 1
    {
      sensors := sensors + [s];
      Identity.EqualsReflexive(s.Key());
      assert sensors[..|sensors| - 1] == old(sensors);
    }

    /**
     * `remove(sensor)`: the first row equal to the sensor is dropped and the
     * others keep their order. When no row is equal, the table's row
     * sorter rejects the view index of row -1.
     */
    method Remove(s: E.Sensor) returns (out: Outcome)
      modifies this
      ensures out.Thrown? <==> old(forall i :: 0 <= i < |sensors| ==> !Same(s, sensors[i]))
      ensures out.Thrown? ==> out.exception == IndexOutOfBounds && sensors == old(sensors)
      ensures out.Normal? ==> old(IndexOf(sensors, s)) >= 0 && sensors == old(Removed(sensors, s))
    {
      var i := IndexOf(sensors, s);
      if i == -1 {
        return Thrown(IndexOutOfBounds);
      }
      sensors := Removed(sensors, s);
      out := Normal;
    }

    /**
     * `update(sensor)`: the first row equal to the sensor is replaced by
     * it; a sensor with no equal row gives index -1, which the row sorter
     * rejects.
     */
    method Update(s: E.Sensor) returns (out: Outcome)
      modifies this
      ensures out.Thrown? <==> forall i :: 0 <= i < |old(sensors)| ==> !Same(s, old(sensors)[i])
      ensures out.Thrown? ==> out.exception == IndexOutOfBounds && sensors == old(sensors)
      ensures out.Normal? ==> sensors == old(sensors)[IndexOf(old(sensors), s) := s]
    {
      var i := IndexOf(sensors, s);
      if i == -1 {
        return Thrown(IndexOutOfBounds);
      }
      sensors := sensors[i := s];
      out := Normal;
    }
  }

  /**
   * A reconnected sensor is announced again and gets a second row; a
   * later `remove` drops only the first, so a row for the disconnected
   * sensor remains.
   */
  lemma ReconnectLeavesRow(rows: seq<E.Sensor>, s: E.Sensor)
    requires Occurrences(rows, s) >= 2
    ensures IndexOf(rows, s) >= 0
    ensures Occurrences(rows[..IndexOf(rows, s)] + rows[IndexOf(rows, s) + 1..], s) >= 1
  {
    if IndexOf(rows, s) == -1 {
      NoOccurrences(rows, s);
    }
    OccurrencesRemoved(rows, IndexOf(rows, s), s);
  }

  /** Without an equal row, nothing is counted. */
  lemma {:induction false} NoOccurrences(rows: seq<E.Sensor>, s: E.Sensor)
    requires forall i :: 0 <= i < |rows| ==> !Same(s, rows[i])
    ensures Occurrences(rows, s) == 0
  {
    if rows != [] {
      NoOccurrences(rows[..|rows| - 1], s);
    }
  }
}
