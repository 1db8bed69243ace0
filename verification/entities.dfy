/**
 * The persisted entities: buildings, fluids (a kind of metered resource),
 * sensors and their readings. A lazy proxy (`SensorProxy`, `ValueProxy`) is
 * the same object as its entity, flagged by `isProxy`; the loaders that
 * make it lazy need the database and live beside the managers.
 */
module Entities {
  import opened Wrappers
  import Identity
  import Store

  /** `Fluid.Type`: the four kinds of fluid, in declaration order. */
  datatype FluidType = EAU | ELECTRICITE | AIRCOMPRIME | TEMPERATURE

  /** Every fluid type, in declaration order. */
  const AllFluidTypes: seq<FluidType> := [EAU, ELECTRICITE, AIRCOMPRIME, TEMPERATURE]

  /** `getUnit()`: the unit readings of the fluid are expressed in. */
  function Unit(t: FluidType): string
  {
    match t
    case EAU => "m³"
    case ELECTRICITE => "kWh"
    case TEMPERATURE => "°C"
    case AIRCOMPRIME => "m³/h"
  }

  /** `Type.toString()`: the display label. */
  function Label(t: FluidType): string
  {
    match t
    case EAU => "EAU"
    case ELECTRICITE => "ÉLECTRICITÉ"
    case TEMPERATURE => "TEMPÉRATURE"
    case AIRCOMPRIME => "AIR COMPRIMÉ"
  }

  /** `name()`: the constant's identifier, which is what the database stores. */
  function Name(t: FluidType): string
  {
    match t
    case EAU => "EAU"
    case ELECTRICITE => "ELECTRICITE"
    case AIRCOMPRIME => "AIRCOMPRIME"
    case TEMPERATURE => "TEMPERATURE"
  }

  /** `Type.valueOf(s)`: null throws NullPointerException, a name that is no constant's throws IllegalArgumentException. */
  function ValueOf(s: Option<string>): (r: Result<FluidType>)
    ensures s.None? ==> r == Throw(NullPointer)
    ensures r.Ok? ==> s == Some(Name(r.value))
    ensures r.Throw? && s.Some? ==> r.exception == IllegalArgument
  {
    match s
    case None => Throw(NullPointer)
    case Some(name) =>
      if name == "EAU" then Ok(EAU)
      else if name == "ELECTRICITE" then Ok(ELECTRICITE)
      else if name == "AIRCOMPRIME" then Ok(AIRCOMPRIME)
      else if name == "TEMPERATURE" then Ok(TEMPERATURE)
      else Throw(IllegalArgument)
  }

  /** `valueOf(name())` gives the constant back, so the stored form of a type reads back as that type. */
  lemma ValueOfName(t: FluidType)
    ensures ValueOf(Some(Name(t))) == Ok(t)
  {
  }

  /** `valueOf` accepts exactly the four names. */
  lemma ValueOfAcceptsNames(s: string)
    ensures ValueOf(Some(s)).Ok? <==> exists t :: Name(t) == s
  {
    if exists t :: Name(t) == s {
      var t :| Name(t) == s;
      ValueOfName(t);
    }
  }

  /** The four units are distinct, so a unit identifies its fluid type. */
  lemma UnitInjective(a: FluidType, b: FluidType)
    ensures Unit(a) == Unit(b) ==> a == b
  {
  }

  /** The four labels are distinct. */
  lemma LabelInjective(a: FluidType, b: FluidType)
    ensures Label(a) == Label(b) ==> a == b
  {
  }

  /** The enumeration has exactly four constants. */
  lemma FourFluidTypes(t: FluidType)
    ensures t in AllFluidTypes && |AllFluidTypes| == 4
    ensures forall i, j :: 0 <= i < j < |AllFluidTypes| ==> AllFluidTypes[i] != AllFluidTypes[j]
  {
  }

  /** The thresholds a sensor of the fluid gets by default: (min, max). */
  function DefaultThresholds(t: FluidType): (r: (real, real))
  {
    match t
    case EAU => (0.0, 10.0)
    case ELECTRICITE => (10.0, 500.0)
    case TEMPERATURE => (17.0, 22.0)
    case AIRCOMPRIME => (0.0, 5.0)
  }

  /** For every fluid the default minimum is strictly below the default maximum. */
  lemma DefaultThresholdsOrdered(t: FluidType)
    ensures DefaultThresholds(t).0 < DefaultThresholds(t).1
  {
  }

  /** `isOutOfBounds`: strictly below the minimum or strictly above the maximum. */
  predicate OutOfBounds(x: real, min: real, max: real)
  {
    x < min || x > max
  }

  /** `compareTo` on the numbers: the sign of their difference. */
  function Compare(a: real, b: real): (r: int)
    ensures r == -1 || r == 0 || r == 1
    ensures r < 0 <==> a < b
    ensures r == 0 <==> a == b
    ensures r > 0 <==> a > b
  {
    var d := a - b;
    if d < 0.0 then -1 else if d > 0.0 then 1 else 0
  }

  class Building {
    var id: int
    var name: Option<string>

    /** `new Building()`: transient, without a name. */
    constructor ()
      ensures id == 0 && name == None
    {
      id := 0;
      name := None;
    }

    method SetId(i: int)
      modifies this`id
      ensures id == i
    {
      id := i;
    }

    method SetName(n: Option<string>)
      modifies this`name
      ensures name == n
    {
      name := n;
    }

    /** `toString()`: the name, possibly null. */
    function ToString(): (r: Option<string>)
      reads this
      ensures r == name
    {
      name
    }

    function Key(): Identity.EntityKey
      reads this
    {
      Identity.EntityKey(Identity.BuildingClass, id)
    }
  }

  class Fluid {
    var id: int
    var fluidType: FluidType

    /** `new Fluid(type)`: transient, of the given type. */
    constructor (t: FluidType)
      ensures id == 0 && fluidType == t
    {
      id := 0;
      fluidType := t;
    }

    method SetId(i: int)
      modifies this`id
      ensures id == i
    {
      id := i;
    }

    method SetType(t: FluidType)
      modifies this`fluidType
      ensures fluidType == t
    {
      fluidType := t;
    }

    /** `toString()`: the display label of the type. */
    function ToString(): (r: string)
      reads this
      ensures r == Label(fluidType)
    {
      Label(fluidType)
    }

    function Key(): Identity.EntityKey
      reads this
    {
      Identity.EntityKey(Identity.FluidClass, id)
    }
  }

  class Sensor {
    /** Whether this is a `SensorProxy`, whose values load on first access. */
    const isProxy: bool
    var id: int
    var name: Option<string>
    var floor: int
    var place: Option<string>
    var minThreshold: real
    var maxThreshold: real
    var fluid: Fluid?
    var building: Building?
    /** The readings; None is a null list, which a proxy loads on first access. */
    var values: Option<seq<Value?>>
    var lastValue: Value?

    /** `new Sensor()`: transient, every field null or zero. */
    constructor ()
      ensures !isProxy && id == 0 && name == None && floor == 0 && place == None
      ensures minThreshold == 0.0 && maxThreshold == 0.0
      ensures fluid == null && building == null && values == None && lastValue == null
    {
      isProxy := false;
      id, name, floor, place := 0, None, 0, None;
      minThreshold, maxThreshold := 0.0, 0.0;
      fluid, building, values, lastValue := null, null, None, null;
    }

    /** `new Sensor(fluid)`: transient, of that fluid, with the fluid's default thresholds. */
    constructor WithFluid(f: Fluid)
      ensures !isProxy && id == 0 && name == None && floor == 0 && place == None
      ensures (minThreshold, maxThreshold) == DefaultThresholds(f.fluidType)
      ensures fluid == f && building == null && values == None && lastValue == null
    {
      isProxy := false;
      id, name, floor, place := 0, None, 0, None;
      fluid, building, values, lastValue := f, null, None, null;
      new;
      SetDefaultThresholds(f);
    }

    /**
     * `new SensorProxy(id, fluid)`: the sensor of a stored row, of that
     * fluid, with the fluid's default thresholds and its values not loaded.
     */
    constructor Proxy(i: int, f: Fluid)
      ensures isProxy && id == i && name == None && floor == 0 && place == None
      ensures (minThreshold, maxThreshold) == DefaultThresholds(f.fluidType)
      ensures fluid == f && building == null && values == None && lastValue == null
    {
      isProxy := true;
      id, name, floor, place := 0, None, 0, None;
      fluid, building, values, lastValue := f, null, None, null;
      new;
      SetDefaultThresholds(f);
      SetId(i);
    }

    /** `setDefaultThresholds(fluid)`: the thresholds of the fluid's type. */
    method SetDefaultThresholds(f: Fluid)
      modifies this`minThreshold, this`maxThreshold
      ensures (minThreshold, maxThreshold) == DefaultThresholds(f.fluidType)
      ensures minThreshold < maxThreshold
    {
      match f.fluidType {
        case EAU =>
          minThreshold := 0.0;
          maxThreshold := 10.0;
        case ELECTRICITE =>
          minThreshold := 10.0;
          maxThreshold := 500.0;
        case TEMPERATURE =>
          minThreshold := 17.0;
          maxThreshold := 22.0;
        case AIRCOMPRIME =>
          minThreshold := 0.0;
          maxThreshold := 5.0;
      }
    }

    method SetId(i: int)
      modifies this`id
      ensures id == i
    {
      id := i;
    }

    method SetName(n: Option<string>)
      modifies this`name
      ensures name == n
    {
      name := n;
    }

    method SetFloor(f: int)
      modifies this`floor
      ensures floor == f
    {
      floor := f;
    }

    method SetPlace(p: Option<string>)
      modifies this`place
      ensures place == p
    {
      place := p;
    }

    method SetMinThreshold(t: real)
      modifies this`minThreshold
      ensures minThreshold == t
    {
      minThreshold := t;
    }

    method SetMaxThreshold(t: real)
      modifies this`maxThreshold
      ensures maxThreshold == t
    {
      maxThreshold := t;
    }

    method SetFluid(f: Fluid?)
      modifies this`fluid
      ensures fluid == f
    {
      fluid := f;
    }

    method SetBuilding(b: Building?)
      modifies this`building
      ensures building == b
    {
      building := b;
    }

    method SetValues(vs: Option<seq<Value?>>)
      modifies this`values
      ensures values == vs
    {
      values := vs;
    }

    method SetLastValue(v: Value?)
      modifies this`lastValue
      ensures lastValue == v
    {
      lastValue := v;
    }

    /** `toString()`: the name, possibly null. */
    function ToString(): (r: Option<string>)
      reads this
      ensures r == name
    {
      name
    }

    function Key(): Identity.EntityKey
      reads this
    {
      Identity.EntityKey(if isProxy then Identity.SensorProxyClass else Identity.SensorClass, id)
    }
  }

  class Value {
    /** Whether this is a `ValueProxy`, whose sensor loads on first access. */
    const isProxy: bool
    /** The stored sensor id a proxy loads its sensor from; 0 for a plain value. */
    const sensorId: int
    var id: int
    var value: real
    var dateTime: Option<Store.Timestamp>
    var sensor: Sensor?

    /** `new Value()`: transient, zero, without instant or sensor. */
    constructor ()
      ensures !isProxy && sensorId == 0
      ensures id == 0 && value == 0.0 && dateTime == None && sensor == null
    {
      isProxy, sensorId := false, 0;
      id, value, dateTime, sensor := 0, 0.0, None, null;
    }

    /** `new ValueProxy(sensorId)`: remembers the sensor's id and leaves the sensor unloaded. */
    constructor Proxy(sid: int)
      ensures isProxy && sensorId == sid
      ensures id == 0 && value == 0.0 && dateTime == None && sensor == null
    {
      isProxy, sensorId := true, sid;
      id, value, dateTime, sensor := 0, 0.0, None, null;
    }

    method SetId(i: int)
      modifies this`id
      ensures id == i
    {
      id := i;
    }

    method SetValue(x: real)
      modifies this`value
      ensures value == x
    {
      value := x;
    }

    method SetDateTime(t: Option<Store.Timestamp>)
      modifies this`dateTime
      ensures dateTime == t
    {
      dateTime := t;
    }

    method SetSensor(s: Sensor?)
      modifies this`sensor
      ensures sensor == s
    {
      sensor := s;
    }

    /** `isOutOfBounds(s)`: the reading against the thresholds of the sensor given, not its own. */
    function IsOutOfBounds(s: Sensor): bool
      reads this, s
    {
      OutOfBounds(value, s.minThreshold, s.maxThreshold)
    }

    /** `compareTo(v)`: -1, 0 or 1 by the sign of the difference of the two readings. */
    function CompareTo(v: Value): (r: int)
      reads this, v
      ensures r == -1 || r == 0 || r == 1
      ensures r < 0 <==> value < v.value
      ensures r == 0 <==> value == v.value
    {
      var d := value - v.value;
      if d < 0.0 then -1 else if d > 0.0 then 1 else 0
    }

    function Key(): Identity.EntityKey
      reads this
    {
      Identity.EntityKey(if isProxy then Identity.ValueProxyClass else Identity.ValueClass, id)
    }
  }

  /** A reading equal to either threshold is in bounds; one outside is out. */
  lemma OutOfBoundsIff(v: Value, s: Sensor)
    ensures v.IsOutOfBounds(s) <==> v.value < s.minThreshold || s.maxThreshold < v.value
    ensures s.minThreshold <= s.maxThreshold && (v.value == s.minThreshold || v.value == s.maxThreshold)
      ==> !v.IsOutOfBounds(s)
  {
  }

  /** Whether a reading is out of bounds depends only on the reading and the thresholds given. */
  lemma OutOfBoundsIgnoresOwnSensor(v: Value, w: Value, s: Sensor)
    requires v.value == w.value
    ensures v.IsOutOfBounds(s) == w.IsOutOfBounds(s)
  {
  }

  /** The bounds of a water sensor: 10 and 0 are in bounds, 10.5 and -1 are not. */
  lemma WaterBounds()
    ensures !OutOfBounds(10.0, 0.0, 10.0) && !OutOfBounds(0.0, 0.0, 10.0)
    ensures OutOfBounds(10.5, 0.0, 10.0) && OutOfBounds(-1.0, 0.0, 10.0)
  {
  }

  /** `compareTo` is antisymmetric and reflexive, and sees only the readings. */
  lemma CompareToLaws(a: Value, b: Value)
    ensures a.CompareTo(b) == -b.CompareTo(a)
    ensures a.CompareTo(a) == 0
    ensures a.CompareTo(b) == Compare(a.value, b.value)
  {
  }

  /** `compareTo` orders transitively. */
  lemma CompareToTransitive(a: Value, b: Value, c: Value)
    requires a.CompareTo(b) <= 0 && b.CompareTo(c) <= 0
    ensures a.CompareTo(c) <= 0
  {
  }
}
