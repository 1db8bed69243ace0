/**
 * `DBWriter`: the interpreter of the lines the sensor server receives.
 * A line is split on spaces and its first word, in any case, chooses the
 * action: `connexion <name> <fluid>:<building>:<floor>:<place>` records a
 * sensor, `donnee <name> <value>` stores one of its readings and
 * `deconnexion <name>` takes its row out of the real-time table. What
 * `DBWriter` hands to the Swing thread with `invokeLater` is appended here
 * to a log of notices for the table model, in order.
 */
module Server {
  import opened Wrappers
  import JS = JavaStrings
  import E = Entities
  import Store
  import Q = Queries
  import M = Managers
  import R = Rows
  import P = Persistence
  import C = Container

  /** A call `invokeLater` schedules on the table model. */
  datatype Notice = InsertRow(sensor: E.Sensor) | UpdateRow(sensor: E.Sensor) | RemoveRow(sensor: E.Sensor)

  /** A line as `write` reads it: the action and its arguments, or nothing to do. */
  datatype Command =
    | ConnectLine(name: string, description: string)
    | DataLine(name: string, value: real)
    | DisconnectLine(name: string)
    | Ignored

  /**
   * The switch of `write` on the words of a line: `parts[0]` is read first
   * (an empty array throws), then the verb's arguments in order, then the
   * reading with `Double.valueOf`.
   */
  function Dispatch(parts: seq<string>, parseDouble: string -> Option<real>): (r: Result<Command>)
    ensures r.Throw? <==>
      || parts == []
      || (JS.ToLower(parts[0]) in {"connexion", "donnee"} && |parts| < 3)
      || (JS.ToLower(parts[0]) == "donnee" && |parts| >= 3 && parseDouble(parts[2]).None?)
    ensures r.Throw? ==> r.exception == (if parts != [] && |parts| >= 3 then NumberFormat else IndexOutOfBounds)
    ensures r == Ok(Ignored) <==>
      parts != [] && (JS.ToLower(parts[0]) !in {"connexion", "donnee", "deconnexion"} || (JS.ToLower(parts[0]) == "deconnexion" && |parts| < 2))
    ensures r.Ok? && r.value.ConnectLine? ==> |parts| >= 3 && r.value == ConnectLine(parts[1], parts[2])
    ensures r.Ok? && r.value.DataLine? ==> |parts| >= 3 && r.value.name == parts[1] && parseDouble(parts[2]) == Some(r.value.value)
    ensures r.Ok? && r.value.DisconnectLine? ==> |parts| >= 2 && r.value == DisconnectLine(parts[1])
  {
    if parts == [] then Throw(IndexOutOfBounds)
    else
      var verb := JS.ToLower(parts[0]);
      if verb == "connexion" then
        if |parts| < 3 then Throw(IndexOutOfBounds) else Ok(ConnectLine(parts[1], parts[2]))
      else if verb == "donnee" then
        if |parts| < 3 then Throw(IndexOutOfBounds)
        else match parseDouble(parts[2])
          case None => Throw(NumberFormat)
          case Some(x) => Ok(DataLine(parts[1], x))
      else if verb == "deconnexion" then
        if |parts| >= 2 then Ok(DisconnectLine(parts[1])) else Ok(Ignored)
      else Ok(Ignored)
  }

  /** `write(message)` up to the action: `message.split(" ")`, then the switch. */
  function Parse(message: string, parseDouble: string -> Option<real>): Result<Command>
  {
    Dispatch(JS.Split(message, ' '), parseDouble)
  }

  /** The verb is matched whatever its case: lowering it first changes nothing. */
  lemma VerbCaseInsensitive(parts: seq<string>, parseDouble: string -> Option<real>)
    requires parts != []
    ensures Dispatch(parts, parseDouble) == Dispatch([JS.ToLower(parts[0])] + parts[1..], parseDouble)
  {
    var lowered := [JS.ToLower(parts[0])] + parts[1..];
    JS.ToLowerIdempotent(parts[0]);
    assert lowered[1..] == parts[1..];
  }

  /** Fields without spaces joined by single spaces come back as the words of the line. */
  lemma WordsOf(words: seq<string>)
    requires |words| >= 2 && words[|words| - 1] != ""
    requires forall i :: 0 <= i < |words| ==> ' ' !in words[i]
    ensures JS.Split(JS.Join(words, " "), ' ') == words
  {
    JS.SplitJoin(words, ' ');
  }

  /** A well-formed `connexion` line is read back as its sensor name and description. */
  lemma ConnectLineRead(verb: string, name: string, description: string, parseDouble: string -> Option<real>)
    requires JS.ToLower(verb) == "connexion" && description != ""
    requires ' ' !in verb && ' ' !in name && ' ' !in description
    ensures Parse(JS.Join([verb, name, description], " "), parseDouble) == Ok(ConnectLine(name, description))
  {
    WordsOf([verb, name, description]);
  }

  /** A well-formed `donnee` line is read back as its sensor name and the parsed reading. */
  lemma DataLineRead(verb: string, name: string, literal: string, x: real, parseDouble: string -> Option<real>)
    requires JS.ToLower(verb) == "donnee" && literal != "" && parseDouble(literal) == Some(x)
    requires ' ' !in verb && ' ' !in name && ' ' !in literal
    ensures Parse(JS.Join([verb, name, literal], " "), parseDouble) == Ok(DataLine(name, x))
  {
    WordsOf([verb, name, literal]);
  }

  /** A well-formed `deconnexion` line is read back as its sensor name. */
  lemma DisconnectLineRead(verb: string, name: string, parseDouble: string -> Option<real>)
    requires JS.ToLower(verb) == "deconnexion" && name != ""
    requires ' ' !in verb && ' ' !in name
    ensures Parse(JS.Join([verb, name], " "), parseDouble) == Ok(DisconnectLine(name))
  {
    WordsOf([verb, name]);
  }

  /**
   * Empty words between two spaces are kept, so a doubled space after the
   * verb shifts the arguments: the sensor name read is empty and the
   * description read is the name.
   */
  lemma DoubledSpaceShiftsArguments(name: string, description: string, parseDouble: string -> Option<real>)
    requires name != "" && description != "" && ' ' !in name && ' ' !in description
    ensures Parse(JS.Join(["connexion", "", name, description], " "), parseDouble) == Ok(ConnectLine("", name))
  {
    WordsOf(["connexion", "", name, description]);
  }

  /** Trailing spaces are dropped: `deconnexion` followed by spaces only has one word and is ignored. */
  lemma TrailingSpacesIgnored(verb: string, spaces: nat, parseDouble: string -> Option<real>)
    requires JS.ToLower(verb) == "deconnexion" && ' ' !in verb
    ensures Parse(verb + seq(spaces, _ => ' '), parseDouble) == Ok(Ignored)
  {
    var line := verb + seq(spaces, _ => ' ');
    if spaces == 0 {
      assert line == verb;
      JS.SplitJoin([verb], ' ');
    } else {
      TrailingSeparators(verb, spaces, ' ');
    }
  }

  /** A word followed by separators only splits into that word alone. */
  lemma {:induction false} TrailingSeparators(word: string, n: nat, c: char)
    requires n > 0 && c !in word && word != ""
    ensures JS.Split(word + seq(n, _ => c), c) == [word]
  {
    var line := word + seq(n, _ => c);
    assert line[|word|] == c;
    var tail := seq(n - 1, _ => c);
    assert line == word + [c] + tail;
    JS.FieldsCons(word, tail, c);
    JS.OnlySeparatorsFields(tail, c);
    AllEmptyAfterWord(word, JS.Fields(tail, c));
  }

  /** Dropping the trailing empty strings after a non-empty word leaves the word. */
  lemma {:induction false} AllEmptyAfterWord(word: string, rest: seq<string>)
    requires word != "" && forall i :: 0 <= i < |rest| ==> rest[i] == ""
    ensures JS.DropTrailingEmpty([word] + rest) == [word]
    decreases |rest|
  {
    if rest != [] {
      var xs := [word] + rest;
      assert xs[..|xs| - 1] == [word] + rest[..|rest| - 1];
      AllEmptyAfterWord(word, rest[..|rest| - 1]);
    }
  }

  /**
   * The fields of a sensor description, `<fluid>:<building>:<floor>:<place>`,
   * as `connect` reads `parts[0]` to `parts[3]`: fewer than four throws.
   */
  function Describe(description: string): (r: Result<(string, string, string, string)>)
    ensures r.Ok? <==> |JS.Split(description, ':')| >= 4
    ensures r.Throw? ==> r.exception == IndexOutOfBounds
  {
    var parts := JS.Split(description, ':');
    if |parts| < 4 then Throw(IndexOutOfBounds) else Ok((parts[0], parts[1], parts[2], parts[3]))
  }

  /** A description written from four colon-free fields, the place not empty, is read back field for field. */
  lemma DescriptionRead(fluid: string, building: string, floor: string, place: string)
    requires place != "" && ':' !in fluid && ':' !in building && ':' !in floor && ':' !in place
    ensures Describe(JS.Join([fluid, building, floor, place], ":")) == Ok((fluid, building, floor, place))
  {
    JS.SplitJoin([fluid, building, floor, place], ':');
  }

  /**
   * An empty place is a trailing empty field: `split` drops it and the
   * description is one field short.
   */
  lemma EmptyPlaceThrows(fluid: string, building: string, floor: string)
    requires floor != "" && ':' !in fluid && ':' !in building && ':' !in floor
    ensures Describe(JS.Join([fluid, building, floor, ""], ":")) == Throw(IndexOutOfBounds)
  {
    var fields := [fluid, building, floor, ""];
    var s := JS.Join(fields, ":");
    assert fields[1..] == [building, floor, ""];
    assert s == fluid + ":" + JS.Join([building, floor, ""], ":");
    assert s[|fluid|] == ':';
    JS.JoinFields(fields, ':');
    assert JS.Split(s, ':') == JS.DropTrailingEmpty(fields);
    assert fields[..3] == [fluid, building, floor];
    assert JS.DropTrailingEmpty(fields) == JS.DropTrailingEmpty(fields[..3]) == fields[..3];
  }

  /** The four `mc.get` calls of the `DBWriter` constructor, in order. */
  method TakeManagers(mc: C.ManagerContainer) returns (s: C.Manager?, f: C.Manager?, b: C.Manager?, v: C.Manager?)
    requires mc.Valid()
    modifies mc`managers
    ensures mc.Valid()
    ensures s != null ==> s.kind == M.SensorKind && s.db == mc.db && M.SensorKind in mc.managers && mc.managers[M.SensorKind] == s
    ensures f != null ==> f.kind == M.FluidKind && f.db == mc.db && M.FluidKind in mc.managers && mc.managers[M.FluidKind] == f
    ensures b != null ==> b.kind == M.BuildingKind && b.db == mc.db && M.BuildingKind in mc.managers && mc.managers[M.BuildingKind] == b
    ensures v != null ==> v.kind == M.ValueKind && v.db == mc.db && M.ValueKind in mc.managers && mc.managers[M.ValueKind] == v
  {
    s := mc.Get(M.SensorKind);
    f := mc.Get(M.FluidKind);
    b := mc.Get(M.BuildingKind);
    v := mc.Get(M.ValueKind);
  }

  /** What `connect` writes into a sensor: every column but the id. */
  ghost function Described(s: E.Sensor): (Option<string>, int, Option<string>, E.Fluid?, E.Building?, real, real)
    reads s`name, s`floor, s`place, s`fluid, s`building, s`minThreshold, s`maxThreshold
  {
    (s.name, s.floor, s.place, s.fluid, s.building, s.minThreshold, s.maxThreshold)
  }

  /** The sensor `connect` builds for an unknown name, before it is saved. */
  method NewSensor(name: string, floor: int, place: string, fluid: E.Fluid, building: E.Building) returns (s: E.Sensor)
    ensures fresh(s) && !s.isProxy && s.values.None?
    ensures Described(s) == (Some(name), floor, Some(place), fluid, building, E.DefaultThresholds(fluid.fluidType).0, E.DefaultThresholds(fluid.fluidType).1)
  {
    s := new E.Sensor.WithFluid(fluid);
    s.SetName(Some(name));
    s.SetFloor(floor);
    s.SetPlace(Some(place));
    s.SetBuilding(building);
  }

  /** The fields of a reading that `data` sets and `insert` saves. */
  ghost function Reading(v: E.Value): (real, Option<Store.Timestamp>, E.Sensor?)
    reads v`value, v`dateTime, v`sensor
  {
    (v.value, v.dateTime, v.sensor)
  }

  /** The value `data` builds for a reading of a known sensor, before it is saved. */
  method NewValue(x: real, time: Store.Timestamp, s: E.Sensor) returns (v: E.Value)
    ensures fresh(v) && !v.isProxy && v.id == 0
    ensures Reading(v) == (x, Some(time), s)
  {
    v := new E.Value();
    v.SetValue(x);
    v.SetDateTime(Some(time));
    v.SetSensor(s);
  }

  class Writer {
    /** The database the managers work on. */
    const db: P.Database
    const sm: C.Manager?
    const fm: C.Manager?
    const bm: C.Manager?
    const vm: C.Manager?
    /** The calls scheduled on the table model, oldest first. */
    var notices: seq<Notice>

    /** A manager taken from the container: null, or of the kind asked for and on this database. */
    predicate Serves(m: C.Manager?, k: M.Kind)
    {
      m == null || (m.kind == k && m.db == db)
    }

    ghost predicate Valid()
      reads this, db, db.conn, db.sensors`fluid, db.sensors`building, db.sensors`values, db.values`sensor
    {
      && db.Valid()
      && Serves(sm, M.SensorKind) && Serves(fm, M.FluidKind) && Serves(bm, M.BuildingKind) && Serves(vm, M.ValueKind)
    }

    /**
     * The constructor: the four managers are asked of the container, which
     * creates those it does not hold yet; one that could not be created is
     * null.
     */
    constructor (mc: C.ManagerContainer)
      requires mc.Valid() && mc.db.Valid()
      modifies mc`managers
      ensures Valid() && db == mc.db && notices == []
      ensures mc.Valid()
      ensures sm != null ==> M.SensorKind in mc.managers && mc.managers[M.SensorKind] == sm
      ensures fm != null ==> M.FluidKind in mc.managers && mc.managers[M.FluidKind] == fm
      ensures bm != null ==> M.BuildingKind in mc.managers && mc.managers[M.BuildingKind] == bm
      ensures vm != null ==> M.ValueKind in mc.managers && mc.managers[M.ValueKind] == vm
    {
      var s, f, b, v := TakeManagers(mc);
      db, sm, fm, bm, vm := mc.db, s, f, b, v;
      notices := [];
    }

    /**
     * `sm.findBy("name", sensorName)`: the sensor stored under that name,
     * or null; `found` is what was read for it, and `ran` tells that the
     * lookup raised no SQLException.
     */
    method FindSensor(name: string) returns (r: Result<E.Sensor?>, ghost found: Option<R.SensorData>, ghost ran: bool)
      requires Valid()
      modifies db, db.conn`executed
      ensures Valid() && db.Grown() && db.conn.tables == old(db.conn.tables)
      ensures sm == null ==> r == Throw(NullPointer)
      ensures sm != null && ran ==> M.Table(M.SensorKind) in db.conn.tables
      ensures sm != null && ran ==> forall rows {:trigger P.FirstHydrated(P.SensorResult(r), M.SensorKind, rows)} ::
        P.FindByRows(db.conn.tables, M.SensorKind, "name", Q.PString(name)) == Some(rows) ==> P.FirstHydrated(P.SensorResult(r), M.SensorKind, rows)
      ensures sm != null && !ran ==> r == Ok(null)
      ensures r.Throw? || r.value == null ==> found.None?
      ensures r.Ok? && r.value != null ==>
        && found.Some? && found.value.name == Some(name)
        && fresh(r.value) && r.value in db.sensors && P.SensorHolds(r.value, found.value)
    {
      found, ran := None, false;
      if sm == null {
        return Throw(NullPointer), found, ran;
      }
      var e;
      ghost var row;
      e, row, ran := db.FindBy(M.SensorKind, "name", Q.PString(name));
      if e.Throw? {
        r := Throw(e.exception);
        assert P.SensorResult(r) == e;
        return r, found, ran;
      }
      if e.value.ASensor? {
        M.SearchColumns();
        R.ReadNamed(M.SensorKind, row, name);
        found := Some(R.ReadEntity(M.SensorKind, row).value.value.sensor);
      }
      r := Ok(P.AsSensor(e.value));
      assert P.SensorResult(r) == e;
    }

    /**
     * The fluid lookup of `connect`: the stored fluid whose type column
     * holds the name, or else a new unsaved fluid of the type the name
     * denotes (`Type.valueOf`, which rejects any other name). `row` is
     * the row the lookup read, `found` what it returned, and `ran` tells
     * that it raised no SQLException.
     */
    method FindOrCreateFluid(fluidType: string)
      returns (r: Result<E.Fluid>, ghost created: bool, ghost row: Store.ResultRow, ghost found: Result<P.Entity>, ghost ran: bool)
      requires Valid()
      modifies db, db.conn`executed
      ensures Valid() && db.Grown() && db.conn.tables == old(db.conn.tables)
      ensures fm == null ==> r == Throw(NullPointer)
      ensures fm != null && ran ==> M.Table(M.FluidKind) in db.conn.tables
      ensures fm != null && ran ==> forall rows {:trigger P.FirstHydrated(found, M.FluidKind, rows)} ::
        P.FindByRows(db.conn.tables, M.FluidKind, "type", Q.PString(fluidType)) == Some(rows) ==> P.FirstHydrated(found, M.FluidKind, rows)
      ensures fm != null && !ran ==> found == Ok(P.Null)
      ensures found.Ok? && found.value.AFluid? ==> r == Ok(found.value.fluid) && !created
      ensures found.Throw? ==> r == Throw(found.exception)
      ensures fm != null && found == Ok(P.Null) ==> created == r.Ok?
      ensures E.ValueOf(Some(fluidType)).Throw? ==> r.Throw?
      ensures r.Ok? ==> r.value in db.fluids && fresh(r.value) && E.Name(r.value.fluidType) == fluidType
      ensures r.Ok? && created ==> r.value.id == 0
      ensures r.Ok? && !created ==> R.Cell(row, M.Table(M.FluidKind), "type") == Some(Store.SqlString(fluidType))
    {
      created, row, found, ran := false, map[], Ok(P.Null), false;
      if fm == null {
        return Throw(NullPointer), created, row, found, ran;
      }
      var e;
      e, row, ran := db.FindBy(M.FluidKind, "type", Q.PString(fluidType));
      M.SearchColumns();
      found := e;
      if e.Throw? {
        return Throw(e.exception), created, row, found, ran;
      }
      if e.value.AFluid? {
        R.ReadFluidTyped(row, fluidType);
        E.ValueOfName(e.value.fluid.fluidType);
        return Ok(e.value.fluid), created, row, found, ran;
      }
      r := NewFluid(fluidType);
      created := r.Ok?;
    }

    /** `new Fluid(Type.valueOf(fluidType))`: a new unsaved fluid; a name that is not a type throws. */
    method NewFluid(fluidType: string) returns (r: Result<E.Fluid>)
      requires Valid()
      modifies db
      ensures Valid() && db.Grown()
      ensures r.Throw? <==> E.ValueOf(Some(fluidType)).Throw?
      ensures r.Ok? ==> r.value in db.fluids && fresh(r.value) && E.Name(r.value.fluidType) == fluidType && r.value.id == 0
    {
      var t := E.ValueOf(Some(fluidType));
      if t.Throw? {
        return Throw(t.exception);
      }
      var f := new E.Fluid(t.value);
      db.Track(P.AFluid(f));
      r := Ok(f);
    }

    /**
     * The building lookup of `connect`: the stored building with that name,
     * or else a new unsaved building given the name. `row` is the row the
     * lookup read, `found` what it returned, and `ran` tells that it raised
     * no SQLException.
     */
    method FindOrCreateBuilding(name: string)
      returns (r: Result<E.Building>, ghost created: bool, ghost row: Store.ResultRow, ghost found: Result<P.Entity>, ghost ran: bool)
      requires Valid()
      modifies db, db.conn`executed
      ensures Valid() && db.Grown() && db.conn.tables == old(db.conn.tables)
      ensures bm != null && ran ==> M.Table(M.BuildingKind) in db.conn.tables
      ensures bm != null && ran ==> forall rows {:trigger P.FirstHydrated(found, M.BuildingKind, rows)} ::
        P.FindByRows(db.conn.tables, M.BuildingKind, "name", Q.PString(name)) == Some(rows) ==> P.FirstHydrated(found, M.BuildingKind, rows)
      ensures bm != null && !ran ==> found == Ok(P.Null)
      ensures found.Ok? && found.value.ABuilding? ==> r == Ok(found.value.building) && !created
      ensures bm != null && found == Ok(P.Null) ==> created
      ensures r.Throw? <==> bm == null
      ensures r.Throw? ==> r.exception == NullPointer
      ensures r.Ok? ==> r.value in db.buildings && fresh(r.value) && r.value.name == Some(name)
      ensures r.Ok? && created ==> r.value.id == 0
      ensures r.Ok? && !created ==> R.Cell(row, M.Table(M.BuildingKind), "name") == Some(Store.SqlString(name))
    {
      created, row, found, ran := false, map[], Ok(P.Null), false;
      if bm == null {
        return Throw(NullPointer), created, row, found, ran;
      }
      var e;
      e, row, ran := db.FindBy(M.BuildingKind, "name", Q.PString(name));
      M.SearchColumns();
      found := e;
      if e.value.ABuilding? {
        R.ReadNamed(M.BuildingKind, row, name);
        return Ok(e.value.building), created, row, found, ran;
      }
      var b := NewBuilding(name);
      created := true;
      r := Ok(b);
    }

    /** `new Building()` given the name: a new unsaved building. */
    method NewBuilding(name: string) returns (b: E.Building)
      requires Valid()
      modifies db
      ensures Valid() && db.Grown()
      ensures b in db.buildings && fresh(b) && b.name == Some(name) && b.id == 0
    {
      b := new E.Building();
      b.SetName(Some(name));
      db.Track(P.ABuilding(b));
    }

    /**
     * `connect` on a sensor found by name: its floor, place, fluid and
     * building are replaced, then `sm.update(sensor)` saves it.
     */
    method SaveExisting(s: E.Sensor, floor: int, place: string, fluid: E.Fluid, building: E.Building, depth: nat)
      returns (out: Outcome)
      requires Valid() && sm != null && s in db.sensors && fluid in db.fluids && building in db.buildings
      modifies s`floor, s`place, s`fluid, s`building
      modifies db, db.conn, (set x | x in db.sensors && x.values.None?)`values, (set v | v in db.values && v.sensor == null)`sensor
      modifies (set x | x in db.sensors && x.id == 0)`id, (set v | v in db.values && v.id == 0)`id
      modifies (set f | f in db.fluids && f.id == 0)`id, (set b | b in db.buildings && b.id == 0)`id
      ensures Valid() && db.Grown() && s in db.sensors
      ensures Described(s) == (old(s.name), floor, Some(place), fluid, building, old(s.minThreshold), old(s.maxThreshold))
      ensures old(s.id) != 0 ==> s.id == old(s.id)
    {
      Relocate(s, floor, place, fluid, building);
      ghost var before := Described(s);
      out := UpdateSensor(s, depth);
      assert Described(s) == before;
    }

    /** The four setters `connect` calls on a sensor found by name. */
    method Relocate(s: E.Sensor, floor: int, place: string, fluid: E.Fluid, building: E.Building)
      requires Valid() && s in db.sensors && fluid in db.fluids && building in db.buildings
      modifies s`floor, s`place, s`fluid, s`building
      ensures Valid()
      ensures Described(s) == (s.name, floor, Some(place), fluid, building, s.minThreshold, s.maxThreshold)
    {
      s.SetFloor(floor);
      s.SetPlace(Some(place));
      s.SetFluid(fluid);
      s.SetBuilding(building);
    }

    /** `sm.update(sensor)`: a saved sensor keeps its id. */
    method UpdateSensor(s: E.Sensor, depth: nat) returns (out: Outcome)
      requires Valid() && sm != null && s in db.sensors
      modifies db, db.conn, (set x | x in db.sensors && x.values.None?)`values, (set v | v in db.values && v.sensor == null)`sensor
      modifies (set x | x in db.sensors && x.id == 0)`id, (set v | v in db.values && v.id == 0)`id
      modifies (set f | f in db.fluids && f.id == 0)`id, (set b | b in db.buildings && b.id == 0)`id
      ensures Valid() && db.Grown()
      ensures Described(s) == old(Described(s))
      ensures old(s.id) != 0 ==> s.id == old(s.id)
    {
      ghost var ok, bound;
      out, ok, bound := db.Update(M.SensorKind, P.ASensor(s), depth);
    }

    /**
     * `connect` on an unknown sensor name: a new sensor of the fluid, with
     * the fluid's default thresholds, the name, floor, place and building,
     * saved with `sm.insert(sensor)`.
     */
    method SaveNew(name: string, floor: int, place: string, fluid: E.Fluid, building: E.Building, depth: nat)
      returns (out: Outcome, s: E.Sensor, ghost key: Option<int>)
      requires Valid() && sm != null && fluid in db.fluids && building in db.buildings
      modifies db, db.conn, (set x | x in db.sensors && x.values.None?)`values, (set v | v in db.values && v.sensor == null)`sensor
      modifies (set x | x in db.sensors && x.id == 0)`id, (set v | v in db.values && v.id == 0)`id
      modifies (set f | f in db.fluids && f.id == 0)`id, (set b | b in db.buildings && b.id == 0)`id
      ensures Valid() && db.Grown() && fresh(s) && s in db.sensors
      ensures !s.isProxy && s.name == Some(name) && s.floor == floor && s.place == Some(place)
      ensures s.fluid == fluid && s.building == building
      ensures (s.minThreshold, s.maxThreshold) == E.DefaultThresholds(fluid.fluidType)
      ensures key.Some? ==> out.Normal? && s.id == key.value && key.value >= old(db.conn.nextKey)
    {
      s := NewSensor(name, floor, place, fluid, building);
      db.Track(P.ASensor(s));
      ghost var before := Described(s);
      out, key := InsertSensor(s, depth);
      assert Described(s) == before;
    }

    /** `sm.insert(sensor)`: the sensor gets the generated key when the row is stored. */
    method InsertSensor(s: E.Sensor, depth: nat) returns (out: Outcome, ghost key: Option<int>)
      requires Valid() && sm != null && s in db.sensors
      modifies db, db.conn, (set x | x in db.sensors && x.values.None?)`values, (set v | v in db.values && v.sensor == null)`sensor
      modifies (set x | x in db.sensors && x.id == 0)`id, (set v | v in db.values && v.id == 0)`id
      modifies (set f | f in db.fluids && f.id == 0)`id, (set b | b in db.buildings && b.id == 0)`id, s`id
      ensures Valid() && db.Grown()
      ensures Described(s) == old(Described(s))
      ensures key.Some? ==> out.Normal? && s.id == key.value && key.value >= old(db.conn.nextKey)
    {
      ghost var bound;
      out, key, bound := db.Insert(M.SensorKind, P.ASensor(s), depth);
    }

    /**
     * The three lookups of `connect`: the sensor by name (null when there
     * is none), then the fluid by type and the building by name, each
     * created when not found. Nothing is written to the tables.
     */
    method Resolve(name: string, fluidType: string, buildingName: string)
      returns (r: Result<(E.Sensor?, E.Fluid, E.Building)>, ghost found: Option<R.SensorData>)
      requires Valid() && sm != null
      modifies db, db.conn`executed
      ensures Valid() && db.Grown() && db.conn.tables == old(db.conn.tables)
      ensures E.ValueOf(Some(fluidType)).Throw? ==> r.Throw?
      ensures r.Ok? ==>
        && r.value.1 in db.fluids && E.Name(r.value.1.fluidType) == fluidType
        && r.value.2 in db.buildings && r.value.2.name == Some(buildingName)
      ensures r.Ok? && r.value.0 == null ==> found.None?
      ensures r.Ok? && r.value.0 != null ==>
        && found.Some? && found.value.name == Some(name)
        && fresh(r.value.0) && r.value.0 in db.sensors && P.SensorHolds(r.value.0, found.value)
    {
      var x;
      ghost var ran;
      x, found, ran := FindSensor(name);
      if x.Throw? {
        return Throw(x.exception), found;
      }
      var fluid, _, _, _, _ := FindOrCreateFluid(fluidType);
      if fluid.Throw? {
        return Throw(fluid.exception), found;
      }
      var building, _, _, _, _ := FindOrCreateBuilding(buildingName);
      if building.Throw? {
        return Throw(building.exception), found;
      }
      r := Ok((x.value, fluid.value, building.value));
    }

    /**
     * The save of `connect`: a sensor found by name is relocated and
     * updated, otherwise a new sensor is inserted.
     */
    method Save(known: E.Sensor?, name: string, floor: int, place: string, fluid: E.Fluid, building: E.Building, depth: nat)
      returns (out: Outcome, s: E.Sensor)
      requires Valid() && sm != null && fluid in db.fluids && building in db.buildings
      requires known != null ==> known in db.sensors && known.name == Some(name)
      modifies if known == null then {} else {known}`floor, if known == null then {} else {known}`place
      modifies if known == null then {} else {known}`fluid, if known == null then {} else {known}`building
      modifies db, db.conn, (set x | x in db.sensors && x.values.None?)`values, (set v | v in db.values && v.sensor == null)`sensor
      modifies (set x | x in db.sensors && x.id == 0)`id, (set v | v in db.values && v.id == 0)`id
      modifies (set f | f in db.fluids && f.id == 0)`id, (set b | b in db.buildings && b.id == 0)`id
      ensures Valid() && db.Grown() && s in db.sensors
      ensures s.name == Some(name) && s.floor == floor && s.place == Some(place) && s.fluid == fluid && s.building == building
      ensures known != null ==>
        && s == known && s.minThreshold == old(known.minThreshold) && s.maxThreshold == old(known.maxThreshold)
        && (old(known.id) != 0 ==> s.id == old(known.id))
      ensures known == null ==>
        fresh(s) && !s.isProxy && (s.minThreshold, s.maxThreshold) == E.DefaultThresholds(fluid.fluidType)
    {
      if known != null {
        s := known;
        out := SaveExisting(s, floor, place, fluid, building, depth);
      } else {
        ghost var key;
        out, s, key := SaveNew(name, floor, place, fluid, building, depth);
      }
    }

    /**
     * `connect(sensorName, description)`. The description is split on `:`
     * and its four fields read first; then the sensor is looked up by name,
     * the fluid by type and the building by name (each created when not
     * found); the floor is parsed; a known sensor is updated in place and
     * an unknown one inserted; last, the table model is told to insert a
     * row for the sensor, whether or not it already has one. `found` is
     * the stored sensor the lookup read, `saved` whether `update` or
     * `insert` was reached.
     */
    method Connect(name: string, description: string, parseInt: string -> Option<int>, depth: nat)
      returns (out: Outcome, ghost s: E.Sensor?, ghost found: Option<R.SensorData>, ghost saved: bool)
      requires Valid()
      modifies this`notices
      modifies db, db.conn, (set x | x in db.sensors && x.values.None?)`values, (set v | v in db.values && v.sensor == null)`sensor
      modifies (set x | x in db.sensors && x.id == 0)`id, (set v | v in db.values && v.id == 0)`id
      modifies (set f | f in db.fluids && f.id == 0)`id, (set b | b in db.buildings && b.id == 0)`id
      ensures Valid() && db.Grown()
      ensures Describe(description).Throw? ==> out == Thrown(IndexOutOfBounds) && unchanged(db, db.conn)
      ensures Describe(description).Ok? && E.ValueOf(Some(Describe(description).value.0)).Throw? ==> out.Thrown? && !saved
      ensures Describe(description).Ok? && parseInt(Describe(description).value.2).None? ==> out.Thrown? && !saved
      ensures !saved ==> db.conn.tables == old(db.conn.tables)
      ensures out.Thrown? ==> notices == old(notices)
      ensures out.Normal? ==> saved && s != null && s in db.sensors && notices == old(notices) + [InsertRow(s)]
      ensures out.Normal? ==>
        var (fluidType, buildingName, floor, place) := Describe(description).value;
        && s.name == Some(name) && parseInt(floor) == Some(s.floor) && s.place == Some(place)
        && s.fluid != null && E.Name(s.fluid.fluidType) == fluidType
        && s.building != null && s.building.name == Some(buildingName)
      ensures out.Normal? && found.Some? ==>
        && s.isProxy && found.value.name == Some(name)
        && s.minThreshold == found.value.minThreshold && s.maxThreshold == found.value.maxThreshold
        && (found.value.id != 0 ==> s.id == found.value.id)
      ensures out.Normal? && found.None? ==>
        !s.isProxy && (s.minThreshold, s.maxThreshold) == E.DefaultThresholds(s.fluid.fluidType)
    {
      var d := Describe(description);
      if d.Throw? {
        return Thrown(d.exception), null, None, false;
      }
      var (fluidType, buildingName, floor, place) := d.value;
      out, s, found, saved := Register(name, fluidType, buildingName, floor, place, parseInt, depth);
    }

    /** `connect` once the four fields of the description are read. */
    method Register(name: string, fluidType: string, buildingName: string, floor: string, place: string,
                    parseInt: string -> Option<int>, depth: nat)
      returns (out: Outcome, ghost s: E.Sensor?, ghost found: Option<R.SensorData>, ghost saved: bool)
      requires Valid()
      modifies this`notices
      modifies db, db.conn, (set x | x in db.sensors && x.values.None?)`values, (set v | v in db.values && v.sensor == null)`sensor
      modifies (set x | x in db.sensors && x.id == 0)`id, (set v | v in db.values && v.id == 0)`id
      modifies (set f | f in db.fluids && f.id == 0)`id, (set b | b in db.buildings && b.id == 0)`id
      ensures Valid() && db.Grown()
      ensures E.ValueOf(Some(fluidType)).Throw? ==> out.Thrown? && !saved
      ensures parseInt(floor).None? ==> out.Thrown? && !saved
      ensures !saved ==> db.conn.tables == old(db.conn.tables)
      ensures out.Thrown? ==> notices == old(notices)
      ensures out.Normal? ==> saved && s != null && s in db.sensors && notices == old(notices) + [InsertRow(s)]
      ensures out.Normal? ==>
        && s.name == Some(name) && parseInt(floor) == Some(s.floor) && s.place == Some(place)
        && s.fluid != null && E.Name(s.fluid.fluidType) == fluidType
        && s.building != null && s.building.name == Some(buildingName)
      ensures out.Normal? && found.Some? ==>
        && s.isProxy && found.value.name == Some(name)
        && s.minThreshold == found.value.minThreshold && s.maxThreshold == found.value.maxThreshold
        && (found.value.id != 0 ==> s.id == found.value.id)
      ensures out.Normal? && found.None? ==>
        !s.isProxy && (s.minThreshold, s.maxThreshold) == E.DefaultThresholds(s.fluid.fluidType)
    {
      s, found, saved := null, None, false;
      if sm == null {
        return Thrown(NullPointer), s, found, saved;
      }
      var r;
      r, found := Resolve(name, fluidType, buildingName);
      if r.Throw? {
        return Thrown(r.exception), s, found, saved;
      }
      var n := parseInt(floor);
      if n.None? {
        return Thrown(NumberFormat), s, found, saved;
      }
      var sensor;
      out, sensor := Save(r.value.0, name, n.value, place, r.value.1, r.value.2, depth);
      s, saved := sensor, true;
      if out.Thrown? {
        return;
      }
      notices := notices + [InsertRow(sensor)];
    }

    /** `vm.insert(v)`: the value gets the generated key when its row is stored. */
    method InsertValue(v: E.Value, depth: nat) returns (out: Outcome, ghost key: Option<int>, ghost bound: Store.Bindings)
      requires Valid() && vm != null && v in db.values && v.sensor != null
      modifies v`id
      modifies db, db.conn, (set x | x in db.sensors && x.values.None?)`values, (set v | v in db.values && v.sensor == null)`sensor
      modifies (set x | x in db.sensors && x.id == 0)`id, (set v | v in db.values && v.id == 0)`id
      modifies (set f | f in db.fluids && f.id == 0)`id, (set b | b in db.buildings && b.id == 0)`id
      ensures Valid() && db.Grown()
      ensures Reading(v) == old(Reading(v))
      ensures key.Some? ==>
        && out.Normal? && v.id == key.value
        && M.Table(M.ValueKind) in db.conn.tables && db.conn.tables[M.Table(M.ValueKind)] != []
        && Store.AllBound(bound, |M.Columns(M.ValueKind)|)
        && P.Last(db.conn.tables[M.Table(M.ValueKind)]) == R.StoredRow(M.ValueKind, key.value, bound)
        && P.ValueBound(v, bound)
    {
      out, key, bound := db.Insert(M.ValueKind, P.AValue(v), depth);
    }

    /**
     * The reading of `data` for a known sensor: a new value with the
     * reading, the instant and the sensor is inserted, then becomes the
     * sensor's last value.
     */
    method Record(s: E.Sensor, x: real, time: Store.Timestamp, depth: nat)
      returns (out: Outcome, v: E.Value, ghost key: Option<int>, ghost bound: Store.Bindings)
      requires Valid() && vm != null && s in db.sensors
      modifies s`lastValue
      modifies db, db.conn, (set x | x in db.sensors && x.values.None?)`values, (set v | v in db.values && v.sensor == null)`sensor
      modifies (set x | x in db.sensors && x.id == 0)`id, (set v | v in db.values && v.id == 0)`id
      modifies (set f | f in db.fluids && f.id == 0)`id, (set b | b in db.buildings && b.id == 0)`id
      ensures Valid() && db.Grown()
      ensures fresh(v) && v in db.values && Reading(v) == (x, Some(time), s)
      ensures out.Normal? ==> s.lastValue == v
      ensures out.Thrown? ==> s.lastValue == old(s.lastValue)
      ensures key.Some? ==>
        && out.Normal? && v.id == key.value
        && M.Table(M.ValueKind) in db.conn.tables && db.conn.tables[M.Table(M.ValueKind)] != []
        && Store.AllBound(bound, |M.Columns(M.ValueKind)|)
        && P.Last(db.conn.tables[M.Table(M.ValueKind)]) == R.StoredRow(M.ValueKind, key.value, bound)
        && bound == R.ValueBindings(x, Some(time), Store.SqlInt(s.id))
    {
      v := NewValue(x, time, s);
      db.Track(P.AValue(v));
      out, key, bound := InsertValue(v, depth);
      if out.Normal? {
        s.SetLastValue(v);
      }
    }

    /**
     * `data(sensorName, value)`: a reading of an unknown sensor is dropped;
     * one of a known sensor is stored with the current instant `time`, and
     * the table model is told to update the sensor's row. `found` is the
     * stored sensor the lookup read and `v` the value built for it.
     */
    method Data(name: string, x: real, time: Store.Timestamp, depth: nat)
      returns (out: Outcome, ghost found: Option<R.SensorData>, ghost v: E.Value?, ghost key: Option<int>, ghost bound: Store.Bindings)
      requires Valid()
      modifies this`notices
      modifies db, db.conn, (set x | x in db.sensors && x.values.None?)`values, (set v | v in db.values && v.sensor == null)`sensor
      modifies (set x | x in db.sensors && x.id == 0)`id, (set v | v in db.values && v.id == 0)`id
      modifies (set f | f in db.fluids && f.id == 0)`id, (set b | b in db.buildings && b.id == 0)`id
      ensures Valid() && db.Grown()
      ensures sm == null ==> out == Thrown(NullPointer) && found.None?
      ensures found.Some? ==> found.value.name == Some(name)
      ensures out.Normal? ==> (v != null <==> found.Some?)
      ensures found.Some? && vm == null ==> out == Thrown(NullPointer) && v == null
      ensures v == null ==> db.conn.tables == old(db.conn.tables) && notices == old(notices)
      ensures out.Thrown? ==> notices == old(notices)
      ensures v != null ==>
        && found.Some? && fresh(v) && v in db.values && v.value == x && v.dateTime == Some(time)
        && v.sensor != null && v.sensor in db.sensors && v.sensor.isProxy && v.sensor.name == Some(name)
      ensures out.Normal? && v != null ==> v.sensor.lastValue == v && notices == old(notices) + [UpdateRow(v.sensor)]
      ensures key.Some? ==>
        && out.Normal? && v != null && v.id == key.value
        && M.Table(M.ValueKind) in db.conn.tables && db.conn.tables[M.Table(M.ValueKind)] != []
        && Store.AllBound(bound, |M.Columns(M.ValueKind)|)
        && P.Last(db.conn.tables[M.Table(M.ValueKind)]) == R.StoredRow(M.ValueKind, key.value, bound)
        && bound == R.ValueBindings(x, Some(time), Store.SqlInt(v.sensor.id))
    {
      v, key, bound := null, None, map[];
      var r;
      ghost var ran;
      r, found, ran := FindSensor(name);
      if r.Throw? {
        return Thrown(r.exception), found, v, key, bound;
      }
      if r.value == null {
        return Normal, found, v, key, bound;
      }
      if vm == null {
        return Thrown(NullPointer), found, v, key, bound;
      }
      var sensor := r.value;
      var value;
      out, value, key, bound := Record(sensor, x, time, depth);
      v := value;
      if out.Thrown? {
        return;
      }
      notices := notices + [UpdateRow(sensor)];
    }

    /**
     * `disconnect(sensorName)`: the table model is told to remove the
     * sensor's row; an unknown sensor is only reported. Nothing is written
     * to the tables.
     */
    method Disconnect(name: string) returns (out: Outcome, ghost found: Option<R.SensorData>)
      requires Valid()
      modifies this`notices, db, db.conn`executed
      ensures Valid() && db.Grown() && db.conn.tables == old(db.conn.tables)
      ensures sm == null ==> out == Thrown(NullPointer)
      ensures out.Thrown? ==> found.None?
      ensures found.None? ==> notices == old(notices)
      ensures found.Some? ==>
        && out.Normal? && found.value.name == Some(name)
        && |notices| == |old(notices)| + 1 && notices[..|old(notices)|] == old(notices)
        && notices[|old(notices)|].RemoveRow? && notices[|old(notices)|].sensor.name == Some(name)
        && notices[|old(notices)|].sensor in db.sensors
    {
      var r;
      ghost var ran;
      r, found, ran := FindSensor(name);
      if r.Throw? {
        return Thrown(r.exception), found;
      }
      if r.value == null {
        return Normal, found;
      }
      notices := notices + [RemoveRow(r.value)];
      out := Normal;
    }

    /**
     * `write(message)`: the line is parsed, then the action it names is
     * run. `parseDouble` and `parseInt` stand for `Double.valueOf` and
     * `Integer.valueOf`, `time` for the clock `data` reads. `found` is
     * the stored sensor the action's lookup read and `s` the sensor the
     * notice it sends is about.
     */
    method Write(message: string, parseDouble: string -> Option<real>, parseInt: string -> Option<int>,
                 time: Store.Timestamp, depth: nat) returns (out: Outcome, ghost found: Option<R.SensorData>, ghost s: E.Sensor?)
      requires Valid()
      modifies this`notices
      modifies db, db.conn, (set x | x in db.sensors && x.values.None?)`values, (set v | v in db.values && v.sensor == null)`sensor
      modifies (set x | x in db.sensors && x.id == 0)`id, (set v | v in db.values && v.id == 0)`id
      modifies (set f | f in db.fluids && f.id == 0)`id, (set b | b in db.buildings && b.id == 0)`id
      ensures Valid() && db.Grown()
      ensures Parse(message, parseDouble).Throw? ==>
        out == Thrown(Parse(message, parseDouble).exception) && unchanged(db, db.conn) && notices == old(notices)
      ensures Parse(message, parseDouble) == Ok(Ignored) ==> out == Normal && unchanged(db, db.conn) && notices == old(notices)
      ensures out.Thrown? ==> notices == old(notices)
      ensures notices == old(notices) || (|notices| == |old(notices)| + 1 && notices[..|old(notices)|] == old(notices))
      // a `connexion` line: the sensor it describes is saved and its row inserted
      ensures var c := Parse(message, parseDouble);
        c.Ok? && c.value.ConnectLine? && Describe(c.value.description).Throw? ==>
          out == Thrown(IndexOutOfBounds) && unchanged(db, db.conn) && notices == old(notices)
      ensures var c := Parse(message, parseDouble);
        c.Ok? && c.value.ConnectLine? && out.Normal? ==>
          && Describe(c.value.description).Ok?
          && var (fluidType, buildingName, floor, place) := Describe(c.value.description).value;
          && s != null && s in db.sensors && notices == old(notices) + [InsertRow(s)]
          && s.name == Some(c.value.name) && parseInt(floor) == Some(s.floor) && s.place == Some(place)
          && s.fluid != null && E.Name(s.fluid.fluidType) == fluidType
          && s.building != null && s.building.name == Some(buildingName)
          && (s.isProxy <==> found.Some?)
          && (found.Some? ==> s.minThreshold == found.value.minThreshold && s.maxThreshold == found.value.maxThreshold)
          && (found.None? ==> (s.minThreshold, s.maxThreshold) == E.DefaultThresholds(s.fluid.fluidType))
      // a `donnee` line: a reading of a known sensor is stored and its row updated
      ensures var c := Parse(message, parseDouble);
        c.Ok? && c.value.DataLine? ==>
          && (sm == null ==> out == Thrown(NullPointer))
          && (found.Some? ==> found.value.name == Some(c.value.name))
          && (found.Some? && vm == null ==> out == Thrown(NullPointer))
          && (out.Normal? && found.None? ==> db.conn.tables == old(db.conn.tables) && notices == old(notices))
          && (out.Normal? && found.Some? ==>
                && s != null && s in db.sensors && s.name == Some(c.value.name) && s.lastValue != null
                && s.lastValue in db.values && s.lastValue.value == c.value.value && s.lastValue.dateTime == Some(time)
                && s.lastValue.sensor == s && notices == old(notices) + [UpdateRow(s)])
      // a `deconnexion` line: the row of a known sensor is removed, nothing is stored
      ensures var c := Parse(message, parseDouble);
        c.Ok? && c.value.DisconnectLine? ==>
          && db.conn.tables == old(db.conn.tables)
          && (sm == null ==> out == Thrown(NullPointer))
          && (found.None? ==> notices == old(notices))
          && (found.Some? ==>
                && out.Normal? && found.value.name == Some(c.value.name)
                && s != null && s in db.sensors && s.name == Some(c.value.name)
                && notices == old(notices) + [RemoveRow(s)])
    {
      found, s := None, null;
      var c := Parse(message, parseDouble);
      if c.Throw? {
        return Thrown(c.exception), found, s;
      }
      match c.value {
        case ConnectLine(name, description) =>
          ghost var saved;
          out, s, found, saved := Connect(name, description, parseInt, depth);
        case DataLine(name, x) =>
          ghost var v, key, bound;
          out, found, v, key, bound := Data(name, x, time, depth);
          if v != null {
            s := v.sensor;
          }
        case DisconnectLine(name) =>
          out, found := Disconnect(name);
          if found.Some? {
            s := notices[|notices| - 1].sensor;
          }
        case Ignored =>
          out := Normal;
      }
    }
  }
}
