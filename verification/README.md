# Sensor ingestion and persistence, modelled in Dafny

This project models the core of a Java desktop application that collects
readings from building sensors. Sensors connect to a server and send one text
line at a time (`connexion`, `donnee`, `deconnexion`). The `DBWriter` reads each
line, finds or creates the sensor's fluid and building, inserts or updates the
sensor, stores readings, and tells the real-time table what changed.
Persistence goes through a small hand-written layer:
- a `Query` builder renders SQL text;
- a generic `Manager` with one subclass per table turns entities into rows and
  back, cascading inserts and updates to the entities a row refers to;
- lazy proxies load a sensor's readings, or a reading's sensor, on first use;
- a `ManagerContainer` caches one manager per kind.
The UI side has three small structures with logic of their own: the row list
of the real-time table, the building/floor/sensor tree, and a button group
that limits how many buttons can be selected at once.

Modules, one file each:

- `Wrappers` (`wrappers.dfy`): `Option`, `Result` and `Outcome`. Java exceptions are values of `JavaException`.
- `Identity` (`identity.dfy`): `Entity.equals` and `Entity.hashCode` on keys made of a runtime class and an id.
- `Entities` (`entities.dfy`): the four entity classes `Building`, `Fluid`, `Sensor` and `Value`, their setters, the fluid tables and default thresholds, `isOutOfBounds` and `compareTo`. A `SensorProxy` or `ValueProxy` is the same class with `isProxy` set.
- `JavaStrings` (`jstrings.dfy`): `String.join`, `String.split` with Java's trailing-empty rule, ASCII `toLowerCase`, and integer printing.
- `Queries` (`query.dfy`): the `Query` class. Its builder methods, `toString` with its `construct*` helpers, and `execute` with parameter binding by kind.
- `Store` (`store.dfy`): an in-memory database in place of JDBC. Tables of rows, a generated-key counter and a log of executed SQL. Any statement may fail, standing for an `SQLException`.
- `Managers` (`managers.dfy`): table and column declarations, INSERT/UPDATE/DELETE text, and the queries `findBy`, `findAllBy` and `findAllBySensorBetween` build.
- `Rows` (`rows.dfy`): reading a result row into entity data (`hydrate`) and the bindings `dehydrate` produces, with the round trips between them.
- `Persistence` (`database.dfy`): the `Database` class. The object graph of hydrated entities, fetch and find operations, the cascading insert/update, delete, and the proxies' lazy loaders.
- `Container` (`container.dfy`): `ManagerContainer.get` and `getInstance`.
- `Server` (`dbwriter.dfy`): the `DBWriter`. Line parsing and dispatch, and `connect`, `data` and `disconnect` over the `Database`, with notices to the table appended to a log.
- `Table` (`tablemodel.dfy`): the real-time table's row list.
- `Tree` (`treemodel.dfy`): floor bucketing and the de-duplicating tree construction.
- `Components` (`buttongroup.dfy`): `EnhancedButtonGroup`.

## Model

| member | source | states |
|---|---|---|
| Identity.BaseClass | src/database/Entity.java:37-48 | every entity class is related to a root class that has no superclass of its own |
| Identity.RelatedIffSameBase | src/database/Entity.java:41-45 | two classes are the same or one directly extends the other exactly when they share a root class |
| Identity.EqualsIff | src/database/Entity.java:37-48 | `equals` holds iff the other object is an entity of a related class with the same id |
| Identity.EqualsReflexive | src/database/Entity.java:37-48 | every entity equals itself |
| Identity.EqualsSymmetric | src/database/Entity.java:41-45 | `a.equals(b)` iff `b.equals(a)` |
| Identity.EqualsTransitive | src/database/Entity.java:41-45 | equality between entities is transitive |
| Identity.NotEqualsNonEntity | src/database/Entity.java:38-47 | an entity never equals null or an object that is not an entity |
| Identity.UnrelatedKindsUnequal | src/database/Entity.java:41-47 | entities of unrelated kinds (a building and a fluid, say) are unequal whatever their ids |
| Identity.Int32 | src/database/Entity.java:56-58 | the result is a 32-bit signed int congruent to the exact value modulo 2^32 (Java's wrap-around) |
| Identity.HashSameClass | src/database/Entity.java:56-58 | the same class and id always hash alike |
| Identity.HashCodeBreaksContract | src/database/Entity.java:56-58 | a `Sensor` and a `SensorProxy` with id 0 are equal, yet hash to different values |
| Identity.ConsistentHashCodeAgrees | src/database/Entity.java:56-58 | hashing on the root class gives equal entities equal hash codes |
| Entities.ValueOf | src/managers/FluidManager.java:31 | `Type.valueOf`: null throws NullPointerException; an accepted string is the constant's name; any other string throws IllegalArgumentException |
| Entities.ValueOfName | src/managers/FluidManager.java:31 | reading back a constant's `name()` gives that constant |
| Entities.ValueOfAcceptsNames | src/managers/FluidManager.java:29-36 | `valueOf` accepts exactly the four constant names |
| Entities.UnitInjective | src/entities/Fluid.java:22-41 | distinct fluid types have distinct units |
| Entities.LabelInjective | src/entities/Fluid.java:49-68 | distinct fluid types have distinct display labels |
| Entities.FourFluidTypes | src/entities/Fluid.java:15 | the enum has exactly four distinct constants |
| Entities.DefaultThresholdsOrdered | src/entities/Sensor.java:243-262 | for every fluid the default minimum is strictly below the default maximum |
| Entities.Compare | src/entities/Value.java:97-103 | the result is -1, 0 or 1, by the sign of the difference |
| Entities.Building.constructor | src/entities/Building.java:8-13 | a new building has id 0 and no name |
| Entities.Building.SetId | src/database/Entity.java:27-29 | the id becomes the given value and nothing else changes |
| Entities.Building.SetName | src/entities/Building.java:29-31 | the name becomes the given value and the id is kept |
| Entities.Building.ToString | src/entities/Building.java:33-36 | `toString` is the name |
| Entities.Fluid.constructor | src/entities/Fluid.java:76-78 | a new fluid has id 0 and the given type |
| Entities.Fluid.SetId | src/database/Entity.java:27-29 | the id becomes the given value and nothing else changes |
| Entities.Fluid.SetType | src/entities/Fluid.java:99-101 | the type is replaced and nothing else changes |
| Entities.Fluid.ToString | src/entities/Fluid.java:103-106 | `toString` is the type's display label |
| Entities.Sensor.constructor | src/entities/Sensor.java:62-64 | `Sensor()`: id 0, no fluid, zero thresholds, values and last value unset |
| Entities.Sensor.WithFluid | src/entities/Sensor.java:71-74 | `Sensor(fluid)`: that fluid and its default thresholds, values and last value unset |
| Entities.Sensor.Proxy | src/proxies/SensorProxy.java:28-33 | a proxy with the given id and fluid, default thresholds, values not loaded |
| Entities.Sensor.SetDefaultThresholds | src/entities/Sensor.java:243-262 | the thresholds become the fluid's defaults (EAU 0..10, ELECTRICITE 10..500, TEMPERATURE 17..22, AIRCOMPRIME 0..5), with min below max |
| Entities.Sensor.SetId | src/database/Entity.java:27-29 | the id becomes the given value and nothing else changes |
| Entities.Sensor.SetName | src/entities/Sensor.java:90-92 | only the name changes |
| Entities.Sensor.SetFloor | src/entities/Sensor.java:108-110 | only the floor changes |
| Entities.Sensor.SetPlace | src/entities/Sensor.java:126-128 | only the place changes |
| Entities.Sensor.SetMinThreshold | src/entities/Sensor.java:144-146 | only the minimum threshold changes |
| Entities.Sensor.SetMaxThreshold | src/entities/Sensor.java:162-164 | only the maximum threshold changes |
| Entities.Sensor.SetFluid | src/entities/Sensor.java:180-182 | only the fluid changes |
| Entities.Sensor.SetBuilding | src/entities/Sensor.java:198-200 | only the building changes |
| Entities.Sensor.SetValues | src/entities/Sensor.java:216-218 | only the value list changes |
| Entities.Sensor.SetLastValue | src/entities/Sensor.java:234-236 | only the last value changes |
| Entities.Sensor.ToString | src/entities/Sensor.java:264-267 | `toString` is the name |
| Entities.Value.constructor | src/entities/Value.java:10-25 | a new reading has id 0, value 0, no date and no sensor |
| Entities.Value.Proxy | src/proxies/ValueProxy.java:29-33 | a proxy remembers the sensor id and leaves its sensor unset |
| Entities.Value.SetId | src/database/Entity.java:27-29 | the id becomes the given value and nothing else changes |
| Entities.Value.SetValue | src/entities/Value.java:41-43 | only the number changes |
| Entities.Value.SetDateTime | src/entities/Value.java:59-61 | only the date changes |
| Entities.Value.SetSensor | src/entities/Value.java:77-79 | only the sensor changes |
| Entities.Value.CompareTo | src/entities/Value.java:97-103 | -1, 0 or 1 according as this value is below, equal to or above the other |
| Entities.OutOfBoundsIff | src/entities/Value.java:87-89 | out of bounds iff strictly below the minimum or strictly above the maximum, so both thresholds are in bounds |
| Entities.OutOfBoundsIgnoresOwnSensor | src/entities/Value.java:87-89 | the answer depends only on the number and the sensor passed in, not on the reading's own sensor |
| Entities.WaterBounds | src/entities/Value.java:87-89 | with water's 0..10 bounds, 0 and 10 are in bounds and -1 and 10.5 are out |
| Entities.CompareToLaws | src/entities/Value.java:97-103 | `compareTo` is antisymmetric, zero on itself, and looks at the number only |
| Entities.CompareToTransitive | src/entities/Value.java:97-103 | `compareTo` is transitive |
| JavaStrings.Join | src/database/Query.java:196 | `String.join` of no parts is empty and of one part is that part |
| JavaStrings.JoinLength | src/managers/Manager.java:229-230 | the joined length is the parts' lengths plus one separator between each pair |
| JavaStrings.JoinFields | src/server/DBWriter.java:98 | splitting a join of separator-free parts gives the parts back, before trailing empties are dropped |
| JavaStrings.FieldsJoin | src/server/DBWriter.java:98 | joining the fields of a string gives the string back |
| JavaStrings.SplitFields | src/server/DBWriter.java:70 | `split` is the separator-free fields with the trailing empty ones dropped |
| JavaStrings.SplitNoTrailingEmpty | src/server/DBWriter.java:70 | when the separator occurs, `split` never ends in an empty field |
| JavaStrings.SplitJoin | src/server/DBWriter.java:98 | `split` undoes `join` when the parts hold no separator and the last one is not empty |
| JavaStrings.SplitOnlySeparators | src/server/DBWriter.java:70 | a string made only of separators splits to nothing |
| JavaStrings.Occurrences | src/database/Query.java:153-178 | the count of a character is at most the length, and zero exactly when the character is absent |
| JavaStrings.OccurrencesJoin | src/managers/Manager.java:229-230 | a separator free of the character adds no occurrences to a join |
| JavaStrings.IntToString | src/managers/Manager.java:240 | the printed int is non-empty, digits after an optional minus |
| JavaStrings.IntToStringValue | src/managers/Manager.java:240 | the printed digits read back as the number |
| JavaStrings.ToLower | src/server/DBWriter.java:72 | lower-casing keeps the length and lowers each character on its own |
| JavaStrings.ToLowerIdempotent | src/server/DBWriter.java:72 | lowering twice is lowering once |
| Queries.Bind | src/database/Query.java:159-169 | boolean, double, float, int, string, timestamp and enum bind to a non-null value (an enum as its name); null and any other kind throw UnsupportedParameterException |
| Queries.BindAllPositions | src/database/Query.java:153-178 | the k-th parameter is bound at position k, for every position the statement has; binding fails iff some parameter has an unsupported kind |
| Queries.BindAllThrowsOn | src/database/Query.java:168-172 | one unsupported parameter anywhere makes `execute` throw |
| Queries.Render | src/database/Query.java:186-197 | rendering throws IllegalStateException exactly when no FROM table was given |
| Queries.RenderShape | src/database/Query.java:186-224 | the text is SELECT, the projection (`*` when empty), FROM and the tables joined by ", ", then JOIN, WHERE and ORDER BY clauses, all separated by single spaces |
| Queries.RenderSelectFrom | src/database/Query.java:204-224 | without joins, conditions or ordering the text is exactly `SELECT <fields> FROM <tables>` |
| Queries.WhereSplitCalls | src/database/Query.java:110-116 | conditions from several `where` calls render as one `WHERE (c1) AND (c2) ...` clause |
| Queries.WhereClauseMarks | src/database/Query.java:245-250 | the WHERE clause holds exactly the placeholders of its conditions |
| Queries.RenderPlaceholders | src/database/Query.java:186-197 | the rendered text has as many `?` as the conditions together |
| Queries.HeadNoMarks | src/database/Query.java:204-224 | SELECT and FROM add no placeholder when fields and tables have none |
| Queries.JoinClausesNoMarks | src/database/Query.java:231-238 | JOIN clauses add no placeholder when tables and conditions have none |
| Queries.OrderClauseNoMarks | src/database/Query.java:257-271 | ORDER BY adds no placeholder when its columns have none |
| Queries.ExampleRender | src/database/Query.java:186-271 | one select, table, condition and order render as `SELECT a FROM t WHERE (x=?) ORDER BY a ASC` |
| Queries.Query.constructor | src/database/Query.java:22-47 | a new query has every list and map empty |
| Queries.Query.Select | src/database/Query.java:62-68 | the fields are appended in call order |
| Queries.Query.From | src/database/Query.java:76-82 | the tables are appended in call order |
| Queries.Query.Join | src/database/Query.java:92-102 | a new table is appended with its first condition; a known table keeps its place and gains the condition at the end |
| Queries.Query.Where | src/database/Query.java:110-116 | the conditions are appended in call order |
| Queries.Query.OrderBy | src/database/Query.java:125-129 | the column's direction is set; a known column keeps its place, a new one goes last |
| Queries.Query.Params | src/database/Query.java:137-143 | the parameters are appended in call order |
| Queries.Query.ToString | src/database/Query.java:186-197 | the result is the rendering of the current state, and the builder is left unchanged |
| Queries.Query.ConstructSelect | src/database/Query.java:204-211 | appends SELECT and the projection |
| Queries.Query.ConstructFrom | src/database/Query.java:218-224 | throws IllegalStateException without tables; otherwise appends FROM and the tables joined by ", " |
| Queries.Query.ConstructJoin | src/database/Query.java:231-238 | appends one `LEFT JOIN t ON c1 AND c2 ...` per table, tables in first-insertion order |
| Queries.Query.ConstructWhere | src/database/Query.java:245-250 | appends the WHERE clause, or nothing without conditions |
| Queries.Query.ConstructOrderBy | src/database/Query.java:257-271 | appends ORDER BY and `col DIR` entries in column order, or nothing without any |
| Queries.Query.Execute | src/database/Query.java:153-178 | throws exactly when a parameter cannot be bound, and then runs nothing; otherwise runs the statement once, and the rows it returns are the store's answer to the bound parameters |
| Store.Where | src/managers/Manager.java:90-93 | the selected rows are exactly the table's rows that match the bound conditions |
| Store.WhereAll | src/managers/Manager.java:100-102 | with no condition every row is kept, in stored order |
| Store.Select | src/managers/Manager.java:122-155 | a query has an answer exactly when its table exists and every placeholder is bound |
| Store.Assign | src/managers/Manager.java:223-241 | the k-th column receives the value bound at position k |
| Store.UpdateRows | src/managers/Manager.java:239-241 | only rows with the given id change, and those take the new column values |
| Store.UpdateRowsHold | src/managers/Manager.java:205-216 | after an update every row with that id holds the new values |
| Store.RemoveRowContents | src/managers/Manager.java:186-198 | DELETE keeps exactly the rows whose id differs |
| Store.RemoveKeepsKeys | src/managers/Manager.java:186-198 | deleting rows keeps every remaining key below the next generated key |
| Store.Connection.constructor | src/database/MySQLConnection.java:42-52 | a fresh store has the named tables, all empty, and key 1 comes next |
| Store.Connection.ExecuteQuery | src/managers/Manager.java:125 | the statement is logged, and any rows returned are the selection's answer |
| Store.Connection.ExecuteInsert | src/managers/Manager.java:167-175 | on success, one row with the next key and the bound columns is appended, and the key counter moves on; on failure nothing changes |
| Store.Connection.ExecuteUpdate | src/managers/Manager.java:210-212 | on success, the rows with that id take the bound columns; on failure nothing changes |
| Store.Connection.ExecuteDelete | src/managers/Manager.java:191-192 | on success, the rows with that id are removed; on failure nothing changes |
| Managers.DeclarationsWellFormed | src/managers/SensorManager.java:23-24 | each table has distinct, non-empty columns other than `id`, no `?` in its names, and a name no other kind uses |
| Managers.Marks | src/managers/Manager.java:224-227 | n copies of `?` |
| Managers.GenerateInsertQuery | src/managers/Manager.java:223-231 | the loop fills the marks array and returns `INSERT INTO t(c1, ..., cn) VALUES(?, ..., ?)` |
| Managers.InsertPlaceholders | src/managers/Manager.java:223-231 | the INSERT text has exactly one placeholder per column |
| Managers.UpdateSqlShape | src/managers/Manager.java:239-241 | the UPDATE text is `UPDATE t SET c1=?, ..., cn=? WHERE id=<id>` |
| Managers.Assignments | src/managers/Manager.java:240 | one `c=?` per column, in column order |
| Managers.JoinAssignments | src/managers/Manager.java:240 | joining with `=?, ` and adding `=?` is the same as joining the assignments with `, ` |
| Managers.UpdatePlaceholders | src/managers/Manager.java:239-241 | the UPDATE text has exactly one placeholder per column |
| Managers.DeleteSql | src/managers/Manager.java:189 | the DELETE text has no placeholder |
| Managers.BaseState | src/managers/SensorManager.java:32-39 | every manager's base query is well formed and has no placeholder |
| Managers.BaseQuery | src/managers/Manager.java:69-71 | builds a fresh query whose state is the base query |
| Managers.FindByState | src/managers/Manager.java:90-93 | `findBy` adds one condition `<table>.<column> = ?` and one parameter to the base query |
| Managers.FindByQuery | src/managers/Manager.java:90-93 | builds a fresh query whose state is that of `findBy` |
| Managers.FindByPlaceholders | src/managers/Manager.java:111-114 | the `findBy`/`findAllBy` text renders and has exactly one placeholder |
| Managers.TimestampParam | src/managers/ValueManager.java:36-42 | a missing timestamp becomes a null parameter and nothing else does |
| Managers.BetweenState | src/managers/ValueManager.java:36-42 | the query adds the conditions `date_time >= ?`, `date_time <= ?` and `sensor_id = ?` with their parameters |
| Managers.BetweenQuery | src/managers/ValueManager.java:36-42 | builds a fresh query whose state is that of `findAllBySensorBetween` |
| Managers.BetweenPlaceholders | src/managers/ValueManager.java:36-42 | the text renders and has exactly three placeholders |
| Managers.BetweenBound | src/managers/ValueManager.java:38-39 | t1, t2 and the sensor id are bound at positions 1, 2 and 3 |
| Managers.BetweenMatches | src/managers/ValueManager.java:38-39 | a row matches iff its date lies in [t1, t2], both ends included, and it belongs to the sensor |
| Managers.BetweenRowsMatch | src/managers/ValueManager.java:36-42 | every row the range query returns lies in the range and belongs to the sensor |
| Managers.FoundRowsMatch | src/managers/Manager.java:111-114 | every row `findAllBy` returns carries the searched value in the searched column |
| Managers.WithJoinsKeepsBase | src/managers/SensorManager.java:32-39 | the joins never hide a column of the base table |
| Managers.SelectFindsAll | src/managers/Manager.java:90-93 | over an existing table a selection is answered with one row per stored matching row, in stored order, each carrying that row's key; every matching stored row is answered, and the answer is empty exactly when no stored row matches |
| Managers.FindByMatches | src/managers/Manager.java:91 | the find-by condition `<table>.<column> = ?` holds exactly when the column equals the bound value |
| Managers.FindByFindsAll | src/managers/Manager.java:90-93 | over an existing table every stored row whose column equals the value is answered, and the answer is empty exactly when there is none |
| Managers.BetweenFindsAll | src/managers/ValueManager.java:36-42 | over an existing value table every stored reading of the sensor dated in [t1, t2] is answered, and the answer is empty exactly when there is none |
| Managers.BaseFindsAll | src/managers/Manager.java:100-102 | the base query over an existing table is answered with one row per stored row, in stored order, each carrying that row's key |
| Rows.ReadEntity | src/managers/Manager.java:249 | hydration yields data of the manager's own kind; only the sensor and fluid readers can throw |
| Rows.ReadEntityId | src/managers/BuildingManager.java:29-32 | the hydrated id is the row's `id` column |
| Rows.ReadValueSensorId | src/managers/ValueManager.java:55-59 | a hydrated reading remembers the row's `sensor_id` |
| Rows.ReadNamed | src/managers/BuildingManager.java:30-33 | a hydrated sensor or building takes the row's `name` |
| Rows.ReadFluidTyped | src/managers/FluidManager.java:31 | a hydrated fluid's type is the one named in the row |
| Rows.BindingsComplete | src/managers/SensorManager.java:88-115 | each `dehydrate` binds every position of its INSERT or UPDATE |
| Rows.FetchedCell | src/managers/Manager.java:167-175 | a stored row, read back, holds at column k what was bound at position k |
| Rows.BuildingRoundTrip | src/managers/BuildingManager.java:25-51 | a building stored then hydrated comes back with its key and name |
| Rows.FluidRoundTrip | src/managers/FluidManager.java:26-51 | a fluid stored by `name()` and hydrated by `valueOf` comes back with its key and type |
| Rows.ValueRoundTrip | src/managers/ValueManager.java:48-96 | a reading stored then hydrated keeps its key, number and date, and its sensor id (0 for no sensor) |
| Rows.ValueColumnsBack | src/managers/ValueManager.java:48-96 | the same, from any bindings holding those values |
| Rows.ReadValueOf | src/managers/ValueManager.java:48-67 | hydration reads a reading's four columns |
| Rows.SensorRoundTrip | src/managers/SensorManager.java:45-70 | a joined row hydrates to the sensor's columns, its fluid and its building |
| Rows.JoinedParts | src/managers/SensorManager.java:59-60 | the fluid and building are hydrated from their own part of the joined row |
| Rows.SensorColumnsBack | src/managers/SensorManager.java:82-115 | a sensor stored then read back keeps key, name, floor, place and thresholds |
| Rows.ReadSensorColumnsOf | src/managers/SensorManager.java:51-56 | hydration reads a sensor's six own columns |
| Rows.SensorWithoutFluidThrows | src/managers/SensorManager.java:59 | a sensor row without a fluid makes `valueOf(null)` throw NullPointerException |
| Rows.SensorWithoutBuildingReadsTransient | src/managers/SensorManager.java:60 | a sensor row without a building hydrates a building with id 0 and no name |
| Persistence.HoldsId | src/managers/Manager.java:122-134 | a hydrated entity carries the id of its row |
| Persistence.LoadedBetween | src/managers/ValueManager.java:36-42 | a reading hydrated from a range row is a proxy of that sensor within the range |
| Persistence.BaseAnswer | src/managers/Manager.java:100-102 | `findAll` always binds and is answered by its base selection |
| Persistence.FindByAnswer | src/managers/Manager.java:90-93 | `findBy` fails only on an unsupported value, and each answer row holds the value in the column |
| Persistence.BetweenRefused | src/managers/ValueManager.java:36-42 | the range query is refused exactly when a timestamp is missing |
| Persistence.BetweenAnswered | src/managers/ValueManager.java:36-42 | every answer row lies in the range and belongs to the sensor |
| Persistence.ReadingsBetween | src/managers/ValueManager.java:36-42 | the readings loaded from such rows are all readings within the range |
| Persistence.LoadedReadings | src/proxies/SensorProxy.java:42-48 | readings loaded for a sensor are fresh proxies carrying that sensor's id |
| Persistence.FindByRowsAnswer | src/managers/Manager.java:90-93 | for a column name without a '?' the rendered and bound find-by query is answered with `FindByRows`: nothing when the value cannot bind, otherwise the store's selection with the value bound at position 1 |
| Persistence.BetweenRowsAnswer | src/managers/ValueManager.java:36-42 | the range query is answered with `BetweenRows`: nothing when an instant is missing, otherwise the selection with both instants and the sensor id bound |
| Persistence.FindByFinds | src/managers/Manager.java:90-93 | a find-by whose value binds is answered exactly when the table exists; then every stored row whose column equals the value is answered, and the answer is empty exactly when there is none |
| Persistence.FindsById | src/managers/Manager.java:79-81 | `find(id)` is answered exactly when the table exists; then the answer is non-empty exactly when a stored row has that id |
| Persistence.BetweenFinds | src/managers/ValueManager.java:36-42 | with both instants, the range query is answered exactly when the value table exists; then every stored reading of the sensor dated in [t1, t2] is answered, and the answer is empty exactly when there is none |
| Persistence.BaseFinds | src/managers/Manager.java:100-102 | `findAll`'s selection is answered exactly when the table exists, with one row per stored row, in stored order, each carrying that row's key |
| Persistence.FindByFindsStored | src/managers/Manager.java:90-93 | what a `findBy` that ran returns, in terms of the stored rows: when a stored row's column holds the value, the hydration of the first row answered; when none does, null |
| Persistence.FindFindsStored | src/managers/Manager.java:79-81 | the same for `find(id)`: a stored row with the id is found and hydrated; with none the result is null |
| Persistence.FindByFetched | src/managers/Manager.java:90-93 | what `fetch` returns for the find-by query makes `findBy`'s result: the first-row hydration of `FindByRows` when the statement ran, and null or an unsupported-parameter exception otherwise |
| Persistence.FirstRowRead | src/managers/Manager.java:122-134 | a find-by that was answered bound its value on an existing table; a non-null entity it fetched is read from the answer's first row, which holds the value in the column |
| Persistence.FoundFirst | src/managers/Manager.java:90-93 | the first-row hydration of a find-by's answer, stated over `FindByRows` |
| Persistence.Database.Readings | src/proxies/SensorProxy.java:44 | `findAllBy("sensor_id", id)` as readings: fresh proxies with that sensor id, and when the lookup ran exactly those hydrated from every row of `FindByRows` |
| Persistence.Database.constructor | src/managers/Manager.java:48-53 | starts on a connection with no hydrated objects |
| Persistence.Database.RunQuery | src/managers/Manager.java:125 | an unrenderable query gives IllegalStateException; otherwise the rows are the store's answer, or the refusal is an unsupported parameter |
| Persistence.Database.BuildBuilding | src/managers/BuildingManager.java:29-33 | a fresh building with the row's id and name |
| Persistence.Database.BuildFluid | src/managers/FluidManager.java:30-33 | a fresh fluid with the row's id and type |
| Persistence.Database.NewSensor | src/managers/SensorManager.java:64-70 | a fresh proxy with the row's columns, fluid and building, values not loaded |
| Persistence.Database.BuildSensor | src/managers/SensorManager.java:45-76 | a fresh sensor whose fields, fluid and building hold the row's data |
| Persistence.Database.BuildValue | src/managers/ValueManager.java:48-68 | a fresh proxy with the row's id, number, date and sensor id, sensor not loaded |
| Persistence.Database.Hydrate | src/managers/Manager.java:249 | throws iff the row cannot be read; otherwise a fresh entity of the right kind holding the row's data |
| Persistence.Database.Fetch | src/managers/Manager.java:122-134 | the store is unchanged; when the statement ran, the result is exactly null on an empty answer and otherwise what hydrating the answer's first row gives, the entity or the exception reading it throws; a failed statement yields null or the query's refusal; an unrenderable query throws IllegalStateException |
| Persistence.Database.LoadRow | src/managers/Manager.java:147-149 | one more row hydrated and appended, or the exception of reading it |
| Persistence.Database.LoadRows | src/managers/Manager.java:147-149 | a loop that reads the cursor to its end returns one entity per row, hydrated in row order, or the exception of the first row that throws; a loop cut short by a failing cursor returns the entities of the rows read so far |
| Persistence.Database.FetchAll | src/managers/Manager.java:143-155 | the store is unchanged; when the statement ran, the result is one entity per answer row, in row order, or the exception of the first row whose hydration throws; a failed statement yields the entities read so far or the query's refusal; never null |
| Persistence.Database.FindBy | src/managers/Manager.java:90-93 | when the statement ran, the value binds, the table exists and the result is exactly null when `FindByRows` is empty and otherwise the hydration of its first row, which is `row`; an unsupported value throws or yields null; a found entity comes from a row holding the value in the column |
| Persistence.Database.Find | src/managers/Manager.java:79-81 | `find(id)` is `findBy("id", id)`: when the statement ran, the table exists and the result is exactly the first-row hydration of `FindByRows` on `id`, otherwise null; a found entity has that id |
| Persistence.Database.FindAll | src/managers/Manager.java:100-102 | when the statement ran, the result is one entity per answer row of the base selection, in row order, which `BaseFinds` shows is one row per stored row of the table, or the first hydration exception; a failed statement yields a list, never an exception |
| Persistence.Database.FindAllBy | src/managers/Manager.java:111-114 | when the statement ran, the value binds, `rows` is exactly `FindByRows`, and the result is one entity per row in order or the first hydration exception; every entity comes from a row holding the value in the column; an unsupported value throws or yields the empty list |
| Persistence.Database.FindAllValuesBySensorBetween | src/managers/ValueManager.java:36-42 | when the statement ran, both instants are given and the result is one reading per row of `BetweenRows`, in order; with both instants every reading returned is the sensor's and lies in [t1, t2]; a missing instant throws or yields nothing |
| Persistence.Database.GetValues | src/proxies/SensorProxy.java:42-48 | a plain sensor, or a proxy with values already set, returns its values without a query; a proxy's first call caches fresh readings with its id, and when the lookup ran they are exactly the readings hydrated from every row of `FindByRows` on `sensor_id` |
| Persistence.Database.GetSensor | src/proxies/ValueProxy.java:41-47 | a stored sensor is returned without a query; otherwise `find(sensorId)` is run and its result kept only when not null; when it ran, that result is exactly the first-row hydration of `FindByRows` on `id`, so a stored sensor with that id is found |
| Persistence.Database.Insert | src/managers/Manager.java:162-179 | null is a no-op; on success the entity's id is the new key and the table's last row is its dehydration; on failure a fluid or building keeps its id |
| Persistence.Database.RunInsert | src/managers/Manager.java:165-178 | dehydrate, run the INSERT, and give the entity the generated key only on success |
| Persistence.Database.StoreRow | src/managers/Manager.java:169-175 | on success the row with the next key is appended and the entity takes that key; on failure the id and the tables are unchanged |
| Persistence.Database.Update | src/managers/Manager.java:205-216 | null is a no-op; on success every row with the entity's id holds its dehydration; a fluid's or building's id never changes, and a persisted id is kept |
| Persistence.Database.RunUpdate | src/managers/Manager.java:208-215 | dehydrate and run the UPDATE on the entity's id |
| Persistence.Database.Dehydrate | src/managers/BuildingManager.java:45-51 | the bindings hold the entity's fields; a building or fluid binds without touching anything |
| Persistence.Database.DehydrateSensor | src/managers/SensorManager.java:82-133 | binds the sensor's fields; a persisted fluid's or building's id is bound at position 4 or 5 |
| Persistence.Database.BindSensor | src/managers/SensorManager.java:88-115 | positions 1-7 are name, floor, place, fluid id, building id, min and max |
| Persistence.Database.SaveReadings | src/managers/SensorManager.java:117-129 | only transient readings are inserted; a null entry throws |
| Persistence.Database.SaveFluid | src/managers/SensorManager.java:91-101 | a transient fluid is inserted, a persisted one updated keeping its id, and its id is what gets bound |
| Persistence.Database.SaveBuilding | src/managers/SensorManager.java:103-113 | the same for the building |
| Persistence.Database.InsertTransient | src/managers/SensorManager.java:118-128 | the loop inserts each reading with id 0 in list order; a null entry throws |
| Persistence.Database.DehydrateValue | src/managers/ValueManager.java:74-100 | binds number and date; a sensor is inserted when transient, updated otherwise, and a persisted sensor's id is bound at position 3 |
| Persistence.Database.Delete | src/managers/Manager.java:186-198 | null is a no-op; on success the entity's rows are removed and its id becomes 0; on failure nothing changes |
| Container.Manager.constructor | src/managers/Manager.java:48-53 | a manager of the given kind over the shared database |
| Container.ManagerContainer.constructor | src/container/ManagerContainer.java:18-28 | the container starts with no manager |
| Container.ManagerContainer.Get | src/container/ManagerContainer.java:50-64 | a stored manager is returned as is; otherwise a fresh one is stored and returned, or null with the map unchanged; other kinds are untouched |
| Container.ContainerClass.GetInstance | src/container/ManagerContainer.java:35-37 | always the one container instance |
| Server.Dispatch | src/server/DBWriter.java:69-85 | throws exactly for no token, `connexion`/`donnee` with under 3 tokens, or a non-numeric value; unknown verbs and a bare `deconnexion` are ignored; the arguments are tokens 1 and 2 |
| Server.VerbCaseInsensitive | src/server/DBWriter.java:72 | the verb is matched case-insensitively |
| Server.ConnectLineRead | src/server/DBWriter.java:70-75 | `connexion <name> <description>` reads as a connection with those arguments |
| Server.DataLineRead | src/server/DBWriter.java:76-78 | `donnee <name> <number>` reads as a reading of that number |
| Server.DisconnectLineRead | src/server/DBWriter.java:79-83 | `deconnexion <name>` reads as a disconnection |
| Server.DoubledSpaceShiftsArguments | src/server/DBWriter.java:70 | a doubled space keeps an empty token, so every argument shifts by one |
| Server.TrailingSpacesIgnored | src/server/DBWriter.java:70-83 | trailing spaces after `deconnexion` are dropped, so the line is ignored |
| Server.TrailingSeparators | src/server/DBWriter.java:70 | trailing separators after a word split to that word alone |
| Server.Describe | src/server/DBWriter.java:98-102 | the description splits on `:`; fewer than four fields throw ArrayIndexOutOfBoundsException |
| Server.DescriptionRead | src/server/DBWriter.java:98-102 | `fluid:building:floor:place` reads back as those four fields |
| Server.EmptyPlaceThrows | src/server/DBWriter.java:98-102 | an empty place is a trailing empty field, dropped by `split`, so the line throws |
| Server.TakeManagers | src/server/DBWriter.java:56-62 | each manager taken is the one the container holds for its kind |
| Server.NewSensor | src/server/DBWriter.java:129-133 | a fresh plain sensor with the name, floor, place, fluid, building and the fluid's default thresholds |
| Server.NewValue | src/server/DBWriter.java:158-161 | a fresh transient reading of the number, at that time, for that sensor |
| Server.Writer.constructor | src/server/DBWriter.java:56-62 | takes the four managers from the container, with no notice sent yet |
| Server.Writer.FindSensor | src/server/DBWriter.java:104 | when the lookup ran, the sensor table exists and the result is exactly the first-row hydration of `FindByRows` on `name`, so a stored sensor of that name is found; otherwise null; a found sensor is freshly hydrated from a row with that name |
| Server.Writer.FindOrCreateFluid | src/server/DBWriter.java:108-111 | `found` is what `findBy("type", …)` returned, exactly the first-row hydration of `FindByRows` when it ran; a stored fluid found is returned and nothing is created; a throw is passed on; null creates a new transient fluid of that type, and an unknown type throws |
| Server.Writer.FindOrCreateBuilding | src/server/DBWriter.java:114-118 | `found` is what `findBy("name", …)` returned, exactly the first-row hydration of `FindByRows` when it ran; a stored building found is returned and nothing is created; null creates a new transient building of that name |
| Server.Writer.NewFluid | src/server/DBWriter.java:110 | a new transient fluid of the type, or the exception `Type.valueOf` throws for an unknown type |
| Server.Writer.NewBuilding | src/server/DBWriter.java:116-117 | a new transient building named so |
| Server.Writer.Resolve | src/server/DBWriter.java:104-118 | looks up the sensor, and finds or creates the fluid and the building |
| Server.Writer.SaveExisting | src/server/DBWriter.java:120-126 | a known sensor gets the new floor, place, fluid and building, keeps its thresholds and its id, and is updated |
| Server.Writer.Relocate | src/server/DBWriter.java:122-125 | sets floor, place, fluid and building and nothing else |
| Server.Writer.UpdateSensor | src/server/DBWriter.java:126 | the update does not change the sensor's fields, and keeps a persisted id |
| Server.Writer.SaveNew | src/server/DBWriter.java:127-135 | a new sensor with the name and the fluid's default thresholds is inserted, taking the generated key on success |
| Server.Writer.InsertSensor | src/server/DBWriter.java:134 | the insert does not change the sensor's fields and gives it the generated key on success |
| Server.Writer.Save | src/server/DBWriter.java:120-135 | update the known sensor or insert a new one, ending with the announced fields either way |
| Server.Writer.Connect | src/server/DBWriter.java:97-141 | a malformed description, unknown fluid or bad floor throws before anything is saved; otherwise one insert notice for the saved sensor, which is updated (thresholds and id kept) when known and new with default thresholds otherwise |
| Server.Writer.Register | src/server/DBWriter.java:104-140 | the same, once the description is split |
| Server.Writer.InsertValue | src/server/DBWriter.java:162 | the reading is unchanged and, on success, the value table's last row is its dehydration |
| Server.Writer.Record | src/server/DBWriter.java:158-163 | a fresh reading of the number for the sensor is inserted, and becomes the sensor's last value |
| Server.Writer.Data | src/server/DBWriter.java:149-167 | an unknown sensor changes nothing and sends no notice; a known one gets one new reading as its last value, and one update notice |
| Server.Writer.Disconnect | src/server/DBWriter.java:174-184 | never writes to the store; a known sensor gets one remove notice, an unknown one none |
| Server.Writer.Write | src/server/DBWriter.java:69-85 | a line that fails to parse throws and changes nothing; an ignored line changes nothing; at most one notice is sent per line; a `connexion` line that succeeds saves the described sensor (a proxy with the stored thresholds when the name is known, defaults otherwise) and sends exactly one insert notice for it; a `donnee` line drops the reading of an unknown sensor and otherwise stores it as the sensor's last value, with the reading and the instant, and sends one update notice; a `deconnexion` line writes nothing and sends a remove notice exactly when the sensor is known |
| Table.SensorCell | src/table/SensorTableModel.java:102-114 | columns 0 to 5 are name, fluid, building, floor, place and last value; any other column throws IllegalArgumentException |
| Table.IndexOf | src/table/SensorTableModel.java:160 | `indexOf` is the first row equal to the sensor, or -1 exactly when none is |
| Table.InsertedTwice | src/table/SensorTableModel.java:134-136 | a sensor inserted twice occupies two more rows |
| Table.OccurrencesRemoved | src/table/SensorTableModel.java:162 | removing a row equal to a sensor takes away exactly one such row |
| Table.ReconnectLeavesRow | src/table/SensorTableModel.java:152-169 | after a reconnect, removing the sensor leaves a row for it |
| Table.NoOccurrences | src/table/SensorTableModel.java:160 | with no equal row, the sensor occupies no row |
| Table.SensorTableModel.constructor | src/table/SensorTableModel.java:28-43 | the table starts with no row |
| Table.SensorTableModel.RowCount | src/table/SensorTableModel.java:49-51 | the row count is the number of stored sensors |
| Table.SensorTableModel.ColumnCount | src/table/SensorTableModel.java:57-59 | there are six columns |
| Table.SensorTableModel.ColumnName | src/table/SensorTableModel.java:68-70 | columns 0 to 5 are named Nom, Type, Bâtiment, Étage, Lieu, Valeur; any other index throws |
| Table.SensorTableModel.ValueAt | src/table/SensorTableModel.java:102-114 | a missing row throws; otherwise the cell is the row's sensor's field for that column |
| Table.SensorTableModel.GetColumnClass | src/table/SensorTableModel.java:79-91 | Object for an empty table; otherwise the class of row 0's cell in that column, and a bad column throws |
| Table.SensorTableModel.GetSensorAt | src/table/SensorTableModel.java:204-206 | the sensor of that row; a missing row throws |
| Table.SensorTableModel.Insert | src/table/SensorTableModel.java:134-136 | the sensor is appended, even when an equal row exists |
| Table.Removed | src/table/SensorTableModel.java:162 | `List.remove(o)` drops the first row equal to the sensor: the rows before and after keep their order, none before it is equal, and one equal row fewer remains |
| Table.SensorTableModel.Remove | src/table/SensorTableModel.java:152-169 | the first equal row is removed and the others keep their order; without one the table is unchanged and the call throws |
| Table.SensorTableModel.Update | src/table/SensorTableModel.java:177-196 | the first equal row is replaced by the sensor; without one the call throws |
| Tree.OnFloor | src/tree/SensorTreeModel.java:101-111 | a floor's list holds only sensors of that floor |
| Tree.NoneOnFloor | src/tree/SensorTreeModel.java:105-108 | a floor with no sensor in the input has an empty list |
| Tree.Lookup | src/tree/SensorTreeModel.java:103 | `get(floor)` finds the floor's entry exactly when the map has one |
| Tree.Position | src/tree/SensorTreeModel.java:108 | a new floor goes after every lower floor and before every higher one |
| Tree.AddStep | src/tree/SensorTreeModel.java:101-111 | one turn of the loop keeps the map the bucketing of the sensors seen so far |
| Tree.NewFloor | src/tree/SensorTreeModel.java:105-108 | the same, for a sensor whose floor has no entry yet |
| Tree.Put | src/tree/SensorTreeModel.java:108 | inserting a new floor keeps the floors ascending and adds no other entry |
| Tree.Add | src/tree/SensorTreeModel.java:101-111 | one turn of the loop keeps the floors ascending and only adds the given sensor |
| Tree.SensorsByFloor | src/tree/SensorTreeModel.java:98-115 | the loop returns exactly `Bucketed(list)`, the map of the whole list |
| Tree.Bucketed | src/tree/SensorTreeModel.java:98-115 | the map of a list has ascending floors and holds only sensors of the list |
| Tree.BucketedByFloor | src/tree/SensorTreeModel.java:98-115 | in the map of a list, floors ascend, none is empty, each holds exactly its floor's sensors in input order, and every input floor is present |
| Tree.OneBucket | src/tree/SensorTreeModel.java:98-115 | each sensor is in exactly one floor's list, its own floor's |
| Tree.OnFloorHas | src/tree/SensorTreeModel.java:101-111 | each input sensor is in its floor's list |
| Tree.EmptyIff | src/tree/SensorTreeModel.java:66 | the map is empty exactly when the building has no sensor |
| Tree.NewLeavesShows | src/tree/SensorTreeModel.java:80-86 | each new leaf is a sensor of the floor, keyed by its identity and not shown before; no key repeats; every sensor of the floor is shown before or gets a leaf |
| Tree.FloorsOfShape | src/tree/SensorTreeModel.java:72-77 | one floor node per floor of the map, in ascending order |
| Tree.FloorsOfFresh | src/tree/SensorTreeModel.java:79-86 | the leaves under a building's floors have distinct keys, none of them shown before |
| Tree.FloorsOfCovers | src/tree/SensorTreeModel.java:79-86 | every sensor of the building is shown before or has a leaf under one of its floors |
| Tree.FloorsOfShows | src/tree/SensorTreeModel.java:72-87 | the previous three together, for the floor nodes of a building |
| Tree.VisitedShows | src/tree/SensorTreeModel.java:59-88 | a building with no sensor or already shown changes nothing; otherwise exactly one node is appended for it, with floors, the building is recorded, and every sensor of it is shown afterwards; so a sensor inserted later into a building already shown never gets a node |
| Tree.VisitedExtends | src/tree/SensorTreeModel.java:59-88 | visiting a building keeps the existing nodes and only appends nodes of buildings not shown before, each with floors |
| Tree.ConstructionBuildings | src/tree/SensorTreeModel.java:53-90 | after `construct` the shown buildings are the old ones plus every fetched building with at least one sensor |
| Tree.ConstructionExtends | src/tree/SensorTreeModel.java:53-90 | `construct` keeps the existing nodes and only appends nodes of buildings not shown before, each with floors |
| Tree.ConstructionShows | src/tree/SensorTreeModel.java:59-86 | every sensor of a fetched building that was not yet shown when the loop reached it is shown at the end |
| Tree.ConstructionKeeps | src/tree/SensorTreeModel.java:53-90 | a sensor shown at some turn of the loop stays shown |
| Tree.AddedValid | src/tree/SensorTreeModel.java:66-88 | appending a node for an unshown building whose leaves are fresh and distinct keeps every building and sensor shown once, with the recorded sets equal to the keys in the tree |
| Tree.SensorTreeModel.constructor | src/tree/SensorTreeModel.java:44-48 | the tree starts empty and then holds exactly what `construct` over the fetched buildings builds from an empty tree; the tree is consistent |
| Tree.SensorTreeModel.Construct | src/tree/SensorTreeModel.java:53-90 | the new state is exactly `Construction` of the old state over every fetched building, and the tree stays consistent |
| Tree.SensorTreeModel.Visit | src/tree/SensorTreeModel.java:59-88 | the new state is exactly `Visited` of the old state for this building and its sensors |
| Tree.SensorTreeModel.AddBuilding | src/tree/SensorTreeModel.java:66-88 | appends exactly one node for the building with the floor nodes `FloorsOf` gives, records the building, and records exactly the keys of the new leaves as shown |
| Tree.SensorTreeModel.AddFloors | src/tree/SensorTreeModel.java:75-87 | returns exactly `FloorsOf` of the shown set and the map, and records exactly the keys of the new leaves as shown |
| Tree.SensorTreeModel.AddLeaves | src/tree/SensorTreeModel.java:80-86 | returns exactly `NewLeaves` of the shown set and the floor's sensors, and records exactly their keys as shown |
| Tree.SensorTreeModel.TableChanged | src/tree/SensorTreeModel.java:121-126 | an INSERT event re-runs `construct`, so the state becomes `Construction` of the old state and the shown buildings grow by the fetched ones with sensors; any other event leaves all three fields as they are |
| Components.ToggleButton.constructor | src/components/EnhancedButtonGroup.java:48-50 | a new button is unselected and has no listener |
| Components.EnhancedButtonGroup.constructor | src/components/EnhancedButtonGroup.java:35-41 | a non-positive maximum becomes 1; no button is selected |
| Components.EnhancedButtonGroup.Add | src/components/EnhancedButtonGroup.java:48-50 | registers the group on the button once more, even when it already listens, and touches nothing else |
| Components.EnhancedButtonGroup.Remove | src/components/EnhancedButtonGroup.java:57-59 | drops one registration of the group on the button, if any, and keeps the bound unless the button was the last selected |
| Components.EnhancedButtonGroup.ItemStateChanged | src/components/EnhancedButtonGroup.java:68-82 | DESELECTED decrements; SELECTED at the maximum first deselects the last selected button, whose DESELECTED event is handled at once, once per registration of the group on it, then records and counts the new one; the bound on the count is kept; a null last selection throws |
| Components.AddedTwiceUndercounts | src/components/EnhancedButtonGroup.java:48-50 | a button added twice is uncounted twice when evicted, so under a maximum of one the counter ends at zero with a button selected |
| Components.RemoveDropsOneRegistration | src/components/EnhancedButtonGroup.java:57-59 | after two adds and one remove the group still listens to the button |
| Components.RemovedLastSelectedOverflows | src/components/EnhancedButtonGroup.java:57-59 | once the last selected button is removed from the group, selecting another leaves two selected under a maximum of one |

## Left out

- JDBC and MySQL are replaced by the in-memory store in `Store`. A failing statement is a nondeterministic failure flag, so `SQLException`s carry no cause.
- Query results come from a structured selection built next to each query (table, joins, filters on bound positions). The rendered SQL text is proved correct but never parsed.
- `Manager.getTable` is the `Managers.Table` declaration, and `Manager.findAll` is `Persistence.Database.FindAll`.
- Sockets and threads (the server's accept loop and reader threads) are left out. `Server.Writer.Write` receives one line at a time.
- `synchronized` on `connect` and the check-then-put race in `ManagerContainer.get` are left out, because the model is sequential.
- `SwingUtilities.invokeLater` and the table's notifications are an appended log of notices. Row sorters, row filters, `fire*` events, tree nodes, `reload` and all rendering are left out.
- Doubles are `real`, so NaN, rounding and `Value.toString`'s number format are left out.
- `Double.valueOf` and `Integer.valueOf` are parse functions passed as parameters. The model fixes no literal grammar for them.
- Timestamps are integers and the clock is a parameter of `Server.Writer.Data`.
- The reflective `c.newInstance()` in `ManagerContainer.get` is a nondeterministic construction that may fail.
- `String.toLowerCase` lowers ASCII letters only; other characters are unchanged.
- The insert/update cascade is unbounded in Java: a transient value's sensor inserts its values, which insert the sensor again. The model bounds it with a `depth` budget, and running out of budget is a `StackOverflowError`.
- Proxies are flagged objects of the entity class rather than subclasses. Each manager's `hydrate` and proxy loader is a method of `Persistence.Database` dispatching on the kind.
- The `ManagerContainer` singleton and its static map are an instance held by `Container.ContainerClass`.
- `Persistence.Database.GetValues`: on a failed query `findAllBy` returns the empty list, which is cached like any other result.
- Components.EnhancedButtonGroup.constructor: the warning printed on standard error for a non-positive maximum is output and is left out. The clamp to 1 is modelled.
- Tree.SensorTreeModel.Construct and Tree.SensorTreeModel.TableChanged receive the buildings and each building's sensors as lists of non-null objects. Several things `findAll()` and `findAllBy("building_id", …)` can do are therefore not modelled:
  - a null entry, which `fetchAll` adds when `hydrate` catches an `SQLException` (src/managers/Manager.java:147-149, src/managers/BuildingManager.java:26-38), and the `NullPointerException` it then raises at src/tree/SensorTreeModel.java:63 or 102;
  - `findAllBy` throwing on a sensor row without a fluid;
  - a null manager from the container throwing.
- `Persistence.Database.Fetch`, `LoadRows`, `FetchAll`, `FindBy`, `Find`, `FindAll`, `FindAllBy`, `FindAllValuesBySensorBetween`, `GetValues`, `GetSensor` and `Server.Writer.FindSensor`, `FindOrCreateFluid`, `FindOrCreateBuilding` state their exact answer under a flag (`ran`, or `complete` for `LoadRows`) that says the statement ran and the cursor was read to its end. A failing statement is nondeterministic, so no contract promises that a lookup runs.
- Persistence.Database.FindBy and Persistence.Database.FindAllBy state their exact answer over `FindByRows` only for a column name without a '?'. Such a character in the name would add a placeholder to the SQL text, and every call in the source passes a literal column name without one.
- `Store.Where` compares strings exactly. A case-insensitive MySQL collation in `=` comparisons is not modelled.
- `MySQLConnection.getConnection` leaves the connection null when `DriverManager.getConnection` throws (src/database/MySQLConnection.java:42-52). The model's connection always exists, so statements on a null connection are not modelled.
- `Entities.Value.CompareTo`: the difference of two doubles is taken exactly, so rounding near equal values is not modelled.

## Findings

| source | as written | input that shows it | evidently intended | confidence | as-written member | corrected member |
|---|---|---|---|---|---|---|
| src/database/Entity.java:56-58 | `hashCode` is `(getClass().hashCode() + id) * 31` while `equals` accepts a direct subclass | a `Sensor` and a `SensorProxy` with the same id are equal but hash apart whenever the two classes' hash codes differ | equal entities hash alike, for example by hashing the root entity class | not executed | Identity.HashCodeBreaksContract | Identity.ConsistentHashCodeAgrees |
