/**
 * `SensorTreeModel`: the tree of buildings, their floors in ascending
 * order and the sensors of each floor. The sets `addedBuildings` and
 * `addedSensors` remember what the tree already shows, so a rebuild adds
 * only buildings and sensors not shown yet.
 */
module Tree {
  import E = Entities
  import Identity

  /** One entry of the floor map: a floor and its sensors. */
  datatype Bucket = Bucket(floor: int, sensors: seq<E.Sensor>)

  /** The sensors of the list on a floor, in list order. */
  function OnFloor(list: seq<E.Sensor>, floor: int): (r: seq<E.Sensor>)
    reads set x | x in list
    ensures forall i :: 0 <= i < |r| ==> r[i].floor == floor
  {
    if list == [] then []
    else
      var last := list[|list| - 1];
      var front := list[..|list| - 1];
      OnFloor(front, floor) + (if last.floor == floor then [last] else [])
  }

  /** No sensor of the list is on the floor: the floor has no sensors. */
  lemma {:induction false} NoneOnFloor(list: seq<E.Sensor>, floor: int)
    requires forall k :: 0 <= k < |list| ==> list[k].floor != floor
    ensures OnFloor(list, floor) == []
  {
    if list != [] {
      NoneOnFloor(list[..|list| - 1], floor);
    }
  }

  /** The entries are in strictly ascending order of floor, as a `TreeMap` iterates them. */
  predicate Ascending(buckets: seq<Bucket>)
  {
    forall i, j :: 0 <= i < j < |buckets| ==> buckets[i].floor < buckets[j].floor
  }

  /** The position of the entry for a floor, if there is one. */
  predicate HasFloor(buckets: seq<Bucket>, floor: int)
  {
    exists i :: 0 <= i < |buckets| && buckets[i].floor == floor
  }

  /**
   * What `getSensorsByFloor` builds from a list: ascending floors, each
   * mapped to the non-empty list of the sensors on it, every sensor's
   * floor present.
   */
  ghost predicate ByFloor(buckets: seq<Bucket>, list: seq<E.Sensor>)
    reads set x | x in list
  {
    && Ascending(buckets)
    && (forall i :: 0 <= i < |buckets| ==> buckets[i].sensors != [] && buckets[i].sensors == OnFloor(list, buckets[i].floor))
    && (forall k :: 0 <= k < |list| ==> HasFloor(buckets, list[k].floor))
  }

  /** `TreeMap.get(floor)`: the position of the entry for the floor, or -1. */
  function Lookup(buckets: seq<Bucket>, floor: int): (i: int)
    ensures -1 <= i < |buckets|
    ensures i == -1 <==> !HasFloor(buckets, floor)
    ensures i >= 0 ==> buckets[i].floor == floor
    decreases |buckets|
  {
    if buckets == [] then -1
    else if buckets[0].floor == floor then 0
    else
      var i := Lookup(buckets[1..], floor);
      assert forall k :: 1 <= k < |buckets| ==> buckets[k] == buckets[1..][k - 1];
      if i == -1 then -1 else i + 1
  }

  /** Where an entry for the floor goes: after every entry of a lower floor. */
  function Position(buckets: seq<Bucket>, floor: int): (p: nat)
    requires Ascending(buckets)
    ensures p <= |buckets|
    ensures forall k :: 0 <= k < p ==> buckets[k].floor < floor
    ensures forall k :: p <= k < |buckets| ==> buckets[k].floor >= floor
    decreases |buckets|
  {
    if buckets == [] || floor <= buckets[0].floor then 0
    else
      var p := Position(buckets[1..], floor);
      assert forall k :: 1 <= k < |buckets| ==> buckets[k] == buckets[1..][k - 1];
      p + 1
  }

  /** `TreeMap.put` of a floor not in the map: the new entry at its place in floor order. */
  function Put(buckets: seq<Bucket>, b: Bucket): (r: seq<Bucket>)
    requires Ascending(buckets) && !HasFloor(buckets, b.floor)
    ensures Ascending(r)
    ensures forall c :: c in r ==> c in buckets || c == b
  {
    var p := Position(buckets, b.floor);
    assert buckets == buckets[..p] + buckets[p..];
    buckets[..p] + [b] + buckets[p..]
  }

  /** The entries hold only sensors of the list. */
  ghost predicate HeldBy(buckets: seq<Bucket>, list: seq<E.Sensor>)
  {
    Sensors(buckets) <= set x | x in list
  }

  /** The sensors held by the entries. */
  function Sensors(buckets: seq<Bucket>): set<E.Sensor>
  {
    set c, x | c in buckets && x in c.sensors :: x
  }

  /**
   * One step of `getSensorsByFloor`: `get(floor)`, then either a `put` of
   * a new one-sensor list or an `add` to the list found.
   */
  function Add(buckets: seq<Bucket>, floor: int, s: E.Sensor): (r: seq<Bucket>)
    requires Ascending(buckets)
    ensures Ascending(r)
    ensures Sensors(r) <= Sensors(buckets) + {s}
  {
    var j := Lookup(buckets, floor);
    if j == -1 then Put(buckets, Bucket(floor, [s]))
    else buckets[j := Bucket(floor, buckets[j].sensors + [s])]
  }

  /** A step keeps the map equal to the bucketing of the list read so far. */
  lemma AddStep(buckets: seq<Bucket>, list: seq<E.Sensor>, s: E.Sensor)
    requires ByFloor(buckets, list)
    ensures ByFloor(Add(buckets, s.floor, s), list + [s])
  {
    var floor := s.floor;
    var list' := list + [s];
    assert list'[..|list'| - 1] == list;
    assert forall f :: OnFloor(list', f) == OnFloor(list, f) + (if floor == f then [s] else []);
    if Lookup(buckets, floor) == -1 {
      NewFloor(buckets, list, s);
    } else {
      var j := Lookup(buckets, floor);
      var r := Add(buckets, floor, s);
      forall k | 0 <= k < |buckets| && k != j
        ensures buckets[k].floor != floor
      {
        assert buckets[k].floor != buckets[j].floor;
      }
      forall k | 0 <= k < |list'|
        ensures HasFloor(r, list'[k].floor)
      {
        if k < |list| {
          assert list'[k] == list[k];
          var m :| 0 <= m < |buckets| && buckets[m].floor == list[k].floor;
          assert r[m].floor == buckets[m].floor;
        } else {
          assert r[j].floor == floor;
        }
      }
    }
  }

  /** The step for a floor not in the map yet. */
  lemma NewFloor(buckets: seq<Bucket>, list: seq<E.Sensor>, s: E.Sensor)
    requires ByFloor(buckets, list) && !HasFloor(buckets, s.floor)
    requires forall f :: OnFloor(list + [s], f) == OnFloor(list, f) + (if s.floor == f then [s] else [])
    ensures ByFloor(Add(buckets, s.floor, s), list + [s])
  {
    var p := Position(buckets, s.floor);
    var r := Add(buckets, s.floor, s);
    assert r == buckets[..p] + [Bucket(s.floor, [s])] + buckets[p..];
    NewFloorEntries(buckets, list, s, p, r);
    NewFloorCovers(buckets, list, s, p, r);
  }

  /** After inserting the new entry, every entry holds exactly the sensors on its floor. */
  lemma NewFloorEntries(buckets: seq<Bucket>, list: seq<E.Sensor>, s: E.Sensor, p: nat, r: seq<Bucket>)
    requires ByFloor(buckets, list) && !HasFloor(buckets, s.floor)
    requires forall f :: OnFloor(list + [s], f) == OnFloor(list, f) + (if s.floor == f then [s] else [])
    requires p <= |buckets| && r == buckets[..p] + [Bucket(s.floor, [s])] + buckets[p..]
    ensures forall k :: 0 <= k < |r| ==> r[k].sensors != [] && r[k].sensors == OnFloor(list + [s], r[k].floor)
  {
    NoneOnFloor(list, s.floor);
    forall k | 0 <= k < |r|
      ensures r[k].sensors != [] && r[k].sensors == OnFloor(list + [s], r[k].floor)
    {
      if k == p {
        assert r[k] == Bucket(s.floor, [s]);
      } else {
        var m := if k < p then k else k - 1;
        assert r[k] == buckets[m];
        assert buckets[m].floor != s.floor;
      }
    }
  }

  /** After inserting the new entry, every sensor read so far has an entry for its floor. */
  lemma NewFloorCovers(buckets: seq<Bucket>, list: seq<E.Sensor>, s: E.Sensor, p: nat, r: seq<Bucket>)
    requires forall k :: 0 <= k < |list| ==> HasFloor(buckets, list[k].floor)
    requires p <= |buckets| && r == buckets[..p] + [Bucket(s.floor, [s])] + buckets[p..]
    ensures forall k :: 0 <= k < |list + [s]| ==> HasFloor(r, (list + [s])[k].floor)
  {
    var list' := list + [s];
    forall k | 0 <= k < |list'|
      ensures HasFloor(r, list'[k].floor)
    {
      if k < |list| {
        assert list'[k] == list[k];
        var m :| 0 <= m < |buckets| && buckets[m].floor == list[k].floor;
        if m >= p {
          assert r[m + 1] == buckets[m];
        } else {
          assert r[m] == buckets[m];
        }
      } else {
        assert r[p].floor == s.floor;
      }
    }
  }

  /**
   * `getSensorsByFloor(sensors)`: one pass over the list, appending each
   * sensor to the entry of its floor and creating the entry on first use.
   */
  method SensorsByFloor(list: seq<E.Sensor>) returns (buckets: seq<Bucket>)
    ensures buckets == Bucketed(list)
  {
    buckets := [];
    for i := 0 to |list|
      invariant buckets == Bucketed(list[..i])
    {
      var s := list[i];
      assert list[..i + 1][..i] == list[..i];
      buckets := Add(buckets, s.floor, s);
    }
    assert list[..|list|] == list;
  }

  /**
   * The map `getSensorsByFloor` builds, as the steps over the list one
   * after the other: its floors ascend and it holds only sensors of the
   * list.
   */
  function Bucketed(list: seq<E.Sensor>): (r: seq<Bucket>)
    reads set x | x in list
    ensures Ascending(r)
    ensures Sensors(r) <= set x | x in list
  {
    if list == [] then []
    else
      var front := list[..|list| - 1];
      var last := list[|list| - 1];
      assert list == front + [last];
      Add(Bucketed(front), last.floor, last)
  }

  /** Every sensor of the list sits in the entry of its floor, in list order, and no entry is empty. */
  lemma {:induction false} BucketedByFloor(list: seq<E.Sensor>)
    ensures ByFloor(Bucketed(list), list)
  {
    if list != [] {
      var front := list[..|list| - 1];
      var last := list[|list| - 1];
      assert list == front + [last];
      BucketedByFloor(front);
      AddStep(Bucketed(front), front, last);
    }
  }

  /** Each sensor of the list is in exactly one entry: the one of its floor. */
  lemma OneBucket(buckets: seq<Bucket>, list: seq<E.Sensor>, x: E.Sensor)
    requires ByFloor(buckets, list) && x in list
    ensures exists i :: 0 <= i < |buckets| && buckets[i].floor == x.floor && x in buckets[i].sensors
    ensures forall i :: 0 <= i < |buckets| && x in buckets[i].sensors ==> buckets[i].floor == x.floor
    ensures forall i, j :: 0 <= i < |buckets| && 0 <= j < |buckets| && x in buckets[i].sensors && x in buckets[j].sensors ==> i == j
  {
    var b :| b in buckets && b.floor == x.floor;
    var i :| 0 <= i < |buckets| && buckets[i] == b;
    assert x in OnFloor(list, x.floor) by {
      OnFloorHas(list, x);
    }
    forall j | 0 <= j < |buckets| && x in buckets[j].sensors
      ensures buckets[j].floor == x.floor
    {
      assert buckets[j] in buckets;
    }
  }

  /** A sensor of the list is among the sensors of its own floor. */
  lemma {:induction false} OnFloorHas(list: seq<E.Sensor>, x: E.Sensor)
    requires x in list
    ensures x in OnFloor(list, x.floor)
  {
    var last := list[|list| - 1];
    if x != last {
      assert x in list[..|list| - 1] by {
        var k :| 0 <= k < |list| && list[k] == x;
        assert k < |list| - 1;
        assert list[..|list| - 1][k] == x;
      }
      OnFloorHas(list[..|list| - 1], x);
    }
  }

  /** The map is empty exactly when the list is. */
  lemma EmptyIff(buckets: seq<Bucket>, list: seq<E.Sensor>)
    requires ByFloor(buckets, list)
    ensures buckets == [] <==> list == []
  {
    if list != [] {
      assert list[0] in list;
    }
    if buckets != [] {
      assert buckets[0] in buckets;
    }
  }

  /** A sensor node, with the key `addedSensors` recorded for it. */
  datatype SensorLeaf = SensorLeaf(sensor: E.Sensor, key: Identity.EntityKey)
  datatype FloorNode = FloorNode(floor: int, leaves: seq<SensorLeaf>)
  datatype BuildingNode = BuildingNode(building: E.Building, key: Identity.EntityKey, floors: seq<FloorNode>)

  function LeafKeys(leaves: seq<SensorLeaf>): seq<Identity.EntityKey>
  {
    seq(|leaves|, i requires 0 <= i < |leaves| => leaves[i].key)
  }

  /** The keys of the sensor nodes under a list of floor nodes, in tree order. */
  function FloorKeys(floors: seq<FloorNode>): seq<Identity.EntityKey>
  {
    if floors == [] then [] else FloorKeys(floors[..|floors| - 1]) + LeafKeys(floors[|floors| - 1].leaves)
  }

  /** The keys of every sensor node of the tree, in tree order. */
  function TreeKeys(nodes: seq<BuildingNode>): seq<Identity.EntityKey>
  {
    if nodes == [] then [] else TreeKeys(nodes[..|nodes| - 1]) + FloorKeys(nodes[|nodes| - 1].floors)
  }

  function BuildingKeys(nodes: seq<BuildingNode>): seq<Identity.EntityKey>
  {
    seq(|nodes|, i requires 0 <= i < |nodes| => nodes[i].key)
  }

  /** Appending a building node appends the keys of its sensor nodes. */
  lemma TreeKeysSnoc(nodes: seq<BuildingNode>, n: BuildingNode)
    ensures TreeKeys(nodes + [n]) == TreeKeys(nodes) + FloorKeys(n.floors)
  {
    assert (nodes + [n])[..|nodes|] == nodes;
  }

  /** Appending a building node appends its key. */
  lemma BuildingKeysSnoc(nodes: seq<BuildingNode>, n: BuildingNode)
    ensures BuildingKeys(nodes + [n]) == BuildingKeys(nodes) + [n.key]
  {
  }

  predicate Distinct(ks: seq<Identity.EntityKey>)
  {
    forall i, j :: 0 <= i < j < |ks| ==> ks[i] != ks[j]
  }

  /** Appending a key not yet present keeps the keys distinct. */
  lemma DistinctSnoc(ks: seq<Identity.EntityKey>, k: Identity.EntityKey)
    requires Distinct(ks) && k !in ks
    ensures Distinct(ks + [k])
  {
  }

  /** The keys of the buildings among the first `n` fetched that have at least one sensor. */
  function WithSensors(fetched: seq<(E.Building, seq<E.Sensor>)>, n: nat): set<Identity.EntityKey>
    requires n <= |fetched|
    reads set j | 0 <= j < |fetched| :: fetched[j].0
  {
    if n == 0 then {}
    else WithSensors(fetched, n - 1) + (if fetched[n - 1].1 != [] then {fetched[n - 1].0.Key()} else {})
  }

  /** The keys of a sequence, as a set. */
  function KeySet(ks: seq<Identity.EntityKey>): set<Identity.EntityKey>
  {
    set k | k in ks
  }

  lemma KeySetAppend(a: seq<Identity.EntityKey>, b: seq<Identity.EntityKey>)
    ensures KeySet(a + b) == KeySet(a) + KeySet(b)
  {
  }

  /** Two distinct sequences of keys with no key in common stay distinct once joined. */
  lemma DistinctAppend(a: seq<Identity.EntityKey>, b: seq<Identity.EntityKey>)
    requires Distinct(a) && Distinct(b) && forall k :: k in b ==> k !in a
    ensures Distinct(a + b)
  {
    forall i, j | 0 <= i < j < |a + b|
      ensures (a + b)[i] != (a + b)[j]
    {
      if i < |a| && j >= |a| {
        assert (a + b)[j] == b[j - |a|] && b[j - |a|] in b;
      }
    }
  }

  /**
   * The sensor nodes the sensors loop of `construct` creates for one
   * floor: each sensor in turn gets a node unless its key is shown
   * already or was just given one.
   */
  function NewLeaves(shown: set<Identity.EntityKey>, sensors: seq<E.Sensor>): seq<SensorLeaf>
    reads set x | x in sensors
  {
    if sensors == [] then []
    else
      var front := sensors[..|sensors| - 1];
      var last := sensors[|sensors| - 1];
      assert sensors == front + [last];
      var prev := NewLeaves(shown, front);
      var k := last.Key();
      if k in shown || k in LeafKeys(prev) then prev else prev + [SensorLeaf(last, k)]
  }

  /**
   * Every sensor of the floor ends up shown, each new node is for a
   * sensor of the floor under its own key, not shown before, and no key
   * gets two nodes.
   */
  lemma {:induction false} NewLeavesShows(shown: set<Identity.EntityKey>, sensors: seq<E.Sensor>)
    ensures forall l :: l in NewLeaves(shown, sensors) ==> l.sensor in sensors && l.key == l.sensor.Key() && l.key !in shown
    ensures Distinct(LeafKeys(NewLeaves(shown, sensors)))
    ensures forall x :: x in sensors ==> x.Key() in shown || x.Key() in LeafKeys(NewLeaves(shown, sensors))
  {
    if sensors != [] {
      var front := sensors[..|sensors| - 1];
      var last := sensors[|sensors| - 1];
      assert sensors == front + [last];
      NewLeavesShows(shown, front);
      var prev := NewLeaves(shown, front);
      var k := last.Key();
      if !(k in shown || k in LeafKeys(prev)) {
        var r := prev + [SensorLeaf(last, k)];
        LeafKeysSnoc(prev, SensorLeaf(last, k));
        DistinctSnoc(LeafKeys(prev), k);
        forall l | l in r
          ensures l.sensor in sensors && l.key == l.sensor.Key() && l.key !in shown
        {
          if l in prev {
            assert l.sensor in front;
          }
        }
      }
    }
  }

  /** The new leaves of one more sensor: the sensor gets a node unless its key is shown or just given one. */
  lemma NewLeavesStep(shown: set<Identity.EntityKey>, sensors: seq<E.Sensor>, i: nat)
    requires i < |sensors|
    ensures var prev := NewLeaves(shown, sensors[..i]);
      var k := sensors[i].Key();
      NewLeaves(shown, sensors[..i + 1]) == if k in shown || k in LeafKeys(prev) then prev else prev + [SensorLeaf(sensors[i], k)]
  {
    assert sensors[..i + 1][..i] == sensors[..i];
  }

  /** Appending a sensor node appends its key. */
  lemma LeafKeysSnoc(leaves: seq<SensorLeaf>, l: SensorLeaf)
    ensures LeafKeys(leaves + [l]) == LeafKeys(leaves) + [l.key]
  {
  }

  /** Appending a floor node appends the keys of its sensor nodes. */
  lemma FloorKeysSnoc(floors: seq<FloorNode>, f: FloorNode)
    ensures FloorKeys(floors + [f]) == FloorKeys(floors) + LeafKeys(f.leaves)
  {
    assert (floors + [f])[..|floors|] == floors;
  }

  /**
   * The floor nodes the floors loop of `construct` creates for a map:
   * one per entry, in the entries' order, each holding the new sensor
   * nodes of its entry given what is shown by then.
   */
  function FloorsOf(shown: set<Identity.EntityKey>, buckets: seq<Bucket>, ghost list: seq<E.Sensor>): seq<FloorNode>
    requires HeldBy(buckets, list)
    reads set x | x in list
  {
    if buckets == [] then []
    else
      var front := buckets[..|buckets| - 1];
      var last := buckets[|buckets| - 1];
      assert buckets == front + [last];
      assert Sensors(front) <= Sensors(buckets);
      var prev := FloorsOf(shown, front, list);
      assert last in buckets;
      assert forall x :: x in last.sensors ==> x in Sensors(buckets);
      assert forall x :: x in last.sensors ==> x in list;
      prev + [FloorNode(last.floor, NewLeaves(shown + KeySet(FloorKeys(prev)), last.sensors))]
  }

  /** The floors of one more entry: a floor node for it with its new leaves. */
  lemma FloorsOfStep(shown: set<Identity.EntityKey>, buckets: seq<Bucket>, list: seq<E.Sensor>, i: nat)
    requires i < |buckets| && HeldBy(buckets, list)
    ensures HeldBy(buckets[..i], list) && HeldBy(buckets[..i + 1], list)
    ensures var prev := FloorsOf(shown, buckets[..i], list);
      FloorsOf(shown, buckets[..i + 1], list) == prev + [FloorNode(buckets[i].floor, NewLeaves(shown + KeySet(FloorKeys(prev)), buckets[i].sensors))]
  {
    assert buckets[..i + 1][..i] == buckets[..i];
  }

  /** The floors of a non-empty map: those of all but the last entry, then a node for the last. */
  lemma FloorsOfLast(shown: set<Identity.EntityKey>, buckets: seq<Bucket>, list: seq<E.Sensor>)
    requires buckets != [] && HeldBy(buckets, list)
    ensures HeldBy(buckets[..|buckets| - 1], list)
    ensures var prev := FloorsOf(shown, buckets[..|buckets| - 1], list);
      var last := buckets[|buckets| - 1];
      var leaves := NewLeaves(shown + KeySet(FloorKeys(prev)), last.sensors);
      && FloorsOf(shown, buckets, list) == prev + [FloorNode(last.floor, leaves)]
      && FloorKeys(FloorsOf(shown, buckets, list)) == FloorKeys(prev) + LeafKeys(leaves)
  {
    var front := buckets[..|buckets| - 1];
    assert buckets == front + [buckets[|buckets| - 1]];
    assert Sensors(front) <= Sensors(buckets);
    var r := FloorsOf(shown, buckets, list);
    assert r[..|r| - 1] == FloorsOf(shown, front, list);
  }

  /** The floors loop makes one floor node per entry of the map, in the map's order. */
  lemma {:induction false} FloorsOfShape(shown: set<Identity.EntityKey>, buckets: seq<Bucket>, list: seq<E.Sensor>)
    requires HeldBy(buckets, list)
    ensures |FloorsOf(shown, buckets, list)| == |buckets|
    ensures forall i :: 0 <= i < |buckets| ==> FloorsOf(shown, buckets, list)[i].floor == buckets[i].floor
  {
    if buckets != [] {
      var front := buckets[..|buckets| - 1];
      FloorsOfLast(shown, buckets, list);
      FloorsOfShape(shown, front, list);
      var prev := FloorsOf(shown, front, list);
      var r := FloorsOf(shown, buckets, list);
      var last := buckets[|buckets| - 1];
      assert r[..|prev|] == prev && r[|prev|].floor == last.floor;
      forall i | 0 <= i < |buckets|
        ensures r[i].floor == buckets[i].floor
      {
        if i < |front| {
          assert r[i] == r[..|prev|][i];
        }
      }
    }
  }

  /** The floors loop gives no sensor two nodes and none to a sensor shown before. */
  lemma {:induction false} FloorsOfFresh(shown: set<Identity.EntityKey>, buckets: seq<Bucket>, list: seq<E.Sensor>)
    requires HeldBy(buckets, list)
    ensures Distinct(FloorKeys(FloorsOf(shown, buckets, list)))
    ensures forall k :: k in FloorKeys(FloorsOf(shown, buckets, list)) ==> k !in shown
  {
    if buckets != [] {
      var front := buckets[..|buckets| - 1];
      var last := buckets[|buckets| - 1];
      FloorsOfLast(shown, buckets, list);
      FloorsOfFresh(shown, front, list);
      var prev := FloorsOf(shown, front, list);
      var leaves := NewLeaves(shown + KeySet(FloorKeys(prev)), last.sensors);
      NewLeavesShows(shown + KeySet(FloorKeys(prev)), last.sensors);
      forall k | k in LeafKeys(leaves)
        ensures k !in shown && k !in FloorKeys(prev)
      {
        var i :| 0 <= i < |leaves| && leaves[i].key == k;
        assert leaves[i] in leaves;
      }
      DistinctAppend(FloorKeys(prev), LeafKeys(leaves));
    }
  }

  /** After the floors loop every sensor of the map is shown. */
  lemma {:induction false} FloorsOfCovers(shown: set<Identity.EntityKey>, buckets: seq<Bucket>, list: seq<E.Sensor>)
    requires HeldBy(buckets, list)
    ensures forall x :: x in Sensors(buckets) ==> x.Key() in shown || x.Key() in FloorKeys(FloorsOf(shown, buckets, list))
  {
    if buckets != [] {
      var front := buckets[..|buckets| - 1];
      var last := buckets[|buckets| - 1];
      FloorsOfLast(shown, buckets, list);
      FloorsOfCovers(shown, front, list);
      var prev := FloorsOf(shown, front, list);
      NewLeavesShows(shown + KeySet(FloorKeys(prev)), last.sensors);
      assert buckets == front + [last];
      forall x | x in Sensors(buckets)
        ensures x.Key() in shown || x.Key() in FloorKeys(FloorsOf(shown, buckets, list))
      {
        var c :| c in buckets && x in c.sensors;
        if c != last {
          assert c in front && x in Sensors(front);
        }
      }
    }
  }

  /**
   * The floors of a new building show every sensor of the map that was
   * not shown before, each exactly once, and nothing shown before.
   */
  lemma FloorsOfShows(shown: set<Identity.EntityKey>, buckets: seq<Bucket>, list: seq<E.Sensor>)
    requires HeldBy(buckets, list)
    ensures |FloorsOf(shown, buckets, list)| == |buckets|
    ensures forall i :: 0 <= i < |buckets| ==> FloorsOf(shown, buckets, list)[i].floor == buckets[i].floor
    ensures Distinct(FloorKeys(FloorsOf(shown, buckets, list)))
    ensures forall k :: k in FloorKeys(FloorsOf(shown, buckets, list)) ==> k !in shown
    ensures forall x :: x in Sensors(buckets) ==> x.Key() in shown || x.Key() in FloorKeys(FloorsOf(shown, buckets, list))
  {
    FloorsOfShape(shown, buckets, list);
    FloorsOfFresh(shown, buckets, list);
    FloorsOfCovers(shown, buckets, list);
  }

  /** What the tree shows: its building nodes and the keys recorded for buildings and sensors. */
  datatype TreeState = TreeState(nodes: seq<BuildingNode>, buildings: set<Identity.EntityKey>, sensors: set<Identity.EntityKey>)

  /** One turn of `construct`'s loop on a state of the tree. */
  function Visited(st: TreeState, b: E.Building, list: seq<E.Sensor>): TreeState
    reads b, set x | x in list
  {
    var buckets := Bucketed(list);
    var key := b.Key();
    if buckets != [] && key !in st.buildings then
      var floors := FloorsOf(st.sensors, buckets, list);
      TreeState(st.nodes + [BuildingNode(b, key, floors)], st.buildings + {key}, st.sensors + KeySet(FloorKeys(floors)))
    else st
  }

  /**
   * A building with sensors and not shown yet gets a node at the end of
   * the root's children, with a floor node per floor of its sensors, and
   * every one of its sensors is shown afterwards; any other building
   * changes nothing.
   */
  lemma VisitedShows(st: TreeState, b: E.Building, list: seq<E.Sensor>)
    ensures list == [] || b.Key() in st.buildings ==> Visited(st, b, list) == st
    ensures list != [] && b.Key() !in st.buildings ==>
      var r := Visited(st, b, list);
      && |r.nodes| == |st.nodes| + 1 && r.nodes[..|st.nodes|] == st.nodes
      && r.nodes[|st.nodes|].building == b && r.nodes[|st.nodes|].key == b.Key()
      && r.nodes[|st.nodes|].floors != []
      && r.buildings == st.buildings + {b.Key()}
      && st.sensors <= r.sensors
      && (forall x :: x in list ==> x.Key() in r.sensors)
  {
    var buckets := Bucketed(list);
    BucketedByFloor(list);
    EmptyIff(buckets, list);
    if buckets != [] && b.Key() !in st.buildings {
      FloorsOfShows(st.sensors, buckets, list);
      forall x | x in list
        ensures x in Sensors(buckets)
      {
        OneBucket(buckets, list, x);
      }
    }
  }

  /** The buildings fetched. */
  function FetchedBuildings(fetched: seq<(E.Building, seq<E.Sensor>)>): set<E.Building>
  {
    set j | 0 <= j < |fetched| :: fetched[j].0
  }

  /** The sensors fetched, of every building. */
  function FetchedSensors(fetched: seq<(E.Building, seq<E.Sensor>)>): set<E.Sensor>
  {
    set j, x | 0 <= j < |fetched| && x in fetched[j].1 :: x
  }

  /** `construct()` over the first `n` buildings fetched, each with its sensors. */
  function Construction(st: TreeState, fetched: seq<(E.Building, seq<E.Sensor>)>, n: nat): (r: TreeState)
    requires n <= |fetched|
    reads FetchedBuildings(fetched), FetchedSensors(fetched)
  {
    if n == 0 then st
    else
      assert forall x :: x in fetched[n - 1].1 ==> x in FetchedSensors(fetched);
      Visited(Construction(st, fetched, n - 1), fetched[n - 1].0, fetched[n - 1].1)
  }

  /**
   * A rebuild records exactly the buildings it was given that have at
   * least one sensor, besides those recorded before.
   */
  lemma {:induction false} ConstructionBuildings(st: TreeState, fetched: seq<(E.Building, seq<E.Sensor>)>, n: nat)
    requires n <= |fetched|
    ensures Construction(st, fetched, n).buildings == st.buildings + WithSensors(fetched, n)
  {
    if n > 0 {
      var m := n - 1;
      ConstructionBuildings(st, fetched, m);
      VisitBuildings(st, fetched, m);
      assert WithSensors(fetched, m + 1) == WithSensors(fetched, m) + (if fetched[m].1 != [] then {fetched[m].0.Key()} else {});
    }
  }

  /** One turn of the rebuild records the building when it has sensors. */
  lemma VisitBuildings(st: TreeState, fetched: seq<(E.Building, seq<E.Sensor>)>, m: nat)
    requires m < |fetched|
    ensures Construction(st, fetched, m + 1).buildings
      == Construction(st, fetched, m).buildings + (if fetched[m].1 != [] then {fetched[m].0.Key()} else {})
  {
    VisitedShows(Construction(st, fetched, m), fetched[m].0, fetched[m].1);
  }

  /**
   * `r` keeps the nodes of `st` and appends only nodes, each with at
   * least one floor, for buildings `st` does not record.
   */
  ghost predicate Extends(st: TreeState, r: TreeState)
  {
    && |st.nodes| <= |r.nodes| && r.nodes[..|st.nodes|] == st.nodes
    && forall i :: |st.nodes| <= i < |r.nodes| ==> r.nodes[i].key !in st.buildings && r.nodes[i].floors != []
  }

  /** Extending an extension of `a` that records no fewer buildings extends `a`. */
  lemma ExtendsTrans(a: TreeState, b: TreeState, c: TreeState)
    requires Extends(a, b) && Extends(b, c) && a.buildings <= b.buildings
    ensures Extends(a, c)
  {
    assert c.nodes[..|a.nodes|] == c.nodes[..|b.nodes|][..|a.nodes|];
    forall i | |a.nodes| <= i < |c.nodes|
      ensures c.nodes[i].key !in a.buildings && c.nodes[i].floors != []
    {
      if i < |b.nodes| {
        assert c.nodes[i] == c.nodes[..|b.nodes|][i];
      }
    }
  }

  /**
   * One turn keeps the nodes already there and appends at most one node,
   * for a building not recorded before, with at least one floor.
   */
  lemma VisitedExtends(st: TreeState, b: E.Building, list: seq<E.Sensor>)
    ensures Extends(st, Visited(st, b, list))
  {
    VisitedShows(st, b, list);
  }

  /** One turn of the rebuild extends the tree. */
  lemma VisitExtends(st: TreeState, fetched: seq<(E.Building, seq<E.Sensor>)>, m: nat)
    requires m < |fetched|
    ensures Extends(Construction(st, fetched, m), Construction(st, fetched, m + 1))
  {
    VisitedExtends(Construction(st, fetched, m), fetched[m].0, fetched[m].1);
  }

  /**
   * A rebuild keeps the nodes already there and appends, for each
   * building given that has sensors and was not shown before, a node
   * with at least one floor.
   */
  lemma {:induction false} ConstructionExtends(st: TreeState, fetched: seq<(E.Building, seq<E.Sensor>)>, n: nat)
    requires n <= |fetched|
    ensures Extends(st, Construction(st, fetched, n))
  {
    if n > 0 {
      var m := n - 1;
      ConstructionExtends(st, fetched, m);
      ConstructionBuildings(st, fetched, m);
      VisitExtends(st, fetched, m);
      ExtendsTrans(st, Construction(st, fetched, m), Construction(st, fetched, m + 1));
    } else {
      assert st.nodes[..|st.nodes|] == st.nodes;
    }
  }

  /**
   * Every sensor of a building that gets its node during a rebuild is
   * shown once the rebuild is done.
   */
  lemma ConstructionShows(st: TreeState, fetched: seq<(E.Building, seq<E.Sensor>)>, j: nat, x: E.Sensor)
    requires j < |fetched| && x in fetched[j].1
    requires fetched[j].0.Key() !in Construction(st, fetched, j).buildings
    ensures x.Key() in Construction(st, fetched, |fetched|).sensors
  {
    VisitedShows(Construction(st, fetched, j), fetched[j].0, fetched[j].1);
    ConstructionKeeps(st, fetched, j + 1, |fetched|, x.Key());
  }

  /** A rebuild takes nothing away from what is shown. */
  lemma {:induction false} ConstructionKeeps(st: TreeState, fetched: seq<(E.Building, seq<E.Sensor>)>, m: nat, n: nat, k: Identity.EntityKey)
    requires m <= n <= |fetched| && k in Construction(st, fetched, m).sensors
    ensures k in Construction(st, fetched, n).sensors
    decreases n - m
  {
    if m < n {
      VisitKeeps(st, fetched, m, k);
      ConstructionKeeps(st, fetched, m + 1, n, k);
    }
  }

  /** One turn of the rebuild takes nothing away from what is shown. */
  lemma VisitKeeps(st: TreeState, fetched: seq<(E.Building, seq<E.Sensor>)>, m: nat, k: Identity.EntityKey)
    requires m < |fetched| && k in Construction(st, fetched, m).sensors
    ensures k in Construction(st, fetched, m + 1).sensors
  {
    VisitedShows(Construction(st, fetched, m), fetched[m].0, fetched[m].1);
  }

  /**
   * The recorded sets are exactly the buildings and sensors the tree
   * shows, and the tree shows no building and no sensor twice.
   */
  ghost predicate ValidState(st: TreeState)
  {
    && Distinct(TreeKeys(st.nodes)) && st.sensors == KeySet(TreeKeys(st.nodes))
    && Distinct(BuildingKeys(st.nodes)) && st.buildings == KeySet(BuildingKeys(st.nodes))
  }

  /**
   * A node for a building not shown yet, whose floors show distinct
   * sensors none of which is shown yet, keeps the tree valid.
   */
  lemma AddedValid(st: TreeState, b: E.Building, key: Identity.EntityKey, floors: seq<FloorNode>)
    requires ValidState(st) && key !in st.buildings
    requires Distinct(FloorKeys(floors)) && forall k :: k in FloorKeys(floors) ==> k !in st.sensors
    ensures ValidState(TreeState(st.nodes + [BuildingNode(b, key, floors)], st.buildings + {key}, st.sensors + KeySet(FloorKeys(floors))))
  {
    var node := BuildingNode(b, key, floors);
    TreeKeysSnoc(st.nodes, node);
    BuildingKeysSnoc(st.nodes, node);
    DistinctSnoc(BuildingKeys(st.nodes), key);
    DistinctAppend(TreeKeys(st.nodes), FloorKeys(floors));
    KeySetAppend(TreeKeys(st.nodes), FloorKeys(floors));
    KeySetAppend(BuildingKeys(st.nodes), [key]);
  }

  /** What `tableChanged` receives: the type of a table model event. */
  datatype TableEventType = InsertEvent | UpdateEvent | DeleteEvent

  class SensorTreeModel {
    var addedSensors: set<Identity.EntityKey>
    var addedBuildings: set<Identity.EntityKey>
    /** The children of the root node. */
    var nodes: seq<BuildingNode>

    /**
     * The sets are exactly the buildings and sensors the tree shows, and
     * the tree shows no building and no sensor twice.
     */
    ghost predicate Valid()
      reads this
    {
      ValidState(State())
    }

    /** The tree as a value. */
    function State(): TreeState
      reads this
    {
      TreeState(nodes, addedBuildings, addedSensors)
    }

    /** The constructor: an empty root, then `construct()`. */
    constructor (fetched: seq<(E.Building, seq<E.Sensor>)>)
      ensures Valid()
      ensures State() == old(Construction(TreeState([], {}, {}), fetched, |fetched|))
    {
      addedSensors, addedBuildings, nodes := {}, {}, [];
      assert forall b :: b in FetchedBuildings(fetched) ==> allocated(b);
      assert forall x :: x in FetchedSensors(fetched) ==> allocated(x);
      new;
      Construct(fetched);
    }

    /**
     * `construct()`, given each building with the sensors that
     * `findAllBy("building_id", id)` returned for it: a building with at
     * least one sensor and not shown yet gets a node, with a node per
     * floor in ascending order holding the floor's sensors not shown yet.
     */
    method Construct(fetched: seq<(E.Building, seq<E.Sensor>)>)
      requires Valid()
      modifies this
      ensures Valid()
      ensures State() == old(Construction(State(), fetched, |fetched|))
    {
      ghost var st := State();
      assert forall b :: b in FetchedBuildings(fetched) ==> allocated(b);
      assert forall x :: x in FetchedSensors(fetched) ==> allocated(x);
      for j := 0 to |fetched|
        invariant Valid()
        invariant State() == Construction(st, fetched, j)
      {
        ghost var pre := State();
        ghost var next := Visited(pre, fetched[j].0, fetched[j].1);
        Visit(fetched[j].0, fetched[j].1);
        assert Construction(st, fetched, j) == pre;
        assert Visited(pre, fetched[j].0, fetched[j].1) == next;
      }
    }

    /**
     * One turn of `construct`'s loop: the building gets a node when it has
     * sensors and is not shown yet; otherwise nothing changes.
     */
    method Visit(b: E.Building, list: seq<E.Sensor>)
      requires Valid()
      modifies this
      ensures Valid()
      ensures State() == old(Visited(State(), b, list))
    {
      ghost var st := State();
      ghost var want := Visited(st, b, list);
      var buckets := SensorsByFloor(list);
      var key := b.Key();
      if buckets != [] && key !in addedBuildings {
        ghost var floors := FloorsOf(st.sensors, buckets, list);
        assert want == TreeState(st.nodes + [BuildingNode(b, key, floors)], st.buildings + {key}, st.sensors + KeySet(FloorKeys(floors)));
        AddBuilding(b, key, buckets, list);
        assert floors == FloorsOf(st.sensors, buckets, list);
      } else {
        assert want == st;
      }
      assert State() == want;
    }

    /**
     * A building node for a building not shown yet, its key recorded in
     * `addedBuildings`, with the floors the floors loop builds for the map.
     */
    method AddBuilding(b: E.Building, key: Identity.EntityKey, buckets: seq<Bucket>, ghost list: seq<E.Sensor>)
      requires Valid() && key !in addedBuildings && buckets != [] && HeldBy(buckets, list)
      modifies this
      ensures Valid()
      ensures var floors := FloorsOf(old(addedSensors), buckets, list);
        && nodes == old(nodes) + [BuildingNode(b, key, floors)]
        && addedBuildings == old(addedBuildings) + {key}
        && addedSensors == old(addedSensors) + KeySet(FloorKeys(floors))
    {
      ghost var st := State();
      addedBuildings := addedBuildings + {key};
      var floors := AddFloors(buckets, list);
      nodes := nodes + [BuildingNode(b, key, floors)];
      FloorsOfShows(st.sensors, buckets, list);
      AddedValid(st, b, key, floors);
    }

    /**
     * The floors loop of `construct` for one new building: a floor node
     * per entry, holding the sensors of the entry whose key is not in
     * `addedSensors`, which records each one it adds.
     */
    method AddFloors(buckets: seq<Bucket>, ghost list: seq<E.Sensor>) returns (floors: seq<FloorNode>)
      requires HeldBy(buckets, list)
      modifies this`addedSensors
      ensures floors == FloorsOf(old(addedSensors), buckets, list)
      ensures addedSensors == old(addedSensors) + KeySet(FloorKeys(floors))
    {
      floors := [];
      for i := 0 to |buckets|
        invariant HeldBy(buckets[..i], list)
        invariant floors == FloorsOf(old(addedSensors), buckets[..i], list)
        invariant addedSensors == old(addedSensors) + KeySet(FloorKeys(floors))
      {
        ghost var before := floors;
        var leaves := AddLeaves(buckets[i].sensors);
        FloorsOfStep(old(addedSensors), buckets, list, i);
        assert before == FloorsOf(old(addedSensors), buckets[..i], list);
        floors := floors + [FloorNode(buckets[i].floor, leaves)];
        FloorKeysSnoc(before, FloorNode(buckets[i].floor, leaves));
        KeySetAppend(FloorKeys(before), LeafKeys(leaves));
      }
      assert buckets[..|buckets|] == buckets;
    }

    /**
     * The sensors loop of `construct` for one floor: the sensors whose key
     * `addedSensors` does not hold yet get a node and are recorded.
     */
    method AddLeaves(sensors: seq<E.Sensor>) returns (leaves: seq<SensorLeaf>)
      modifies this`addedSensors
      ensures leaves == NewLeaves(old(addedSensors), sensors)
      ensures addedSensors == old(addedSensors) + KeySet(LeafKeys(leaves))
    {
      leaves := [];
      for i := 0 to |sensors|
        invariant leaves == NewLeaves(old(addedSensors), sensors[..i])
        invariant addedSensors == old(addedSensors) + KeySet(LeafKeys(leaves))
      {
        var s := sensors[i];
        var k := s.Key();
        ghost var before := leaves;
        if k !in addedSensors {
          leaves := leaves + [SensorLeaf(s, k)];
          LeafKeysSnoc(before, SensorLeaf(s, k));
          KeySetAppend(LeafKeys(before), [k]);
          addedSensors := addedSensors + {k};
        }
        NewLeavesStep(old(addedSensors), sensors, i);
        assert before == NewLeaves(old(addedSensors), sensors[..i]);
      }
      assert sensors[..|sensors|] == sensors;
    }

    /** `tableChanged(e)`: only an INSERT event rebuilds the tree. */
    method TableChanged(event: TableEventType, fetched: seq<(E.Building, seq<E.Sensor>)>)
      requires Valid()
      modifies this
      ensures Valid()
      ensures event != InsertEvent ==> addedSensors == old(addedSensors) && addedBuildings == old(addedBuildings) && nodes == old(nodes)
      ensures event == InsertEvent ==>
        && State() == old(Construction(State(), fetched, |fetched|))
        && addedBuildings == old(addedBuildings + WithSensors(fetched, |fetched|))
    {
      if event == InsertEvent {
        ConstructionBuildings(State(), fetched, |fetched|);
        Construct(fetched);
      }
    }
  }
}
