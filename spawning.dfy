/** Model of SpawnAroundObject (MindhopProject/Assets/Scripts/CloudsSpawnScript.cs):
    the catalogue of household chores, the list of live cloud objects, the object
    pool, and the bounded rejection sampler that places each new cloud.

    Engine values are modelled abstractly: positions and scales are integer
    vectors, `Vector3.Distance(p, q) < d` is `TooClose(p, q, d)` on squared
    distances, and every random draw is supplied by the caller. */
module Spawning {

  /** A sprite asset of the engine; only its identity matters here. */
  class Sprite { }

  /** `SpawnAroundObject.HouseholdChore`. The core never changes a chore after it
      has been configured, so its fields are constants; chores are compared by
      reference, as `List.Contains` does for this class. `tagID` is the tag the
      options menu matches against (see Settings). */
  class HouseholdChore {
    const choreName: string
    const choreSprite: Sprite?
    const daysUntilReset: int
    const tagID: string

    constructor (name: string, sprite: Sprite?, days: int, tag: string)
      ensures choreName == name && choreSprite == sprite
      ensures daysUntilReset == days && tagID == tag
    {
      choreName := name;
      choreSprite := sprite;
      daysUntilReset := days;
      tagID := tag;
    }
  }

  predicate NoDuplicates(s: seq<HouseholdChore>)
  {
    forall i, j :: 0 <= i < j < |s| ==> s[i] != s[j]
  }

  /** Every chore of `s` is one of `catalogue`. */
  predicate Within(s: seq<HouseholdChore>, catalogue: seq<HouseholdChore>)
  {
    forall c :: c in s ==> c in catalogue
  }

  /** A point or a scale in the scene (`Vector3`), on integer coordinates. */
  datatype Vec3 = Vec3(x: int, y: int, z: int)

  /** `Vector3.zero` */
  const Zero := Vec3(0, 0, 0)

  function SqDist(p: Vec3, q: Vec3): int
  {
    (p.x - q.x) * (p.x - q.x) + (p.y - q.y) * (p.y - q.y) + (p.z - q.z) * (p.z - q.z)
  }

  /** `Vector3.Distance(p, q) < minDistance`: a distance is never negative, so no
      pair is too close when `minDistance <= 0`; otherwise comparing the squares
      is exact. */
  predicate TooClose(p: Vec3, q: Vec3, minDistance: int)
  {
    0 < minDistance && SqDist(p, q) < minDistance * minDistance
  }

  /** `p` keeps at least `minDistance` from every occupied position. */
  predicate Separated(p: Vec3, occupied: seq<Vec3>, minDistance: int)
  {
    forall q :: q in occupied ==> !TooClose(p, q, minDistance)
  }

  /** One placement attempt's random draws: `offset` stands for
      `Random.insideUnitSphere * spawnRadius` and `height` for
      `Random.Range(minHeight, maxHeight)`. */
  datatype Draw = Draw(offset: Vec3, height: int)

  /** The candidate built from one draw: the centre plus the offset, with the
      vertical component replaced by the centre's height plus the drawn height. */
  function Candidate(center: Vec3, d: Draw): Vec3
  {
    Vec3(center.x + d.offset.x, center.y + d.height, center.z + d.offset.z)
  }

  /** The attempt budget of `GetRandomSpawnPosition`. */
  const MaxAttempts: nat := 100

  /** The index of the draw that `GetRandomSpawnPosition` returns when it starts
      at attempt `from`: the first candidate that is separated from every occupied
      position, or the last attempt of the budget when none is. */
  function PlacementIndex(center: Vec3, draws: seq<Draw>, occupied: seq<Vec3>, minDistance: int, from: nat): (k: nat)
    requires from < MaxAttempts <= |draws|
    ensures from <= k < MaxAttempts
    ensures Separated(Candidate(center, draws[k]), occupied, minDistance) || k == MaxAttempts - 1
    ensures forall j :: from <= j < k ==> !Separated(Candidate(center, draws[j]), occupied, minDistance)
    decreases MaxAttempts - from
  {
    if from == MaxAttempts - 1 || Separated(Candidate(center, draws[from]), occupied, minDistance) then from
    else PlacementIndex(center, draws, occupied, minDistance, from + 1)
  }

  /** The position `GetRandomSpawnPosition` returns for these draws. */
  function Placement(center: Vec3, draws: seq<Draw>, occupied: seq<Vec3>, minDistance: int): Vec3
    requires MaxAttempts <= |draws|
  {
    Candidate(center, draws[PlacementIndex(center, draws, occupied, minDistance, 0)])
  }

  /** The first `k` attempts that all fail, followed by one that succeeds or is
      the last of the budget, determine the placement index. */
  lemma PlacementIndexUnique(center: Vec3, draws: seq<Draw>, occupied: seq<Vec3>, minDistance: int, k: nat)
    requires k < MaxAttempts <= |draws|
    requires forall j :: 0 <= j < k ==> !Separated(Candidate(center, draws[j]), occupied, minDistance)
    requires Separated(Candidate(center, draws[k]), occupied, minDistance) || k == MaxAttempts - 1
    ensures PlacementIndex(center, draws, occupied, minDistance, 0) == k
  {
  }

  /** A draw as the engine's generator produces it: the offset inside the sphere
      of radius `spawnRadius`, the height within `[minHeight, maxHeight]`. */
  predicate DrawInRange(d: Draw, spawnRadius: int, minHeight: int, maxHeight: int)
  {
    d.offset.x * d.offset.x + d.offset.y * d.offset.y + d.offset.z * d.offset.z <= spawnRadius * spawnRadius
    && minHeight <= d.height <= maxHeight
  }

  /** Whatever the occupancy, the chosen position lies horizontally within the
      spawn radius of the centre and at a height in `[minHeight, maxHeight]` above
      it, provided the generator keeps its ranges. */
  lemma PlacementInRange(center: Vec3, draws: seq<Draw>, occupied: seq<Vec3>, minDistance: int,
                         spawnRadius: int, minHeight: int, maxHeight: int)
    requires MaxAttempts <= |draws|
    requires forall j :: 0 <= j < |draws| ==> DrawInRange(draws[j], spawnRadius, minHeight, maxHeight)
    ensures var p := Placement(center, draws, occupied, minDistance);
      (p.x - center.x) * (p.x - center.x) + (p.z - center.z) * (p.z - center.z) <= spawnRadius * spawnRadius
      && minHeight <= p.y - center.y <= maxHeight
  {
    var k := PlacementIndex(center, draws, occupied, minDistance, 0);
    var d := draws[k];
    var p := Candidate(center, d);
    assert DrawInRange(d, spawnRadius, minHeight, maxHeight);
    assert p.x - center.x == d.offset.x && p.z - center.z == d.offset.z && p.y - center.y == d.height;
    var ox, oy, oz := d.offset.x, d.offset.y, d.offset.z;
    assert 0 <= oy * oy;
    assert ox * ox + oz * oz <= ox * ox + oy * oy + oz * oz <= spawnRadius * spawnRadius;
  }

  /** A cloud in the scene. Unity's "destroyed" objects compare equal to null,
      so a destroyed cloud appears as a `null` entry in `spawnedObjects`. */
  class GameObject {
    var position: Vec3
    var scale: Vec3
    var active: bool

    /** `Instantiate(prefab, position, Quaternion.identity)`: a fresh copy of the
        prefab at `position`, with the prefab's scale and active state. */
    constructor Instantiate(position: Vec3, prefabScale: Vec3, prefabActive: bool)
      ensures this.position == position && scale == prefabScale && active == prefabActive
    {
      this.position := position;
      scale := prefabScale;
      active := prefabActive;
    }
  }

  /** `spawnedObjects.RemoveAll(obj => obj == null)`: the live entries, in order. */
  function RemoveNulls(objs: seq<GameObject?>): (r: seq<GameObject?>)
    ensures null !in r
    ensures |r| <= |objs|
  {
    if objs == [] then []
    else
      var last := objs[|objs| - 1];
      RemoveNulls(objs[..|objs| - 1]) + (if last == null then [] else [last])
  }

  /** Pruning keeps exactly the live entries. */
  lemma {:induction false} RemoveNullsMembers(objs: seq<GameObject?>, o: GameObject?)
    ensures o in RemoveNulls(objs) <==> o in objs && o != null
  {
    if objs != [] {
      var n := |objs| - 1;
      RemoveNullsMembers(objs[..n], o);
      assert objs == objs[..n] + [objs[n]];
    }
  }

  /** Pruning distributes over concatenation: it keeps the live entries in order. */
  lemma {:induction false} RemoveNullsAppend(a: seq<GameObject?>, b: seq<GameObject?>)
    ensures RemoveNulls(a + b) == RemoveNulls(a) + RemoveNulls(b)
    decreases |b|
  {
    if b == [] {
      assert a + b == a;
    } else {
      var n := |b| - 1;
      assert (a + b)[..|a + b| - 1] == a + b[..n];
      assert (a + b)[|a + b| - 1] == b[n];
      RemoveNullsAppend(a, b[..n]);
      var tail := if b[n] == null then [] else [b[n]];
      assert RemoveNulls(a + b) == RemoveNulls(a + b[..n]) + tail;
      assert RemoveNulls(b) == RemoveNulls(b[..n]) + tail;
    }
  }

  /** A list without null entries is left as it is, so pruning twice prunes once. */
  lemma {:induction false} RemoveNullsKeepsLive(objs: seq<GameObject?>)
    requires null !in objs
    ensures RemoveNulls(objs) == objs
  {
    if objs != [] {
      var n := |objs| - 1;
      RemoveNullsKeepsLive(objs[..n]);
      assert objs[..n] + [objs[n]] == objs;
    }
  }

  /** The positions of the live objects, in list order: what the separation
      check of `GetRandomSpawnPosition` compares against. */
  ghost function LivePositions(objs: seq<GameObject?>): seq<Vec3>
    reads objs
  {
    if objs == [] then []
    else
      var last := objs[|objs| - 1];
      LivePositions(objs[..|objs| - 1]) + (if last == null then [] else [last.position])
  }

  lemma {:induction false} LivePositionMember(objs: seq<GameObject?>, i: nat)
    requires i < |objs| && objs[i] != null
    ensures objs[i].position in LivePositions(objs)
  {
    var n := |objs| - 1;
    if i < n {
      LivePositionMember(objs[..n], i);
    }
  }

  /** Null entries play no part in the separation check: pruning them leaves the
      occupied positions as they were. */
  lemma {:induction false} LivePositionsIgnoreNulls(objs: seq<GameObject?>)
    ensures LivePositions(RemoveNulls(objs)) == LivePositions(objs)
  {
    if objs != [] {
      var n := |objs| - 1;
      var init, last := objs[..n], objs[n];
      var pre := RemoveNulls(init);
      LivePositionsIgnoreNulls(init);
      if last == null {
        assert RemoveNulls(objs) == pre by { assert pre + [] == pre; }
        assert LivePositions(objs) == LivePositions(init) by {
          assert LivePositions(init) + [] == LivePositions(init);
        }
      } else {
        var r := pre + [last];
        assert RemoveNulls(objs) == r;
        assert LivePositions(r) == LivePositions(pre) + [last.position] by {
          assert r[..|r| - 1] == pre;
        }
      }
    }
  }

  /** `SpawnAroundObject`: the spawner that keeps the chore lists, the live
      clouds and the pool of reusable clouds. */
  class SpawnAroundObject {
    var householdChores: seq<HouseholdChore>
    var spawnedChores: seq<HouseholdChore>
    /** `centerObject.position` */
    var center: Vec3
    var spawnRadius: int
    var minDistance: int
    var minHeight: int
    var maxHeight: int
    /** `prefabToSpawn`'s own scale and active state, which `Instantiate` copies */
    var prefabScale: Vec3
    var prefabActive: bool
    var spawnedObjects: seq<GameObject?>
    /** `objectPool`, a queue whose front is index 0 */
    var objectPool: seq<GameObject>

    /** The field initialisers: both runtime lists and the pool start empty and
        the tunables take their declared defaults. */
    constructor (chores: seq<HouseholdChore>, center: Vec3, prefabScale: Vec3, prefabActive: bool)
      ensures householdChores == chores && spawnedChores == []
      ensures this.center == center && this.prefabScale == prefabScale && this.prefabActive == prefabActive
      ensures spawnRadius == 5 && minDistance == 1 && minHeight == 1 && maxHeight == 3
      ensures spawnedObjects == [] && objectPool == []
    {
      householdChores := chores;
      spawnedChores := [];
      this.center := center;
      spawnRadius := 5;
      minDistance := 1;
      minHeight := 1;
      maxHeight := 3;
      this.prefabScale := prefabScale;
      this.prefabActive := prefabActive;
      spawnedObjects := [];
      objectPool := [];
    }

    /** The chores handed out to clouds: none twice, and each one from the
        catalogue. */
    ghost predicate ChoresConsistent()
      reads this
    {
      NoDuplicates(spawnedChores) && Within(spawnedChores, householdChores)
    }

    /** Every field except `spawnedChores` is as it was. */
    twostate predicate OnlySpawnedChoresChanged()
      reads this
    {
      householdChores == old(householdChores) && center == old(center)
      && spawnRadius == old(spawnRadius) && minDistance == old(minDistance)
      && minHeight == old(minHeight) && maxHeight == old(maxHeight)
      && prefabScale == old(prefabScale) && prefabActive == old(prefabActive)
      && spawnedObjects == old(spawnedObjects) && objectPool == old(objectPool)
    }

    ghost function Occupied(): seq<Vec3>
      reads this, spawnedObjects
    {
      LivePositions(spawnedObjects)
    }

    /** `GetRandomSpawnPosition`: tries the draws in order, at most `MaxAttempts`
        of them, and returns the first candidate separated from every live cloud,
        or else the candidate of the last attempt. */
    method GetRandomSpawnPosition(draws: seq<Draw>) returns (spawnPosition: Vec3)
      requires MaxAttempts <= |draws|
      ensures spawnPosition == Placement(center, draws, Occupied(), minDistance)
      ensures Separated(spawnPosition, Occupied(), minDistance)
              || spawnPosition == Candidate(center, draws[MaxAttempts - 1])
    {
      ghost var occupied := Occupied();
      var positionFound := false;
      var attempts := 0;
      spawnPosition := center;  // overwritten by the first attempt
      // do { ... } while (!positionFound && attempts < 100): the first test
      // always passes, so a while loop with the same test is the same loop.
      while !positionFound && attempts < MaxAttempts
        invariant 0 <= attempts <= MaxAttempts
        invariant attempts == 0 ==> !positionFound
        invariant attempts > 0 ==> spawnPosition == Candidate(center, draws[attempts - 1])
        invariant attempts > 0 ==> (positionFound <==> Separated(spawnPosition, occupied, minDistance))
        invariant forall j :: 0 <= j < attempts - 1 ==> !Separated(Candidate(center, draws[j]), occupied, minDistance)
        decreases MaxAttempts - attempts
      {
        var d := draws[attempts];
        spawnPosition := Vec3(center.x + d.offset.x, center.y + d.offset.y, center.z + d.offset.z);
        spawnPosition := spawnPosition.(y := center.y + d.height);

        positionFound := CheckSeparated(spawnPosition);
        attempts := attempts + 1;
      }
      PlacementIndexUnique(center, draws, occupied, minDistance, attempts - 1);
    }

    /** The inner `foreach` of `GetRandomSpawnPosition`: scans the live clouds
        and stops at the first one closer than `minDistance` to `spawnPosition`.
        The result is true exactly when the candidate is separated from every
        live cloud. */
    method CheckSeparated(spawnPosition: Vec3) returns (positionFound: bool)
      ensures positionFound <==> Separated(spawnPosition, Occupied(), minDistance)
    {
      positionFound := true;
      var i := 0;
      while i < |spawnedObjects|
        invariant 0 <= i <= |spawnedObjects|
        invariant positionFound
        invariant Separated(spawnPosition, LivePositions(spawnedObjects[..i]), minDistance)
      {
        var obj := spawnedObjects[i];
        assert spawnedObjects[..i + 1][..i] == spawnedObjects[..i];
        if obj != null && TooClose(spawnPosition, obj.position, minDistance) {
          positionFound := false;
          LivePositionMember(spawnedObjects, i);
          break;
        }
        i := i + 1;
      }
      assert positionFound ==> spawnedObjects[..i] == spawnedObjects;
    }

    /** `GetPooledObject`: reuses the front of the pool when there is one, moved
        to `position` and re-activated, and otherwise instantiates the prefab
        there; either way the cloud starts at scale zero. */
    method GetPooledObject(position: Vec3) returns (obj: GameObject)
      modifies this`objectPool, if objectPool == [] then {} else {objectPool[0]}
      ensures obj.position == position && obj.scale == Zero
      ensures old(objectPool) != [] ==>
        obj == old(objectPool[0]) && objectPool == old(objectPool[1..]) && obj.active
      ensures old(objectPool) == [] ==> fresh(obj) && objectPool == [] && obj.active == prefabActive
    {
      if |objectPool| > 0 {
        obj := objectPool[0];
        objectPool := objectPool[1..];
        obj.position := position;
        obj.active := true;
      } else {
        obj := new GameObject.Instantiate(position, prefabScale, prefabActive);
      }
      obj.scale := Zero;
    }

    /** `spawnedObjects.RemoveAll(item => item == null)`: drops the destroyed
        clouds; the positions that block a placement stay the same. */
    method PruneDestroyed()
      modifies this`spawnedObjects
      ensures spawnedObjects == RemoveNulls(old(spawnedObjects))
      ensures Occupied() == old(Occupied())
    {
      LivePositionsIgnoreNulls(spawnedObjects);
      spawnedObjects := RemoveNulls(spawnedObjects);
    }

    /** One turn of the `SpawnAndGrowPrefabs` loop, up to its growth animation:
        prune the destroyed clouds, then add one cloud at a fresh placement if
        fewer clouds are live than there are chores. Returns the added cloud, or
        null when the loop only waits. The ghost result `occupied` is
        `old(Occupied())`, named so that the placement clause below can refer to
        it; this keeps the proof small. */
    method SpawnStep(draws: seq<Draw>) returns (newObj: GameObject?, ghost occupied: seq<Vec3>)
      requires MaxAttempts <= |draws|
      modifies this`spawnedObjects, this`objectPool
      // the front of the pool can change only on a turn that adds a cloud
      modifies if objectPool == [] || |RemoveNulls(spawnedObjects)| >= |householdChores| then {} else {objectPool[0]}
      ensures newObj == null <==> |RemoveNulls(old(spawnedObjects))| >= |householdChores|
      ensures spawnedObjects == RemoveNulls(old(spawnedObjects)) + (if newObj == null then [] else [newObj])
      ensures occupied == old(Occupied())
      ensures newObj != null ==>
        newObj.position == Placement(center, draws, occupied, minDistance)
        && newObj.scale == Zero
      ensures newObj != null && old(objectPool) != [] ==>
        newObj == old(objectPool[0]) && objectPool == old(objectPool[1..]) && newObj.active
      ensures newObj != null && old(objectPool) == [] ==>
        fresh(newObj) && objectPool == [] && newObj.active == prefabActive
      ensures newObj == null ==> objectPool == old(objectPool)
      ensures |old(spawnedObjects)| <= |householdChores| ==> |spawnedObjects| <= |householdChores|
    {
      occupied := Occupied();
      PruneDestroyed();
      newObj := null;
      if |spawnedObjects| < |householdChores| {
        var spawnPosition := GetRandomSpawnPosition(draws);
        newObj := GetPooledObject(spawnPosition);
        spawnedObjects := spawnedObjects + [newObj];
      }
    }
  }
}
