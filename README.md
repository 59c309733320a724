# MindHop chore clouds in Dafny

MindHop shows household chores as floating "clouds" around an anchor object. This project models three parts of the game's code:

- **Spawning** (`spawning.dfy`, `SpawnAroundObject`). This part keeps the chore catalogue and the list of live clouds. One turn of its spawn loop prunes destroyed clouds. It then adds one cloud when fewer clouds are live than there are chores. New clouds come from an object pool or are instantiated. A bounded rejection sampler of at most 100 attempts places them away from live clouds.
- **Chore tracking** (`chore_tracking.dfy`, `CloudTrackerScript`). When a cloud starts, it takes a chore not yet handed out to any cloud. It shows that chore's sprite and appends the chore to the spawner's `spawnedChores`. Nothing removes a chore from that list, so a destroyed cloud's chore stays handed out, and once every chore has been handed out, later clouds get none.
- **Settings** (`settings.dfy`, `OptionsMenu`). Each mapping on the options screen pairs a chore tag with a slider. The tag resolves to the first chore carrying it. Loading fills each resolved slider from the key `<choreName>MaxDays`, defaulting to 1. Saving writes the truncated slider value back under that key.

Modelling choices:
- Objects the source changes in place are Dafny classes with `modifies` clauses: the spawner, clouds (`GameObject`), the cloud tracker, sprite renderers, sliders, the options menu and the settings store.
- Chores are classes with constant fields. `List.Contains` compares them by reference, and so does Dafny.
- A destroyed cloud is a `null` entry in `spawnedObjects`.
- Positions are integer vectors. `Vector3.Distance(p, q) < d` is compared on squared distances, which is exact.
- A `NullReferenceException` that ends `OptionsMenu.Start` or `SaveSettings` early is the result `thrown`. The state is modelled as far as the loop got.
- Randomness enters as caller-supplied values: `pick` for `Random.Range(0, n)` and a sequence of `Draw`s for the placement attempts.
- `PlayerPrefs` is a `PrefsStore` over a `map<string, int>`.
- `SpawnAroundObject.Instance`, `FindObjectOfType` and `GetComponent` are parameters that may be null.
- `OptionsMenu.cs` reads a `tagID` field of `HouseholdChore` and a static `SpawnAroundObject.Instance`. Neither appears in the `SpawnAroundObject` class of `CloudsSpawnScript.cs`. The model adds `tagID` to the chore and passes the instance in.
- The spawner modelled here is the one in `CloudsSpawnScript.cs`. It keeps no persisted spawn ledger and has no day-based reset.

## Model

| member | source | states |
|---|---|---|
| `Spawning.HouseholdChore.constructor` | MindhopProject/Assets/Scripts/CloudsSpawnScript.cs:7-13 | a chore carries its name, sprite, reset days and tag |
| `Spawning.SpawnAroundObject.constructor` | MindhopProject/Assets/Scripts/CloudsSpawnScript.cs:15-29 | the spawned-chore list, the live-object list and the pool start empty; radius 5, minimum distance 1, heights 1 to 3; the prefab's scale and active state are recorded |
| `Spawning.PlacementIndex` | MindhopProject/Assets/Scripts/CloudsSpawnScript.cs:129-151 | the attempt that is returned lies in [0, 100), so between 1 and 100 candidates are examined. It is the first separated candidate, or the 100th when none is separated; every earlier candidate was too close |
| `Spawning.PlacementIndexUnique` | MindhopProject/Assets/Scripts/CloudsSpawnScript.cs:139-151 | failing attempts followed by a separated or final one pin down the attempt the loop returns |
| `Spawning.PlacementInRange` | MindhopProject/Assets/Scripts/CloudsSpawnScript.cs:133-137 | for draws in the generator's ranges, the position is horizontally within the spawn radius of the centre, and its height above the centre is within [minHeight, maxHeight] |
| `Spawning.GameObject.Instantiate` | MindhopProject/Assets/Scripts/CloudsSpawnScript.cs:95 | a fresh copy of the prefab at the requested position, with the prefab's scale and active state |
| `Spawning.RemoveNulls` | MindhopProject/Assets/Scripts/CloudsSpawnScript.cs:59 | the pruned list holds no null and is no longer than the original |
| `Spawning.RemoveNullsMembers` | MindhopProject/Assets/Scripts/CloudsSpawnScript.cs:59 | an object survives pruning exactly when it was in the list and is not null |
| `Spawning.RemoveNullsAppend` | MindhopProject/Assets/Scripts/CloudsSpawnScript.cs:59 | pruning distributes over concatenation, so live entries keep their order |
| `Spawning.RemoveNullsKeepsLive` | MindhopProject/Assets/Scripts/CloudsSpawnScript.cs:59 | a list without nulls is unchanged by pruning |
| `Spawning.LivePositionMember` | MindhopProject/Assets/Scripts/CloudsSpawnScript.cs:141-147 | every non-null object's position takes part in the separation check |
| `Spawning.LivePositionsIgnoreNulls` | MindhopProject/Assets/Scripts/CloudsSpawnScript.cs:143 | null entries take no part in the separation check; pruning leaves the occupied positions unchanged |
| `Spawning.SpawnAroundObject.CheckSeparated` | MindhopProject/Assets/Scripts/CloudsSpawnScript.cs:140-149 | the foreach with its early break reports true exactly when the candidate keeps at least `minDistance` from every live cloud |
| `Spawning.SpawnAroundObject.GetRandomSpawnPosition` | MindhopProject/Assets/Scripts/CloudsSpawnScript.cs:125-154 | the do-while loop with its inner foreach and break returns the candidate `Placement` selects. The result is separated from every live object, or it is the 100th candidate |
| `Spawning.SpawnAroundObject.GetPooledObject` | MindhopProject/Assets/Scripts/CloudsSpawnScript.cs:84-99 | a non-empty pool loses exactly its front object, which is returned moved and active. An empty pool stays empty and a fresh copy of the prefab is returned, as active as the prefab. Either way the object is at the position with scale zero. No other pooled or live object changes |
| `Spawning.SpawnAroundObject.PruneDestroyed` | MindhopProject/Assets/Scripts/CloudsSpawnScript.cs:59 | the live list becomes its pruned copy, and the positions that block a placement stay the same |
| `Spawning.SpawnAroundObject.SpawnStep` | MindhopProject/Assets/Scripts/CloudsSpawnScript.cs:56-67 | nulls are pruned in order. Exactly one object is appended iff the pruned count is below the chore count. It goes at the placement computed from the positions occupied before the turn, and it comes from the pool's front (re-activated) or is a fresh prefab copy. Otherwise the pool is untouched. No other cloud changes. The bound count <= chores is preserved |
| `ChoreTracking.UnspawnedMembers` | MindhopProject/Assets/ChoreTrackerScript.cs:87-95 | a chore is in the unspawned list iff it is in `householdChores` and not in `spawnedChores` |
| `ChoreTracking.UnspawnedAppend` | MindhopProject/Assets/ChoreTrackerScript.cs:89-95 | the unspawned list keeps `householdChores` order (the filter distributes over concatenation) |
| `ChoreTracking.UnspawnedEmpty` | MindhopProject/Assets/ChoreTrackerScript.cs:97-105 | the unspawned list is empty iff every chore has been spawned |
| `ChoreTracking.ChosenChore` | MindhopProject/Assets/ChoreTrackerScript.cs:97-105 | the choice is null iff every chore is spawned; otherwise it is a chore of the catalogue not yet spawned |
| `ChoreTracking.AssignKeepsConsistent` | MindhopProject/Assets/ChoreTrackerScript.cs:37 | appending an unspawned catalogue chore keeps `spawnedChores` duplicate-free and within the catalogue |
| `ChoreTracking.CloudTracker.constructor` | MindhopProject/Assets/ChoreTrackerScript.cs:7-9 | a new cloud has no manager and no chore yet |
| `ChoreTracking.CloudTracker.GetRandomUnspawnedChore` | MindhopProject/Assets/ChoreTrackerScript.cs:84-106 | the loop builds exactly the unspawned list, in order. The method returns its picked element, or null iff every chore is spawned. A non-null result is in `householdChores` and not in `spawnedChores` |
| `ChoreTracking.CloudTracker.Start` | MindhopProject/Assets/ChoreTrackerScript.cs:12-48 | the renderer falls back to the component. `spawnedChores` grows by exactly the assigned chore at its end, or stays the same. `householdChores` and the other spawner fields are untouched. The sprite is replaced only when renderer and chore sprite both exist, and no other renderer changes. No duplicates are introduced |
| `Settings.PrefsStore.SetInt` | MindhopProject/Assets/Scripts/OptionsMenu.cs:63 | one key is set, every other key is kept |
| `Settings.ChoreFieldMapping.constructor` | MindhopProject/Assets/Scripts/OptionsMenu.cs:5-10 | a mapping pairs a tag with a slider, which may be missing |
| `Settings.FirstTagIndex` | MindhopProject/Assets/Scripts/OptionsMenu.cs:35 | the index found carries the tag, and no earlier chore carries it |
| `Settings.FindByTag` | MindhopProject/Assets/Scripts/OptionsMenu.cs:58 | the result is null iff no chore carries the tag; otherwise it is a catalogue chore carrying the tag |
| `Settings.FindByTagIsFirst` | MindhopProject/Assets/Scripts/OptionsMenu.cs:35 | the tag resolves to the first chore in list order that carries it |
| `Settings.SettingsKey` | MindhopProject/Assets/Scripts/OptionsMenu.cs:39 | the key is the chore's name followed by `MaxDays`, and its length is the sum of the two |
| `Settings.GetIntAfterSetInt` | MindhopProject/Assets/Scripts/OptionsMenu.cs:40 | `GetInt(key, default)` reads back the value `SetInt` last stored under that key; setting another key does not change what this key reads, default included |
| `Settings.SettingsKeyInjective` | MindhopProject/Assets/Scripts/OptionsMenu.cs:39 | the keys `name + "MaxDays"` of two chores coincide iff their names do |
| `Settings.Truncate` | MindhopProject/Assets/Scripts/OptionsMenu.cs:61 | the `(int)` cast truncates toward zero |
| `Settings.FirstMissingSlider` | MindhopProject/Assets/Scripts/OptionsMenu.cs:36-41 | the index where the loops throw is the first mapping that resolves to a chore but has no slider, or the number of mappings when there is none |
| `Settings.FirstMissingSliderAt` | MindhopProject/Assets/Scripts/OptionsMenu.cs:59-61 | mappings without a throw, followed by a missing slider or by the end of the list, pin down that index |
| `Settings.SaveFrame` | MindhopProject/Assets/Scripts/OptionsMenu.cs:56-65 | a key that no mapping resolves to keeps its presence and value; unresolved mappings write nothing |
| `Settings.SaveLastWins` | MindhopProject/Assets/Scripts/OptionsMenu.cs:56-65 | a resolved key holds the truncated slider value of the last mapping writing it |
| `Settings.LoadUntouched` | MindhopProject/Assets/Scripts/OptionsMenu.cs:32-47 | a slider that no resolved mapping points to keeps its value on load |
| `Settings.LoadLastWins` | MindhopProject/Assets/Scripts/OptionsMenu.cs:35-41 | a resolved slider gets the stored value of its chore's key, or 1 when the key is absent, provided no later resolved mapping is on the same slider |
| `Settings.SaveLoadRoundTrip` | MindhopProject/Assets/Scripts/OptionsMenu.cs:61-63 | after saving, loading sets a resolved slider to the truncation of the value it saved, provided no later mapping writes the same key or resolves onto the same slider |
| `Settings.OptionsMenu.Start` | MindhopProject/Assets/Scripts/OptionsMenu.cs:22-51 | without a spawner instance, nothing is read or changed and nothing throws. Otherwise the loop runs up to the first resolved mapping without a slider, where it throws. Every slider holds the value loaded by the mappings before that point. The save listener is registered once exactly when nothing threw |
| `Settings.OptionsMenu.SaveSettings` | MindhopProject/Assets/Scripts/OptionsMenu.cs:53-68 | without a spawner instance, any mapping makes the first lookup throw and nothing is written. Otherwise the store becomes the fold of the resolved mappings' writes over the old store, up to the first resolved mapping without a slider, where it throws. Sliders are untouched |

## Left out

- Growth and shrink animation (`GrowObject`, `ShrinkAndDestroyCoroutine`) is left out. It is floating-point interpolation driven by frame time and coroutines. In particular, `SpawnStep` stops before the added cloud grows to its target scale.
- Waits between spawn turns are left out (`WaitForSeconds`, the random spawn interval). So is the unbounded outer `while (true)` of `SpawnAndGrowPrefabs`: the model is one turn of it.
- Rendering is left out: `Update`'s `LookAt`/`SetActive`, `IsVisible` and frustum planes are engine calls.
- Logging (`Debug.Log*`) has no observable effect and is omitted.
- `PlayerPrefs.Save()` is left out because flushing to disk is platform I/O.
- `SaveSettings` is not registered as a real callback. The button wiring is only counted (`saveListeners`).
- Floats are modelled on integers and reals. Positions and the distances in `TooClose` are on integer coordinates. The model does not capture floating-point rounding.
- `Settings.OptionsMenu.Start` does not model `Slider.value` clamping to the slider's range or rounding to whole numbers. It records the assigned value.
- `Settings.Truncate` does not model out-of-range casts to 32-bit `int`, nor 32-bit storage in `PlayerPrefs`.
- `Settings.OptionsMenu.Start` does not model a missing `saveButton`: the model assumes the inspector assigned it, so registering the listener never throws.
- `Spawning.SpawnAroundObject.GetRandomSpawnPosition` does not model a missing `centerObject`: the model assumes the inspector assigned it, so reading `centerObject.position` never throws and never ends the spawn coroutine.
- `Spawning.SpawnAroundObject.GetPooledObject` does not model a missing `prefabToSpawn`: the model assumes the inspector assigned it, so `Instantiate` never throws.
- Input handling, NFC scanning, scene switching, the intro screen and the other UI scripts are not part of this model.
- The persisted spawn ledger, the day-based reset and the periodic respawn are not part of this model. Nothing in the modelled files implements them.
