/** Model of CloudTrackerScript (MindhopProject/Assets/ChoreTrackerScript.cs): when
    a cloud starts, it takes a chore not yet handed out to any cloud, shows that
    chore's sprite and records the chore in the spawner's `spawnedChores`.

    `Random.Range(0, n)` is the caller-supplied index `pick`, with `pick < n`. */
module ChoreTracking {
  import opened Spawning

  /** The chores of `household` that are not in `spawned`, in `household` order:
      the list `GetRandomUnspawnedChore` builds. */
  function Unspawned(household: seq<HouseholdChore>, spawned: seq<HouseholdChore>): seq<HouseholdChore>
  {
    if household == [] then []
    else
      var last := household[|household| - 1];
      Unspawned(household[..|household| - 1], spawned) + (if last in spawned then [] else [last])
  }

  /** A chore is unspawned exactly when it is in the catalogue and not yet
      handed out. */
  lemma {:induction false} UnspawnedMembers(household: seq<HouseholdChore>, spawned: seq<HouseholdChore>, c: HouseholdChore)
    ensures c in Unspawned(household, spawned) <==> c in household && c !in spawned
  {
    if household != [] {
      var n := |household| - 1;
      UnspawnedMembers(household[..n], spawned, c);
      assert household == household[..n] + [household[n]];
    }
  }

  /** The filter keeps catalogue order: filtering a concatenation filters each
      part and concatenates the results. */
  lemma {:induction false} UnspawnedAppend(h1: seq<HouseholdChore>, h2: seq<HouseholdChore>, spawned: seq<HouseholdChore>)
    ensures Unspawned(h1 + h2, spawned) == Unspawned(h1, spawned) + Unspawned(h2, spawned)
    decreases |h2|
  {
    if h2 == [] {
      assert h1 + h2 == h1;
    } else {
      var n := |h2| - 1;
      assert (h1 + h2)[..|h1 + h2| - 1] == h1 + h2[..n];
      UnspawnedAppend(h1, h2[..n], spawned);
    }
  }

  /** The list of unspawned chores is empty exactly when every chore of the
      catalogue has been handed out. */
  lemma UnspawnedEmpty(household: seq<HouseholdChore>, spawned: seq<HouseholdChore>)
    ensures Unspawned(household, spawned) == [] <==> forall c :: c in household ==> c in spawned
  {
    if Unspawned(household, spawned) == [] {
      forall c | c in household
        ensures c in spawned
      {
        UnspawnedMembers(household, spawned, c);
      }
    } else {
      var c := Unspawned(household, spawned)[0];
      UnspawnedMembers(household, spawned, c);
    }
  }

  /** What the source's callers guarantee of the random index: it lies in
      `[0, n)` whenever there are `n > 0` unspawned chores. */
  predicate PickInRange(household: seq<HouseholdChore>, spawned: seq<HouseholdChore>, pick: nat)
  {
    var n := |Unspawned(household, spawned)|;
    n > 0 ==> pick < n
  }

  /** The chore `GetRandomUnspawnedChore` returns: the picked unspawned chore, or
      null when every chore has already been handed out. */
  function ChosenChore(household: seq<HouseholdChore>, spawned: seq<HouseholdChore>, pick: nat): (c: HouseholdChore?)
    requires PickInRange(household, spawned, pick)
    ensures c == null <==> forall x :: x in household ==> x in spawned
    ensures c != null ==> c in household && c !in spawned
  {
    var u := Unspawned(household, spawned);
    UnspawnedEmpty(household, spawned);
    if |u| > 0 then
      UnspawnedMembers(household, spawned, u[pick]);
      u[pick]
    else null
  }

  /** Appending a chore that is not yet handed out keeps the list free of
      duplicates and within the catalogue. */
  lemma AssignKeepsConsistent(household: seq<HouseholdChore>, s: seq<HouseholdChore>, c: HouseholdChore)
    requires c in household && c !in s
    requires NoDuplicates(s) && Within(s, household)
    ensures NoDuplicates(s + [c]) && Within(s + [c], household)
  {
    forall i, j | 0 <= i < j < |s + [c]|
      ensures (s + [c])[i] != (s + [c])[j]
    {
      if j == |s| {
        assert (s + [c])[i] == s[i] && s[i] in s;
      }
    }
  }

  /** `SpriteRenderer`: the component that draws a cloud's sprite. */
  class SpriteRenderer {
    var sprite: Sprite?
  }

  /** The chore a cloud starting now is assigned, as `Start` decides it: none
      when there is no spawner or its catalogue is empty. */
  ghost function Assignment(found: SpawnAroundObject?, pick: nat): HouseholdChore?
    reads found
    requires found != null ==> PickInRange(found.householdChores, found.spawnedChores, pick)
  {
    if found != null && |found.householdChores| > 0
    then ChosenChore(found.householdChores, found.spawnedChores, pick)
    else null
  }

  /** `CloudTrackerScript`: one cloud and the chore it stands for. */
  class CloudTracker {
    var spawnManager: SpawnAroundObject?
    var spriteRenderer: SpriteRenderer?
    var assignedChore: HouseholdChore?

    constructor (renderer: SpriteRenderer?)
      ensures spriteRenderer == renderer && spawnManager == null && assignedChore == null
    {
      spriteRenderer := renderer;
      spawnManager := null;
      assignedChore := null;
    }

    /** `GetRandomUnspawnedChore`: collects the chores not yet handed out and
        returns the picked one, or null when there is none. */
    method GetRandomUnspawnedChore(pick: nat) returns (chore: HouseholdChore?)
      requires spawnManager != null
      requires PickInRange(spawnManager.householdChores, spawnManager.spawnedChores, pick)
      ensures chore == ChosenChore(spawnManager.householdChores, spawnManager.spawnedChores, pick)
      ensures chore == null <==> forall c :: c in spawnManager.householdChores ==> c in spawnManager.spawnedChores
      ensures chore != null ==> chore in spawnManager.householdChores && chore !in spawnManager.spawnedChores
    {
      var household := spawnManager.householdChores;
      var unspawnedChores: seq<HouseholdChore> := [];
      for i := 0 to |household|
        invariant unspawnedChores == Unspawned(household[..i], spawnManager.spawnedChores)
      {
        var c := household[i];
        if c !in spawnManager.spawnedChores {
          unspawnedChores := unspawnedChores + [c];
        }
        assert household[..i + 1][..i] == household[..i];
      }
      assert household[..|household|] == household;
      if |unspawnedChores| > 0 {
        chore := unspawnedChores[pick];
      } else {
        chore := null;
      }
    }

    /** `Start`: finds the renderer and the spawner (`component` and `found` are
        what `GetComponent` and `FindObjectOfType` return), takes an unspawned
        chore, shows its sprite when both the renderer and the sprite exist, and
        appends the chore to the spawner's `spawnedChores`. */
    method Start(component: SpriteRenderer?, found: SpawnAroundObject?, pick: nat)
      requires found != null ==> PickInRange(found.householdChores, found.spawnedChores, pick)
      modifies this, found, if spriteRenderer == null then component else spriteRenderer
      ensures spriteRenderer == if old(spriteRenderer) == null then component else old(spriteRenderer)
      ensures spawnManager == found
      ensures found != null && |found.householdChores| > 0 ==> assignedChore == old(Assignment(found, pick))
      ensures found == null || |found.householdChores| == 0 ==> assignedChore == old(assignedChore)
      ensures found != null ==>
        var c := old(Assignment(found, pick));
        found.spawnedChores == old(found.spawnedChores) + (if c == null then [] else [c])
      ensures var r := spriteRenderer; var c := old(Assignment(found, pick));
        r != null ==> r.sprite == if c != null && c.choreSprite != null then c.choreSprite else old(r.sprite)
      ensures found != null ==> found.OnlySpawnedChoresChanged()
      ensures found != null && old(found.ChoresConsistent()) ==> found.ChoresConsistent()
    {
      ghost var chosen := Assignment(found, pick);
      if spriteRenderer == null {
        spriteRenderer := component;
      }
      spawnManager := found;
      if spawnManager != null && |spawnManager.householdChores| > 0 {
        assignedChore := GetRandomUnspawnedChore(pick);
        assert assignedChore == chosen;
        if assignedChore != null {
          if spriteRenderer != null && assignedChore.choreSprite != null {
            spriteRenderer.sprite := assignedChore.choreSprite;
          }
          if spawnManager.ChoresConsistent() {
            AssignKeepsConsistent(spawnManager.householdChores, spawnManager.spawnedChores, assignedChore);
          }
          spawnManager.spawnedChores := spawnManager.spawnedChores + [assignedChore];
        }
      }
    }
  }
}
