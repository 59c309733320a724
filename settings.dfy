/** Model of OptionsMenu (MindhopProject/Assets/Scripts/OptionsMenu.cs): the options
    screen pairs each chore tag with a slider holding that chore's maximum number
    of days. Loading fills the sliders from the settings store, saving writes them
    back, under the key `<choreName>MaxDays` of the chore the tag resolves to.

    `PlayerPrefs` is a `PrefsStore` whose entries are a `map<string, int>`; the
    spawner singleton `SpawnAroundObject.Instance` is passed in and may be null.
    A `NullReferenceException` that ends `Start` or `SaveSettings` early is an
    outcome `thrown`, with the state as far as the loop got. */
module Settings {
  import opened Spawning

  /** `UI.Slider`; its value is a float in the engine. */
  class Slider {
    var value: real
  }

  /** `ChoreFieldMapping`: a chore tag and the slider that edits that chore; the
      slider is assigned in the inspector and may be missing. */
  class ChoreFieldMapping {
    const choreTag: string
    const timeSlider: Slider?

    constructor (tag: string, slider: Slider?)
      ensures choreTag == tag && timeSlider == slider
    {
      choreTag := tag;
      timeSlider := slider;
    }
  }

  /** `PlayerPrefs`: the persisted key-value store of integer settings. */
  class PrefsStore {
    var entries: map<string, int>

    constructor (entries: map<string, int>)
      ensures this.entries == entries
    {
      this.entries := entries;
    }

    /** `PlayerPrefs.SetInt`: sets one key, leaving every other key as it was. */
    method SetInt(key: string, value: int)
      modifies this
      ensures entries == old(entries)[key := value]
    {
      entries := entries[key := value];
    }
  }

  /** `PlayerPrefs.GetInt(key, defaultValue)` */
  function GetInt(entries: map<string, int>, key: string, defaultValue: int): int
  {
    if key in entries then entries[key] else defaultValue
  }

  /** Reading a key just set gives the value set; setting one key does not
      change what any other key reads, default included. */
  lemma GetIntAfterSetInt(entries: map<string, int>, setKey: string, value: int, key: string, defaultValue: int)
    ensures GetInt(entries[setKey := value], setKey, defaultValue) == value
    ensures key != setKey ==> GetInt(entries[setKey := value], key, defaultValue) == GetInt(entries, key, defaultValue)
  {
  }

  /** The position `List.Find(c => c.tagID == tag)` stops at: the first chore
      carrying the tag, or the length of the list when no chore does. */
  function FirstTagIndex(chores: seq<HouseholdChore>, tag: string): (i: nat)
    ensures i <= |chores|
    ensures i < |chores| ==> chores[i].tagID == tag
    ensures forall j :: 0 <= j < i ==> chores[j].tagID != tag
  {
    if chores == [] then 0
    else if chores[0].tagID == tag then 0
    else 1 + FirstTagIndex(chores[1..], tag)
  }

  /** `householdChores.Find(c => c.tagID == tag)`: the chore a mapping's tag
      resolves to, or null when no chore carries the tag. */
  function FindByTag(chores: seq<HouseholdChore>, tag: string): (c: HouseholdChore?)
    ensures c == null <==> forall x :: x in chores ==> x.tagID != tag
    ensures c != null ==> c in chores && c.tagID == tag
  {
    var i := FirstTagIndex(chores, tag);
    if i < |chores| then chores[i] else null
  }

  /** When several chores carry the tag, the first of them in list order is
      found. */
  lemma {:induction false} FindByTagIsFirst(chores: seq<HouseholdChore>, tag: string, i: nat)
    requires i < |chores| && chores[i].tagID == tag
    requires forall j :: 0 <= j < i ==> chores[j].tagID != tag
    ensures FindByTag(chores, tag) == chores[i]
  {
  }

  const KeySuffix := "MaxDays"

  /** The settings key of a chore: its name followed by `MaxDays`. */
  function SettingsKey(choreName: string): (key: string)
    ensures |key| == |choreName| + |KeySuffix|
    ensures key[..|choreName|] == choreName && key[|choreName|..] == KeySuffix
  {
    choreName + KeySuffix
  }

  /** Chores with different names never share a settings key. */
  lemma SettingsKeyInjective(a: string, b: string)
    ensures SettingsKey(a) == SettingsKey(b) <==> a == b
  {
    if SettingsKey(a) == SettingsKey(b) {
      assert |a| == |b|;
      assert a == SettingsKey(a)[..|a|];
      assert b == SettingsKey(b)[..|b|];
    }
  }

  /** The C# cast `(int)` of a float: truncation toward zero. */
  function Truncate(r: real): (i: int)
    ensures 0.0 <= r ==> i as real <= r < i as real + 1.0
    ensures r < 0.0 ==> i as real - 1.0 < r <= i as real
  {
    if r >= 0.0 then r.Floor else -((-r).Floor)
  }

  /** The settings key mapping `m` resolves to is `key`. */
  predicate WritesKey(chores: seq<HouseholdChore>, m: ChoreFieldMapping, key: string)
  {
    var c := FindByTag(chores, m.choreTag);
    c != null && SettingsKey(c.choreName) == key
  }

  /** Mapping `m` resolves to a chore but has no slider: the load and the save
      loops dereference the slider exactly for resolved mappings, so this one
      throws. */
  predicate MissingSlider(chores: seq<HouseholdChore>, m: ChoreFieldMapping)
  {
    FindByTag(chores, m.choreTag) != null && m.timeSlider == null
  }

  /** The mapping at which the load and save loops throw: the first resolved
      mapping without a slider, or the number of mappings when there is none. */
  function FirstMissingSlider(chores: seq<HouseholdChore>, ms: seq<ChoreFieldMapping>): (k: nat)
    ensures k <= |ms|
    ensures k < |ms| ==> MissingSlider(chores, ms[k])
    ensures forall j :: 0 <= j < k ==> !MissingSlider(chores, ms[j])
  {
    if ms == [] then 0
    else if MissingSlider(chores, ms[0]) then 0
    else 1 + FirstMissingSlider(chores, ms[1..])
  }

  /** Mappings that all have their slider or do not resolve, followed by a
      missing slider or by the end of the list, determine where the loops stop. */
  lemma {:induction false} FirstMissingSliderAt(chores: seq<HouseholdChore>, ms: seq<ChoreFieldMapping>, k: nat)
    requires k <= |ms|
    requires forall j :: 0 <= j < k ==> !MissingSlider(chores, ms[j])
    requires k < |ms| ==> MissingSlider(chores, ms[k])
    ensures FirstMissingSlider(chores, ms) == k
  {
    if k > 0 {
      assert !MissingSlider(chores, ms[0]);
      FirstMissingSliderAt(chores, ms[1..], k - 1);
    }
  }

  /** The store after `SaveSettings` has gone through the mappings in order,
      `values[i]` being the value of the `i`-th mapping's slider. */
  function Saved(chores: seq<HouseholdChore>, ms: seq<ChoreFieldMapping>, values: seq<real>,
                 entries: map<string, int>): map<string, int>
    requires |values| == |ms|
  {
    if ms == [] then entries
    else
      var n := |ms| - 1;
      var before := Saved(chores, ms[..n], values[..n], entries);
      var c := FindByTag(chores, ms[n].choreTag);
      if c == null then before else before[SettingsKey(c.choreName) := Truncate(values[n])]
  }

  /** The value of slider `s` after the load loop of `Start` has gone through the
      mappings in order, starting from `initial`. */
  function AfterLoad(chores: seq<HouseholdChore>, ms: seq<ChoreFieldMapping>, entries: map<string, int>,
                     s: Slider, initial: real): real
  {
    if ms == [] then initial
    else
      var n := |ms| - 1;
      var c := FindByTag(chores, ms[n].choreTag);
      if ms[n].timeSlider == s && c != null then GetInt(entries, SettingsKey(c.choreName), 1) as real
      else AfterLoad(chores, ms[..n], entries, s, initial)
  }

  /** The current values of the mappings' sliders, in mapping order; a mapping
      without a slider has no value, and 0.0 stands in for it. */
  ghost function SliderValues(ms: seq<ChoreFieldMapping>): (values: seq<real>)
    reads set m | m in ms :: m.timeSlider
    ensures |values| == |ms|
    ensures forall i :: 0 <= i < |ms| && ms[i].timeSlider != null ==> values[i] == ms[i].timeSlider.value
  {
    if ms == [] then []
    else
      var last := ms[|ms| - 1].timeSlider;
      SliderValues(ms[..|ms| - 1]) + [if last == null then 0.0 else last.value]
  }

  /** Saving leaves every key that no mapping resolves to as it was, present or
      absent: unresolved mappings write nothing. */
  lemma {:induction false} SaveFrame(chores: seq<HouseholdChore>, ms: seq<ChoreFieldMapping>, values: seq<real>,
                                     entries: map<string, int>, key: string)
    requires |values| == |ms|
    requires forall i :: 0 <= i < |ms| ==> !WritesKey(chores, ms[i], key)
    ensures key in Saved(chores, ms, values, entries) <==> key in entries
    ensures key in entries ==> Saved(chores, ms, values, entries)[key] == entries[key]
  {
    if ms != [] {
      var n := |ms| - 1;
      assert !WritesKey(chores, ms[n], key);
      SaveFrame(chores, ms[..n], values[..n], entries, key);
    }
  }

  /** A resolved mapping's key holds the truncated value of its slider, unless a
      later mapping writes the same key: the last writer wins. */
  lemma {:induction false} SaveLastWins(chores: seq<HouseholdChore>, ms: seq<ChoreFieldMapping>, values: seq<real>,
                                        entries: map<string, int>, i: nat)
    requires |values| == |ms| && i < |ms|
    requires FindByTag(chores, ms[i].choreTag) != null
    requires forall j :: i < j < |ms| ==>
      !WritesKey(chores, ms[j], SettingsKey(FindByTag(chores, ms[i].choreTag).choreName))
    ensures var key := SettingsKey(FindByTag(chores, ms[i].choreTag).choreName);
      key in Saved(chores, ms, values, entries) && Saved(chores, ms, values, entries)[key] == Truncate(values[i])
  {
    var n := |ms| - 1;
    if i < n {
      assert !WritesKey(chores, ms[n], SettingsKey(FindByTag(chores, ms[i].choreTag).choreName));
      assert ms[..n][i] == ms[i];
      SaveLastWins(chores, ms[..n], values[..n], entries, i);
    }
  }

  /** A slider that no resolved mapping points to keeps its value on load. */
  lemma {:induction false} LoadUntouched(chores: seq<HouseholdChore>, ms: seq<ChoreFieldMapping>,
                                         entries: map<string, int>, s: Slider, initial: real)
    requires forall i :: 0 <= i < |ms| && ms[i].timeSlider == s ==> FindByTag(chores, ms[i].choreTag) == null
    ensures AfterLoad(chores, ms, entries, s, initial) == initial
  {
    if ms != [] {
      var n := |ms| - 1;
      LoadUntouched(chores, ms[..n], entries, s, initial);
    }
  }

  /** A resolved mapping's slider ends up holding the stored value of its key,
      or 1 when the key is absent, unless a later resolved mapping shares the
      slider. */
  lemma {:induction false} LoadLastWins(chores: seq<HouseholdChore>, ms: seq<ChoreFieldMapping>,
                                        entries: map<string, int>, initial: real, i: nat)
    requires i < |ms| && FindByTag(chores, ms[i].choreTag) != null && ms[i].timeSlider != null
    requires forall j :: i < j < |ms| && ms[j].timeSlider == ms[i].timeSlider ==>
      FindByTag(chores, ms[j].choreTag) == null
    ensures var key := SettingsKey(FindByTag(chores, ms[i].choreTag).choreName);
      AfterLoad(chores, ms, entries, ms[i].timeSlider, initial)
        == if key in entries then entries[key] as real else 1.0
  {
    var n := |ms| - 1;
    if i < n {
      assert ms[..n][i] == ms[i];
      LoadLastWins(chores, ms[..n], entries, initial, i);
    }
  }

  /** Save then load: a resolved mapping whose key and slider no later resolved
      mapping shares gets back the truncation of the value it saved. */
  lemma SaveLoadRoundTrip(chores: seq<HouseholdChore>, ms: seq<ChoreFieldMapping>, values: seq<real>,
                          entries: map<string, int>, initial: real, i: nat)
    requires |values| == |ms| && i < |ms|
    requires FindByTag(chores, ms[i].choreTag) != null && ms[i].timeSlider != null
    requires forall j :: i < j < |ms| ==>
      !WritesKey(chores, ms[j], SettingsKey(FindByTag(chores, ms[i].choreTag).choreName))
    requires forall j :: i < j < |ms| && ms[j].timeSlider == ms[i].timeSlider ==>
      FindByTag(chores, ms[j].choreTag) == null
    ensures AfterLoad(chores, ms, Saved(chores, ms, values, entries), ms[i].timeSlider, initial)
      == Truncate(values[i]) as real
  {
    SaveLastWins(chores, ms, values, entries, i);
    LoadLastWins(chores, ms, Saved(chores, ms, values, entries), initial, i);
  }

  /** `OptionsMenu`: the options screen. */
  class OptionsMenu {
    var choreFieldMappings: seq<ChoreFieldMapping>
    /** How many times `SaveSettings` has been registered on the save button. */
    var saveListeners: nat

    constructor (mappings: seq<ChoreFieldMapping>)
      ensures choreFieldMappings == mappings && saveListeners == 0
    {
      choreFieldMappings := mappings;
      saveListeners := 0;
    }

    /** The sliders the mappings refer to. */
    ghost function Sliders(): set<Slider?>
      reads this
    {
      set m | m in choreFieldMappings :: m.timeSlider
    }

    /** `Start`: without a spawner instance it stops before touching anything.
        Otherwise it loads every resolved mapping's slider from the store, in
        order, and registers `SaveSettings` on the save button. A resolved mapping
        without a slider throws: the sliders before it are loaded, and the
        listener is not registered. */
    method Start(instance: SpawnAroundObject?, prefs: PrefsStore) returns (thrown: bool)
      modifies this`saveListeners, Sliders()
      ensures instance == null ==> !thrown && saveListeners == old(saveListeners)
      ensures instance == null ==> forall s: Slider :: s in Sliders() ==> s.value == old(s.value)
      ensures instance != null ==>
        var stop := FirstMissingSlider(instance.householdChores, choreFieldMappings);
        (thrown <==> stop < |choreFieldMappings|)
        && forall s: Slider :: s in Sliders() ==>
             s.value == AfterLoad(instance.householdChores, choreFieldMappings[..stop], prefs.entries, s, old(s.value))
      ensures saveListeners == old(saveListeners) + if instance != null && !thrown then 1 else 0
    {
      thrown := false;
      if instance == null {
        return;
      }
      var ms := choreFieldMappings;
      // neither the catalogue nor the store changes while the sliders are set
      var chores := instance.householdChores;
      var entries := prefs.entries;
      for k := 0 to |ms|
        invariant forall j :: 0 <= j < k ==> !MissingSlider(chores, ms[j])
        invariant saveListeners == old(saveListeners)
        invariant forall s: Slider :: s in Sliders() ==> s.value == AfterLoad(chores, ms[..k], entries, s, old(s.value))
      {
        var mapping := ms[k];
        var chore := FindByTag(chores, mapping.choreTag);
        assert ms[..k + 1][..k] == ms[..k];
        if chore != null {
          var key := SettingsKey(chore.choreName);
          var maxDays := GetInt(entries, key, 1);
          if mapping.timeSlider == null {
            // `mapping.timeSlider.value` throws a NullReferenceException
            FirstMissingSliderAt(chores, ms, k);
            thrown := true;
            return;
          }
          mapping.timeSlider.value := maxDays as real;
        }
        assert !MissingSlider(chores, ms[k]);
      }
      FirstMissingSliderAt(chores, ms, |ms|);
      assert ms[..|ms|] == ms;
      saveListeners := saveListeners + 1;
    }

    /** `SaveSettings`: writes the truncated value of every resolved mapping's
        slider under its chore's key, in order. Without a spawner instance the
        first mapping throws before anything is written; a resolved mapping
        without a slider throws with the keys before it written. */
    method SaveSettings(instance: SpawnAroundObject?, prefs: PrefsStore) returns (thrown: bool)
      modifies prefs
      ensures instance == null ==> (thrown <==> choreFieldMappings != []) && prefs.entries == old(prefs.entries)
      ensures instance != null ==>
        var stop := FirstMissingSlider(instance.householdChores, choreFieldMappings);
        (thrown <==> stop < |choreFieldMappings|)
        && prefs.entries == Saved(instance.householdChores, choreFieldMappings[..stop],
                                  old(SliderValues(choreFieldMappings))[..stop], old(prefs.entries))
    {
      thrown := false;
      var ms := choreFieldMappings;
      if instance == null {
        // the first mapping's `SpawnAroundObject.Instance.householdChores`
        // throws a NullReferenceException
        thrown := ms != [];
        return;
      }
      ghost var values := SliderValues(ms);
      ghost var chores := instance.householdChores;
      for k := 0 to |ms|
        invariant forall j :: 0 <= j < k ==> !MissingSlider(chores, ms[j])
        invariant prefs.entries == Saved(chores, ms[..k], values[..k], old(prefs.entries))
      {
        var mapping := ms[k];
        var chore := FindByTag(instance.householdChores, mapping.choreTag);
        assert ms[..k + 1][..k] == ms[..k] && ms[..k + 1][k] == mapping;
        assert values[..k + 1][..k] == values[..k] && values[..k + 1][k] == values[k];
        if chore != null {
          if mapping.timeSlider == null {
            // `mapping.timeSlider.value` throws a NullReferenceException
            FirstMissingSliderAt(chores, ms, k);
            thrown := true;
            return;
          }
          assert values[k] == mapping.timeSlider.value;
          var maxDays := Truncate(mapping.timeSlider.value);
          var key := SettingsKey(chore.choreName);
          prefs.SetInt(key, maxDays);
        }
        assert !MissingSlider(chores, ms[k]);
      }
      FirstMissingSliderAt(chores, ms, |ms|);
      assert ms[..|ms|] == ms;
      assert values[..|values|] == values;
    }
  }
}
