/** PlaceOnIndicator: a placement indicator that follows the screen-centre
    raycast, a prefab chosen from a dropdown, and at most one spawned object
    that is placed at, or moved to, the indicator. */
module IndicatorPlacement {
  import opened Engine

  datatype Indicator = Indicator(active: bool, pose: Pose)

  /** The tracked spawned object: its instance id, the prefab it came from
      and its pose. */
  datatype Spawned = Spawned(id: ObjId, prefab: PrefabId, pose: Pose)

  datatype State = State(
    prefabs: seq<Option<PrefabId>>,  // placedPrefabs; None for an empty slot
    toggle: Option<bool>,            // the augment ToggleSwitch: None when missing, else its current value
    indicator: Indicator,            // placementIndicator: activeInHierarchy and transform
    lost: bool,                      // placementIndicator is null: the tag lookup found no active indicator
    spawned: Option<Spawned>,        // spawnedObject
    live: set<ObjId>,                // objects this controller instantiated and has not destroyed
    nextId: ObjId,                   // id the next Instantiate returns
    selected: int,                   // selectedDropdownIndex
    previous: int,                   // previousSelectedIndex
    dropdown: int,                   // prefabDropdown.value
    options: nat)                    // the number of options prefabDropdown offers

  /** At most one spawned object exists, and it is the tracked one; a lost
      indicator is a hidden one that nothing shows again. */
  predicate Inv(s: State) {
    && (match s.spawned
        case None => s.live == {}
        case Some(o) => s.live == {o.id})
    && (forall id :: id in s.live ==> id < s.nextId)
    && (s.lost ==> !s.indicator.active)
  }

  lemma InvAtMostOne(s: State)
    requires Inv(s)
    ensures |s.live| <= 1
    ensures s.spawned.None? <==> |s.live| == 0
  {
  }

  /** GetSelectedPrefab: the prefab in the selected slot, None when the index
      is out of range or the slot is empty. */
  function SelectedPrefab(s: State): (r: Option<PrefabId>)
    ensures r.Some? <==> 0 <= s.selected < |s.prefabs| && s.prefabs[s.selected].Some?
    ensures r.Some? ==> r == s.prefabs[s.selected]
  {
    if 0 <= s.selected < |s.prefabs| then s.prefabs[s.selected] else None
  }

  /** Update: a hit moves the indicator to the first hit's pose and shows it;
      a miss hides it and keeps its pose; with the indicator lost, nothing. */
  function Raycast(s: State, hit: Option<Pose>): (r: State)
    ensures s.lost ==> r == s
    ensures !s.lost ==> (r.indicator.active <==> hit.Some?)
    ensures !s.lost ==> r.indicator.pose == (if hit.Some? then hit.value else s.indicator.pose)
    ensures r.(indicator := s.indicator) == s
    ensures Inv(s) ==> Inv(r)
  {
    if s.lost then s
    else match hit
      case Some(p) => s.(indicator := Indicator(true, p))
      case None => s.(indicator := s.indicator.(active := false))
  }

  /** Destroy(spawnedObject); spawnedObject = null. */
  function DestroySpawned(s: State): (r: State)
    ensures Inv(s) ==> Inv(r) && r.live == {}
    ensures r.spawned.None?
    ensures r.(spawned := s.spawned, live := s.live) == s
  {
    match s.spawned
    case None => s
    case Some(o) => s.(spawned := None, live := s.live - {o.id})
  }

  /** Instantiate(prefab, indicator pose) tracked as the spawned object: a
      fresh instance at the indicator, and nothing else changes. */
  function Spawn(s: State, prefab: PrefabId): (r: State)
    ensures r == s.(spawned := Some(Spawned(s.nextId, prefab, s.indicator.pose)),
                    live := s.live + {s.nextId}, nextId := s.nextId + 1)
    ensures s.spawned.None? && Inv(s) ==> Inv(r)
    ensures Inv(s) ==> s.nextId !in s.live && r.live == s.live + {s.nextId}
  {
    s.(spawned := Some(Spawned(s.nextId, prefab, s.indicator.pose)),
       live := s.live + {s.nextId},
       nextId := s.nextId + 1)
  }

  /** SetPositionAndRotation of the spawned object to the indicator pose:
      the same object, moved, and nothing else changes. */
  function MoveSpawned(s: State): (r: State)
    ensures s.spawned.None? ==> r == s
    ensures s.spawned.Some? ==> r == s.(spawned := Some(s.spawned.value.(pose := s.indicator.pose)))
    ensures Inv(s) ==> Inv(r)
  {
    match s.spawned
    case None => s
    case Some(o) => s.(spawned := Some(o.(pose := s.indicator.pose)))
  }

  /** PlaceObject. A lost indicator throws at the first check, before any
      change, which the model gives as the unchanged state. */
  function Place(s: State): (r: State)
    // nothing happens without a visible indicator and a usable selected prefab
    ensures !s.indicator.active || SelectedPrefab(s).None? ==> r == s
    // with both and nothing tracked, the selected prefab is spawned at the indicator
    ensures s.indicator.active && SelectedPrefab(s).Some? && s.spawned.None? ==>
              r == s.(spawned := Some(Spawned(s.nextId, SelectedPrefab(s).value, s.indicator.pose)),
                      live := s.live + {s.nextId}, nextId := s.nextId + 1)
    // with both and an object tracked, it is moved to the indicator iff the switch is on
    ensures s.indicator.active && SelectedPrefab(s).Some? && s.spawned.Some? && s.toggle == Some(true) ==>
              r == s.(spawned := Some(s.spawned.value.(pose := s.indicator.pose)))
    ensures s.spawned.Some? && s.toggle != Some(true) ==> r == s
    ensures Inv(s) ==> Inv(r)
  {
    if !s.indicator.active || |s.prefabs| == 0 then s
    else match SelectedPrefab(s)
      case None => s
      case Some(p) =>
        if s.spawned.None? then Spawn(s, p)
        else if s.toggle == Some(true) then MoveSpawned(s)
        else s
  }

  /** A second tap at the same indicator changes nothing more: the object the
      first one spawned or moved is already there. */
  lemma PlaceIdempotent(s: State)
    ensures Place(Place(s)) == Place(s)
  {
  }

  /** OnDropdownValueChanged. */
  function DropdownChanged(s: State, newIndex: int): (r: State)
    // re-selecting the current index changes nothing
    ensures newIndex == s.previous ==> r == s
    ensures newIndex != s.previous ==> r.selected == newIndex && r.previous == newIndex
    // the old object is gone; a new one exists iff the indicator is visible and the slot is usable
    ensures newIndex != s.previous ==>
              (r.spawned.Some? <==> s.indicator.active && 0 <= newIndex < |s.prefabs| && s.prefabs[newIndex].Some?)
    ensures newIndex != s.previous && r.spawned.Some? ==>
              r.spawned.value == Spawned(s.nextId, s.prefabs[newIndex].value, s.indicator.pose)
    ensures newIndex != s.previous && Inv(s) ==> s.spawned.Some? ==> s.spawned.value.id !in r.live
    ensures r.indicator == s.indicator && r.lost == s.lost && r.toggle == s.toggle && r.dropdown == s.dropdown
    ensures Inv(s) ==> Inv(r)
  {
    if newIndex == s.previous then s
    else Place(DestroySpawned(s).(selected := newIndex, previous := newIndex))
  }

  /** The TMP_Dropdown value setter, from the current value, the number of
      options and the value written: None when it returns at once (the value
      is the current one, or there are no options); otherwise Some of the
      value it stores, clamped to the option range, which it then passes to
      the change callback. */
  function DropdownWrite(current: int, options: nat, value: int): (r: Option<int>)
    ensures r.None? <==> value == current || options == 0
    ensures r.Some? ==> 0 <= r.value < options
    ensures r.Some? ==> (r.value == value <==> 0 <= value < options)
    ensures r.Some? && value >= options ==> r.value == options - 1
  {
    if value == current || options == 0 then None
    else if value < 0 then Some(0)
    else if value >= options then Some(options - 1)
    else Some(value)
  }

  /** Writing the index to the dropdown stores the index itself, or nothing:
      the dropdown has no options, already shows the index, or offers an
      option for it. */
  predicate ExactWrite(s: State, index: int) {
    s.options == 0 || index == s.dropdown || index < s.options
  }

  /** SetSelectedPrefabIndex. After the old object is destroyed and the index
      recorded, the dropdown write raises the change callback when the
      stored value differs from the current one; for a value the dropdown
      holds, the callback finds previousSelectedIndex equal to it and does
      nothing. The log line that follows reads the slot's prefab name, which
      throws for an empty slot before anything is spawned. */
  function SelectPrefab(s: State, index: int): (r: State)
    // an index outside the prefab array changes nothing
    ensures !(0 <= index < |s.prefabs|) ==> r == s
    // a write the dropdown stores as given: the index is selected, and its prefab spawned at a visible indicator
    ensures 0 <= index < |s.prefabs| && ExactWrite(s, index) ==>
              r.selected == index && r.previous == index &&
              r.dropdown == (if s.options == 0 then s.dropdown else index)
    ensures 0 <= index < |s.prefabs| && ExactWrite(s, index) ==>
              (r.spawned.Some? <==> s.indicator.active && s.prefabs[index].Some?)
    ensures 0 <= index < |s.prefabs| && ExactWrite(s, index) && r.spawned.Some? ==>
              r.spawned.value == Spawned(s.nextId, s.prefabs[index].value, s.indicator.pose)
    ensures Inv(s) && ExactWrite(s, index) ==> Inv(r)
    // an index past the last option: the dropdown clamps it and the callback selects the last option
    ensures 0 <= index < |s.prefabs| && !ExactWrite(s, index) ==>
              r.selected == s.options - 1 && r.previous == s.options - 1 && r.dropdown == s.options - 1
    ensures r.prefabs == s.prefabs && r.options == s.options
    ensures r.indicator == s.indicator && r.lost == s.lost && r.toggle == s.toggle
  {
    if index < 0 || index >= |s.prefabs| then s
    else
      var cleared := DestroySpawned(s).(selected := index, previous := index);
      var notified := match DropdownWrite(s.dropdown, s.options, index)
        case None => cleared
        case Some(v) => DropdownChanged(cleared.(dropdown := v), v);
      if s.prefabs[index].Some? && notified.indicator.active then
        match SelectedPrefab(notified)
        case Some(p) => Spawn(notified, p)
        case None => notified
      else notified
  }

  /** With more prefabs than dropdown options, selecting a prefab past the
      last option at a visible indicator leaves two objects alive: the
      callback spawns the last option's prefab, and SetSelectedPrefabIndex
      then spawns it again and tracks only the second. */
  lemma ClampedSelectLeavesUntrackedObject(s: State, index: int)
    requires Inv(s) && s.indicator.active
    requires 0 < s.options <= index < |s.prefabs| && index != s.dropdown
    requires s.prefabs[index].Some? && s.prefabs[s.options - 1].Some?
    ensures var r := SelectPrefab(s, index);
            r.live == {s.nextId, s.nextId + 1} && r.spawned.Some? && r.spawned.value.id == s.nextId + 1 &&
            !Inv(r)
  {
  }

  /** A user's pick in the dropdown: the value setter stores the picked
      option and then raises OnDropdownValueChanged, the listener Awake
      registers, with the stored value. */
  function Picked(s: State, index: int): (r: State)
    // a pick of the value already shown, or in a dropdown without options, changes nothing
    ensures DropdownWrite(s.dropdown, s.options, index).None? ==> r == s
    // otherwise the dropdown and previousSelectedIndex both hold the stored value
    ensures var w := DropdownWrite(s.dropdown, s.options, index);
            w.Some? ==> r.dropdown == w.value && r.previous == w.value
    // a new selection replaces the object: one exists iff the indicator is visible and the slot usable
    ensures var w := DropdownWrite(s.dropdown, s.options, index);
            w.Some? && w.value != s.previous ==>
              && r.selected == w.value
              && (r.spawned.Some? <==> s.indicator.active && w.value < |s.prefabs| && s.prefabs[w.value].Some?)
    ensures r.prefabs == s.prefabs && r.options == s.options
    ensures r.indicator == s.indicator && r.lost == s.lost && r.toggle == s.toggle
    ensures Inv(s) ==> Inv(r)
  {
    match DropdownWrite(s.dropdown, s.options, index)
    case None => s
    case Some(v) => DropdownChanged(s.(dropdown := v), v)
  }

  /** After a pick, re-applying the dropdown's value on a scene load finds it
      already applied: only the lost flag is refreshed. */
  lemma PickThenReassignKeepsPick(s: State, index: int)
    requires s.dropdown == s.previous
    ensures Reassigned(Picked(s, index)) == Picked(s, index).(lost := !s.indicator.active)
  {
  }

  /** A dropdown that offers an option for every prefab, or none at all,
      stores every in-range index as given. */
  predicate Configured(s: State) {
    s.options == 0 || |s.prefabs| <= s.options
  }

  /** The switch value after SetAugmentToggleState(isOn): recorded when the
      switch exists. */
  function SwitchAfter(s: State, isOn: bool): Option<bool> {
    if s.toggle.Some? then Some(isOn) else None
  }

  /** SetAugmentToggleState: the switch takes the value; an existing object
      is moved to the indicator only when the value is on and the indicator
      is visible. */
  function ToggleChanged(s: State, isOn: bool): (r: State)
    ensures s.spawned.Some? && isOn && s.indicator.active ==>
              r == s.(toggle := SwitchAfter(s, isOn), spawned := Some(s.spawned.value.(pose := s.indicator.pose)))
    ensures !(s.spawned.Some? && isOn && s.indicator.active) ==> r == s.(toggle := SwitchAfter(s, isOn))
    ensures Inv(s) ==> Inv(r)
  {
    var switched := s.(toggle := SwitchAfter(s, isOn));
    if s.spawned.Some? && isOn && s.indicator.active then MoveSpawned(switched) else switched
  }

  /** With the switch turned on, the next tap moves the existing object to
      the indicator, as the switch-on itself does. */
  lemma SwitchOnThenTapMoves(s: State)
    requires s.toggle.Some? && s.spawned.Some? && s.indicator.active && SelectedPrefab(s).Some?
    ensures Place(ToggleChanged(s, true)).spawned == Some(s.spawned.value.(pose := s.indicator.pose))
    ensures Place(ToggleChanged(s, true)).live == s.live
  {
  }

  /** ReassignReferencesAfterSceneLoad. The tag lookup finds the indicator
      only while it is active; when it is hidden the reference is lost for
      good. The dropdown's current value is then re-applied; showing the
      found indicator changes nothing, as it is active already. */
  function Reassigned(s: State): (r: State)
    ensures r.lost <==> !s.indicator.active
    ensures r.indicator == s.indicator
    ensures r == DropdownChanged(s, s.dropdown).(lost := !s.indicator.active)
    ensures s.dropdown == s.previous ==> r == s.(lost := !s.indicator.active)
    ensures r.previous == s.dropdown
    ensures Inv(s) ==> Inv(r)
  {
    DropdownChanged(s.(lost := !s.indicator.active), s.dropdown)
  }

  /** Awake: the indicator is shown and the dropdown's value applied while
      previousSelectedIndex is still -1. */
  function Awoken(prefabs: seq<Option<PrefabId>>, toggle: Option<bool>, dropdown: int, options: nat, pose: Pose): (r: State)
    ensures Inv(r)
    ensures r.prefabs == prefabs && r.options == options && r.dropdown == dropdown
    ensures r.indicator == Indicator(true, pose) && !r.lost
    ensures dropdown != -1 ==> r.selected == dropdown && r.previous == dropdown
    ensures dropdown != -1 ==>
              (r.spawned.Some? <==> 0 <= dropdown < |prefabs| && prefabs[dropdown].Some?)
  {
    DropdownChanged(State(prefabs, toggle, Indicator(true, pose), false, None, {}, 0, 0, -1, dropdown, options), dropdown)
  }

  /** Awake then Start: the re-application in Start finds the index already
      applied and the indicator still shown, so Start spawns nothing more. */
  lemma StartAfterAwakeSpawnsNothing(prefabs: seq<Option<PrefabId>>, toggle: Option<bool>, dropdown: int, options: nat, pose: Pose)
    requires dropdown != -1
    ensures Reassigned(Awoken(prefabs, toggle, dropdown, options, pose)) == Awoken(prefabs, toggle, dropdown, options, pose)
  {
  }

  /** A raycast miss before the reassignment loses the indicator: from then
      on no raycast shows it and no tap places anything. */
  lemma HiddenIndicatorIsLost(s: State, hits: seq<Option<Pose>>)
    requires Inv(s) && s.indicator.active
    ensures var r := Reassigned(Raycast(s, None));
            r.lost && forall i :: 0 <= i < |hits| ==> Place(Raycast(r, hits[i])) == r
  {
  }

  /** Every operation keeps at most one spawned object alive while the
      dropdown offers an option for every prefab. */
  datatype Event =
    | Tick(hit: Option<Pose>)
    | Touch
    | Dropdown(index: int)
    | Select(index: int)
    | ToggleTo(isOn: bool)
    | Reassign

  function Apply(s: State, e: Event): (r: State)
    ensures r.prefabs == s.prefabs && r.options == s.options
  {
    match e
    case Tick(hit) => Raycast(s, hit)
    case Touch => Place(s)
    case Dropdown(i) => Picked(s, i)
    case Select(i) => SelectPrefab(s, i)
    case ToggleTo(b) => ToggleChanged(s, b)
    case Reassign => Reassigned(s)
  }

  function Run(s: State, es: seq<Event>): State
    decreases |es|
  {
    if |es| == 0 then s else Run(Apply(s, es[0]), es[1..])
  }

  lemma {:induction false} RunKeepsAtMostOne(s: State, es: seq<Event>)
    requires Inv(s) && Configured(s)
    ensures Inv(Run(s, es)) && |Run(s, es).live| <= 1
    decreases |es|
  {
    if |es| == 0 {
      InvAtMostOne(s);
    } else {
      var e := es[0];
      assert Inv(Apply(s, e));
      RunKeepsAtMostOne(Apply(s, e), es[1..]);
    }
  }

  /** The controller as the engine runs it: fields updated step by step. */
  class PlaceOnIndicator {
    const prefabs: seq<Option<PrefabId>>
    var toggle: Option<bool>
    var indicator: Indicator
    var lost: bool
    var spawned: Option<Spawned>
    var live: set<ObjId>
    var nextId: ObjId
    var selected: int
    var previous: int
    var dropdown: int
    const options: nat

    function Model(): State
      reads this
    {
      State(prefabs, toggle, indicator, lost, spawned, live, nextId, selected, previous, dropdown, options)
    }

    predicate Valid()
      reads this
    {
      Inv(Model())
    }

    /** Awake. */
    constructor (prefabs: seq<Option<PrefabId>>, toggle: Option<bool>, dropdownValue: int, options: nat, indicatorPose: Pose)
      ensures Valid()
      ensures Model() == Awoken(prefabs, toggle, dropdownValue, options, indicatorPose)
    {
      this.prefabs := prefabs;
      this.toggle := toggle;
      indicator := Indicator(true, indicatorPose);
      lost := false;
      spawned := None;
      live := {};
      nextId := 0;
      selected := 0;
      previous := -1;
      dropdown := dropdownValue;
      this.options := options;
      new;
      OnDropdownValueChanged(dropdownValue);
    }

    /** Update, given the raycast result at the screen centre. */
    method Update(hit: Option<Pose>)
      modifies this
      ensures Model() == Raycast(old(Model()), hit)
      ensures old(Valid()) ==> Valid()
    {
      if lost {
        return;
      }
      if hit.Some? {
        indicator := indicator.(pose := hit.value);
        if !indicator.active {
          indicator := indicator.(active := true);
        }
      } else {
        indicator := indicator.(active := false);
      }
    }

    method DestroySpawnedObject()
      modifies this
      ensures Model() == DestroySpawned(old(Model()))
      ensures old(Valid()) ==> Valid()
    {
      if spawned.Some? {
        live := live - {spawned.value.id};
        spawned := None;
      }
    }

    method InstantiateAtIndicator(prefab: PrefabId)
      modifies this
      ensures Model() == Spawn(old(Model()), prefab)
      ensures old(Valid()) && old(spawned).None? ==> Valid()
    {
      spawned := Some(Spawned(nextId, prefab, indicator.pose));
      live := live + {nextId};
      nextId := nextId + 1;
    }

    method OnDropdownValueChanged(newIndex: int)
      modifies this
      ensures Model() == DropdownChanged(old(Model()), newIndex)
      ensures old(Valid()) ==> Valid()
    {
      if newIndex != previous {
        DestroySpawnedObject();
        selected := newIndex;
        previous := newIndex;
        PlaceObject();
      }
    }

    method PlaceObject()
      modifies this
      ensures Model() == Place(old(Model()))
      ensures old(Valid()) ==> Valid()
    {
      if !indicator.active || |prefabs| == 0 {
        return;
      }
      var prefabToUse := SelectedPrefab(Model());
      if prefabToUse.None? {
        return;
      }
      if spawned.None? {
        InstantiateAtIndicator(prefabToUse.value);
      } else if toggle == Some(true) {
        spawned := Some(spawned.value.(pose := indicator.pose));
      }
    }

    method SetSelectedPrefabIndex(index: int)
      modifies this
      ensures Model() == SelectPrefab(old(Model()), index)
      ensures old(Valid()) && ExactWrite(old(Model()), index) ==> Valid()
    {
      if index < 0 || index >= |prefabs| {
        return;
      }
      DestroySpawnedObject();
      selected := index;
      previous := index;
      var written := DropdownWrite(dropdown, options, index);
      if written.Some? {
        dropdown := written.value;
        OnDropdownValueChanged(written.value);
      }
      if prefabs[index].None? {
        return;  // the log line reads the empty slot's name and throws
      }
      if indicator.active {
        var prefabToUse := SelectedPrefab(Model());
        if prefabToUse.Some? {
          InstantiateAtIndicator(prefabToUse.value);
        }
      }
    }

    method SetAugmentToggleState(isOn: bool)
      modifies this
      ensures Model() == ToggleChanged(old(Model()), isOn)
      ensures old(Valid()) ==> Valid()
    {
      if toggle.Some? {
        toggle := Some(isOn);
      }
      if spawned.Some? {
        if isOn && indicator.active {
          spawned := Some(spawned.value.(pose := indicator.pose));
        }
      }
    }

    method ReassignReferencesAfterSceneLoad()
      modifies this
      ensures Model() == Reassigned(old(Model()))
      ensures old(Valid()) ==> Valid()
    {
      lost := !indicator.active;
      OnDropdownValueChanged(dropdown);
    }
  }
}
