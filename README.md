# AeroVerse-XR: scene, XR-lifecycle, placement and quiz controllers in Dafny

AeroVerse-XR is a Unity application. A main menu leads into an augmented-reality
mode. In that mode the user places a model of a spacecraft or an engine on a
detected plane, moves and scales it with touches, and can start a quiz about it.
This project models the controllers that carry the application's logic. It
proves what they guarantee.

- **Object placement.** `PlaceOnIndicator`, `PlaceOnPlane` and `PlacementManager`:
  - where the indicator and the spawned object sit;
  - that at most one spawned object is alive at any time, and, for `PlaceOnIndicator`, that this needs the prefab dropdown to offer an option for every prefab;
  - the touch-gesture state machine.
- **Scene and XR lifecycle.**
  - The XR loader and subsystems are brought up and torn down in a fixed order.
  - Additive and single scene loads.
  - Buttons are bound to scene actions by name.
  - Cameras, canvases and event systems are switched on and off per scene.
  - The "keep the first, disable the rest" rule for duplicate audio listeners
    and event systems.
  - Two singleton policies: first-wins in `SwitchARtoMain`, newest-wins in
    `SingletonXROrigin`.
  - The files involved are `SwitchARtoMain`, `SceneSwitch`, `SceneManaging`,
    `SceneSwitcherTest` and `SingletonXROrigin`.
- **Quiz selection.** `QuizManager`:
  - the fixed question bank per model key;
  - the one-hot model input;
  - the stable top-ten ranking by model score;
  - the random fill of unused questions;
  - the answer check.
- **Authentication panels.** `AuthManager`: exactly one panel shown at a time.

## Structure

Each source file is one module. `Engine` holds what they share:
- an `Option` type;
- opaque poses;
- the XR manager's loader/subsystem state;
- the log of engine calls a routine makes;
- the first-wins/newest-wins registry;
- the duplicate-disabling rule.

Each controller has the same three parts:
- **A state datatype and transition functions.** These are pure functions whose
  contracts state what each operation guarantees.
- **Lemmas.** These relate several operations: invariants over any run,
  idempotence, round trips and call order.
- **A class.** It has the component's fields. Its methods update them in the
  order the source does, with loops where the source loops. Each method
  proves that its new state is the one its transition function gives.

The engine's decisions are parameters, in one of three forms:
- oracles: whether the XR loader comes up, the raycast result, the model's
  scores, the random shuffle keys;
- sequences and arrays: what a scene contains, what a FindObjectsOfType lookup
  returns;
- an appended call log: the calls the engine receives, in order.

## Model

| member | source | states |
|---|---|---|
| Engine.LoaderInitialized | Assets/SceneSwitchingLogic/SceneSwitch.cs:144 | a yielded InitializeLoader: an already active loader stays; otherwise a loader is active afterwards iff it came up; subsystems' running state is unchanged |
| Engine.SubsystemsStarted | Assets/Scripts/SwitchARtoMain.cs:139-147 | StartSubsystems: subsystems run afterwards iff a loader is active |
| Engine.SubsystemsStopped | Assets/Scripts/SwitchARtoMain.cs:186 | StopSubsystems: nothing runs afterwards, the loader stays |
| Engine.LoaderDeinitialized | Assets/Scripts/SwitchARtoMain.cs:187 | DeinitializeLoader: no loader and nothing running |
| Engine.IndexOfCall | Assets/SceneSwitchingLogic/SceneSwitcherTest.cs:57-69 | position of the first occurrence of a call in a log, none before it |
| Engine.KeepFirst | Assets/Scripts/SwitchARtoMain.cs:249-265 | every element after the first is off, the first keeps its flag, the length is unchanged |
| Engine.KeepFirstLeavesAtMostOne | Assets/Scripts/SwitchARtoMain.cs:249-265 | afterwards exactly one element is on when the first was on, none otherwise |
| Engine.KeepFirstIdempotent | Assets/Scripts/SwitchARtoMain.cs:249-265 | disabling duplicates twice is disabling them once |
| Engine.KeepFirstOfAtMostOne | Assets/SceneSwitchingLogic/SceneSwitch.cs:96-107 | with at most one element the rule changes nothing, so the guarded variants agree with it |
| Engine.DisableAllButFirst | Assets/Scripts/SwitchARtoMain.cs:249-256 | the loop from index 1 over the lookup array leaves exactly KeepFirst of the old flags |
| IndicatorPlacement.InvAtMostOne | Assets/Scripts/PlaceOnIndicator.cs:136-155 | under the invariant at most one spawned object is alive, none iff nothing is tracked |
| IndicatorPlacement.SelectedPrefab | Assets/Scripts/PlaceOnIndicator.cs:162-171 | GetSelectedPrefab: a prefab iff the index is in range and the slot is filled |
| IndicatorPlacement.Raycast | Assets/Scripts/PlaceOnIndicator.cs:72-90 | with the indicator lost nothing happens; otherwise a hit moves the indicator to the first hit's pose and shows it, a miss hides it and keeps its pose; nothing else changes |
| IndicatorPlacement.DestroySpawned | Assets/Scripts/PlaceOnIndicator.cs:119-124 | the tracked object is destroyed and untracked; no object stays alive |
| IndicatorPlacement.Spawn | Assets/Scripts/PlaceOnIndicator.cs:147-150 | a fresh object with the next id is instantiated at the indicator pose and tracked, and no other field changes; the invariant holds when none was tracked |
| IndicatorPlacement.MoveSpawned | Assets/Scripts/PlaceOnIndicator.cs:152-155 | the tracked object keeps its identity and takes the indicator pose, and no other field changes; nothing happens when none is tracked |
| IndicatorPlacement.Place | Assets/Scripts/PlaceOnIndicator.cs:136-155 | no-op without a visible indicator or a usable selected prefab; with both, the selected prefab is spawned at the indicator when nothing is tracked, the tracked object is moved there when the switch is on, and nothing changes when it is off; at most one alive |
| IndicatorPlacement.PlaceIdempotent | Assets/Scripts/PlaceOnIndicator.cs:136-155 | a second tap at the same indicator changes nothing more |
| IndicatorPlacement.DropdownChanged | Assets/Scripts/PlaceOnIndicator.cs:113-134 | re-selecting the current index changes nothing; otherwise both indices take the new one, the old object is gone and a new one exists iff the indicator is visible and the slot usable; indicator, switch and dropdown value are untouched |
| IndicatorPlacement.DropdownWrite | Assets/Scripts/PlaceOnIndicator.cs:192 | the dropdown's value setter returns at once iff the value is the current one or there are no options; otherwise it stores a value within the options, the written value iff that is an option, else the last option when the value is past it |
| IndicatorPlacement.SelectPrefab | Assets/Scripts/PlaceOnIndicator.cs:173-214 | an index out of range changes nothing; when the dropdown stores the index as written (no options, already shown, or an option exists for it), selected and previous become the index, the dropdown shows it, a new object exists iff the indicator is visible and the slot usable, and at most one object stays alive; an index past the last option leaves selected, previous and dropdown on the last option; prefabs, options, indicator and switch are untouched |
| IndicatorPlacement.ClampedSelectLeavesUntrackedObject | Assets/Scripts/PlaceOnIndicator.cs:173-203 | with fewer options than prefabs, selecting an index past the last option at a visible indicator leaves two objects alive: the change callback spawns the last option's prefab, the method spawns it again and tracks only the second |
| IndicatorPlacement.ToggleChanged | Assets/Scripts/PlaceOnIndicator.cs:217-240 | the switch takes the value when it exists; an existing object is moved to the indicator iff the value is on and the indicator visible; no other field changes |
| IndicatorPlacement.SwitchOnThenTapMoves | Assets/Scripts/PlaceOnIndicator.cs:136-155 | after the switch is turned on, a tap moves the existing object to the indicator and spawns nothing |
| IndicatorPlacement.Reassigned | Assets/Scripts/PlaceOnIndicator.cs:243-274 | the indicator reference is lost iff the indicator is hidden (the tag lookup finds active objects only); the dropdown value is then re-applied; with the value already applied nothing else changes |
| IndicatorPlacement.Awoken | Assets/Scripts/PlaceOnIndicator.cs:34-51 | Awake shows the indicator and applies the dropdown value (unless it is -1) without writing it; an object exists iff that slot is usable; at most one object is alive |
| IndicatorPlacement.StartAfterAwakeSpawnsNothing | Assets/Scripts/PlaceOnIndicator.cs:53-56 | Start after Awake finds the index applied and changes nothing |
| IndicatorPlacement.HiddenIndicatorIsLost | Assets/Scripts/PlaceOnIndicator.cs:72-90 | an indicator hidden by a raycast miss before the reassignment is lost: no later raycast shows it and no tap places anything |
| IndicatorPlacement.Picked | Assets/Scripts/PlaceOnIndicator.cs:46-47 | a user's dropdown pick goes through the value setter, then the registered listener: no change when the setter returns at once; otherwise the dropdown and previousSelectedIndex hold the stored value, and a new selection replaces the object, one existing iff the indicator is visible and the slot usable; indicator, switch and lost flag untouched; at most one alive |
| IndicatorPlacement.PickThenReassignKeepsPick | Assets/Scripts/PlaceOnIndicator.cs:243-274 | from a state whose dropdown shows the applied index, re-applying the dropdown value after a pick finds it applied and refreshes only the lost flag |
| IndicatorPlacement.RunKeepsAtMostOne | Assets/Scripts/PlaceOnIndicator.cs:113-240 | while the dropdown offers an option for every prefab (or none at all), any sequence of frames, taps, dropdown picks through the value setter, selections, toggles and reassignments keeps at most one spawned object alive |
| IndicatorPlacement.PlaceOnIndicator.constructor | Assets/Scripts/PlaceOnIndicator.cs:34-51 | the fields start as Awoken gives |
| IndicatorPlacement.PlaceOnIndicator.DestroySpawnedObject | Assets/Scripts/PlaceOnIndicator.cs:119-124 | the fields end as DestroySpawned gives, and the invariant is kept |
| IndicatorPlacement.PlaceOnIndicator.InstantiateAtIndicator | Assets/Scripts/PlaceOnIndicator.cs:147-150 | the fields end as Spawn gives, and the invariant is kept when nothing was tracked |
| IndicatorPlacement.PlaceOnIndicator.Update | Assets/Scripts/PlaceOnIndicator.cs:72-90 | the fields end as Raycast gives, returning at once when the indicator is lost, and the invariant is kept |
| IndicatorPlacement.PlaceOnIndicator.OnDropdownValueChanged | Assets/Scripts/PlaceOnIndicator.cs:113-134 | the fields end as DropdownChanged gives, and the invariant is kept |
| IndicatorPlacement.PlaceOnIndicator.PlaceObject | Assets/Scripts/PlaceOnIndicator.cs:136-155 | the fields end as Place gives, and the invariant is kept |
| IndicatorPlacement.PlaceOnIndicator.SetSelectedPrefabIndex | Assets/Scripts/PlaceOnIndicator.cs:173-214 | the fields end as SelectPrefab gives (the dropdown write through its value setter and change callback, then the abort on an empty slot's name), and the invariant is kept when the dropdown stores the index as written |
| IndicatorPlacement.PlaceOnIndicator.SetAugmentToggleState | Assets/Scripts/PlaceOnIndicator.cs:217-240 | the switch value and the object end as ToggleChanged gives, and the invariant is kept |
| IndicatorPlacement.PlaceOnIndicator.ReassignReferencesAfterSceneLoad | Assets/Scripts/PlaceOnIndicator.cs:243-274 | the lost flag and the fields end as Reassigned gives, and the invariant is kept |
| GesturePlacement.Initial | Assets/Scripts/PlacementManager.cs:12-24 | start-up: Placing, nothing placed, invariant holds |
| GesturePlacement.Placement | Assets/Scripts/PlacementManager.cs:59-92 | a change happens iff the guard passes, touch 0 began and the stage is active; then exactly one fresh object is instantiated and tracked, the placed flag is set and the state is Placed, and no other field changes |
| GesturePlacement.Interaction | Assets/Scripts/PlacementManager.cs:94-130 | Moving iff one began touch, storing the touch position; Scaling iff two touches with one begun, storing the distance, scale and angle baselines; no other field changes, and otherwise nothing changes |
| GesturePlacement.Movement | Assets/Scripts/PlacementManager.cs:132-159 | back to Placed iff the touch count is not 1 or the touch ended; otherwise unchanged |
| GesturePlacement.ScalingStep | Assets/Scripts/PlacementManager.cs:161-198 | back to Placed iff the count is not 2 or a touch ended; otherwise distance and angle baselines are overwritten; initialScale is kept |
| GesturePlacement.RotationStep | Assets/Scripts/PlacementManager.cs:200-205 | HandleRotation goes straight to Placed |
| GesturePlacement.Reset | Assets/Scripts/PlacementManager.cs:208-217 | ResetPlacement destroys only the tracked placed object (if any), clears the reference and the placed flag and returns to Placing; no other field changes, and nothing stays alive |
| GesturePlacement.StepKeepsInv | Assets/Scripts/PlacementManager.cs:32-57 | every frame keeps: isPlaced iff the state is not Placing, and at most the placed object is alive |
| GesturePlacement.NeverEntersRotating | Assets/Scripts/PlacementManager.cs:94-130 | no transition enters Rotating |
| GesturePlacement.AllowMultipleHasNoEffect | Assets/Scripts/PlacementManager.cs:62-65 | under the invariant the `isPlaced && !allowMultipleObjects` guard never fires, so the flag changes no frame |
| GesturePlacement.RunKeepsInv | Assets/Scripts/PlacementManager.cs:32-57 | over any frames: not Placing implies isPlaced, and at most one object is alive |
| GesturePlacement.PlacementManager.constructor | Assets/Scripts/PlacementManager.cs:12-24 | the fields start as Initial gives |
| GesturePlacement.PlacementManager.HandlePlacement | Assets/Scripts/PlacementManager.cs:59-92 | the fields end as Placement gives |
| GesturePlacement.PlacementManager.HandleObjectInteraction | Assets/Scripts/PlacementManager.cs:94-130 | the fields end as Interaction gives |
| GesturePlacement.PlacementManager.HandleMovement | Assets/Scripts/PlacementManager.cs:132-159 | the fields end as Movement gives |
| GesturePlacement.PlacementManager.HandleScaling | Assets/Scripts/PlacementManager.cs:161-198 | the fields end as ScalingStep gives |
| GesturePlacement.PlacementManager.HandleRotation | Assets/Scripts/PlacementManager.cs:200-205 | the fields end as RotationStep gives |
| GesturePlacement.PlacementManager.Update | Assets/Scripts/PlacementManager.cs:32-57 | the fields end as one Step of the state machine gives |
| GesturePlacement.PlacementManager.ResetPlacement | Assets/Scripts/PlacementManager.cs:208-217 | the fields end as Reset gives |
| ScaleGesture.Begin | Assets/Scripts/PlacementManager.cs:118-121 | the gesture start records the object's scale and the finger distance |
| ScaleGesture.Scaled | Assets/Scripts/PlacementManager.cs:182-185 | the float product with the distance ratio: non-finite iff the stored distance is zero, else scale * stored == factor * current |
| ScaleGesture.TickAsWritten | Assets/Scripts/PlacementManager.cs:179-196 | one tick as written: scale = initialScale * current / stored distance, non-finite iff the stored distance is zero; then the stored distance moves |
| ScaleGesture.TickCorrected | Assets/Scripts/PlacementManager.cs:179-196 | one tick corrected: the ratio is applied to the current scale; non-finite iff the scale was or the stored distance is zero |
| ScaleGesture.AsWrittenKeepsOnlyLastRatio | Assets/Scripts/PlacementManager.cs:179-196 | as written, after two or more ticks the scale is finite and is initialScale times the last tick's ratio only, whatever came before |
| ScaleGesture.CorrectedIsProportional | Assets/Scripts/PlacementManager.cs:179-196 | corrected, with positive distances the scale stays finite and proportional to the finger distance over any ticks |
| ScaleGesture.AsWrittenLosesEarlierTicks | Assets/Scripts/PlacementManager.cs:179-196 | distances 100, 150, 120 from scale 1 end at 0.8 as written and 1.2 corrected |
| PlanePlacement.Awoken | Assets/Scripts/PlaceOnPlane.cs:19-26 | the indicator starts at the origin with identity rotation, which is the last valid pose; nothing spawned |
| PlanePlacement.PlaceOrMove | Assets/Scripts/PlaceOnPlane.cs:57-67 | instantiates only when nothing is spawned, otherwise moves it; the object ends at the pose |
| PlanePlacement.Step | Assets/Scripts/PlaceOnPlane.cs:28-55 | a hit becomes the last valid pose, a miss keeps it; the indicator ends at it; a began touch puts the one object there; the invariant is kept |
| PlanePlacement.NoHitKeepsOrigin | Assets/Scripts/PlaceOnPlane.cs:44-49 | frames without hits keep the last valid pose |
| PlanePlacement.BeforeAnyHitAtOrigin | Assets/Scripts/PlaceOnPlane.cs:22-25 | before any hit the last valid pose is origin/identity |
| PlanePlacement.RunKeepsInv | Assets/Scripts/PlaceOnPlane.cs:57-67 | over any frames at most one object is ever instantiated |
| PlanePlacement.PlaceOnPlane.constructor | Assets/Scripts/PlaceOnPlane.cs:19-26 | the fields start as Awoken gives |
| PlanePlacement.PlaceOnPlane.Update | Assets/Scripts/PlaceOnPlane.cs:28-55 | the fields end as Step gives |
| PlanePlacement.PlaceOnPlane.PlaceOrMoveObject | Assets/Scripts/PlaceOnPlane.cs:57-67 | the fields end as PlaceOrMove gives |
| ARSwitch.LastIndexOf | Assets/Scripts/SwitchARtoMain.cs:232-241 | the last position holding the character, none after it; -1 when absent |
| ARSwitch.FileName | Assets/Scripts/SwitchARtoMain.cs:232-241 | Path.GetFileName: the suffix after the last separator, holding none |
| ARSwitch.StripExtension | Assets/Scripts/SwitchARtoMain.cs:232-241 | the prefix up to the last '.', the whole name iff it has no '.' |
| ARSwitch.FileNameWithoutExtension | Assets/Scripts/SwitchARtoMain.cs:232-241 | the scene name a build path gives holds no separator |
| ARSwitch.BuildPathNamesScene | Assets/Scripts/SwitchARtoMain.cs:232-241 | a path `dir/name.ext` names the scene `name`, even when the name holds dots |
| ARSwitch.SceneExists | Assets/Scripts/SwitchARtoMain.cs:232-241 | true iff some build path's file name without extension equals the name |
| ARSwitch.IsSceneValid | Assets/Scripts/SwitchARtoMain.cs:215-230 | true iff the name is non-empty and exists in the build list |
| ARSwitch.FindScene | Assets/Scripts/SwitchARtoMain.cs:96-97 | GetSceneByName: the first open scene with the name; invalid iff none has it |
| ARSwitch.AllRootsActive | Assets/Scripts/SwitchARtoMain.cs:103-106 | every root gets the flag, nothing else changes |
| ARSwitch.SetRootsActive | Assets/Scripts/SwitchARtoMain.cs:94-107 | an invalid scene changes nothing; otherwise every root of the scene gets the flag and other scenes are untouched |
| ARSwitch.ShowUndoesHide | Assets/Scripts/SwitchARtoMain.cs:79-107 | showing after hiding is showing; hiding twice is hiding once |
| ARSwitch.FindSceneByNames | Assets/Scripts/SwitchARtoMain.cs:96-97 | the lookup depends only on the scenes' names |
| ARSwitch.FirstOrigin | Assets/Scripts/SwitchARtoMain.cs:157-161 | no roots keep the previous origin; otherwise the first root's origin that exists, none iff no root has one |
| ARSwitch.FinalizeSetup | Assets/Scripts/SwitchARtoMain.cs:152-178 | throws iff the AR scene is not open; otherwise true iff the first origin has a camera, storing that origin and its camera |
| ARSwitch.Cleanup | Assets/Scripts/SwitchARtoMain.cs:109-122 | a live session is reset, stopped and deinitialised in that order; otherwise nothing changes |
| ARSwitch.InitSubsystems | Assets/Scripts/SwitchARtoMain.cs:132-150 | as written, the loader initialisation never runs: the loader stays as it was and the subsystems start iff it was already active; running iff active |
| ARSwitch.InitSubsystemsYielded | Assets/SceneSwitchingLogic/SceneSwitch.cs:144 | with the initialisation yielded: initialise, then start only when a loader is active; running iff active |
| ARSwitch.LoadPrepared | Assets/Scripts/SwitchARtoMain.cs:63-67 | session cleanup, the additive load appended to the log, the home scene's roots hidden |
| ARSwitch.LoadFinished | Assets/Scripts/SwitchARtoMain.cs:74-76 | FinalizeARSetup stores the first origin and the loaded event follows; an absent AR scene throws and skips the event |
| ARSwitch.LoadFinishes | Assets/Scripts/SwitchARtoMain.cs:63-74 | the AR scene just loaded is found again, so FinalizeARSetup never throws inside the routine |
| ARSwitch.LoadRoutine | Assets/Scripts/SwitchARtoMain.cs:61-77 | as written: AR scene appended; loader active iff one was active and no live session was torn down; the loaded event comes last even with no loader |
| ARSwitch.LoadRoutineYielded | Assets/Scripts/SwitchARtoMain.cs:61-77 | corrected: loader active iff it came up or an untouched one was active; the loaded event comes last |
| ARSwitch.LoadRoutineCalls | Assets/Scripts/SwitchARtoMain.cs:61-77 | the exact call order as written: cleanup only for a live session, load, start only with a loader, event |
| ARSwitch.LoadRoutineYieldedCalls | Assets/Scripts/SwitchARtoMain.cs:61-77 | the corrected call order: cleanup only for a live session, load, initialise, start only with a loader, event |
| ARSwitch.AsWrittenNeverStartsWithoutLoader | Assets/Scripts/SwitchARtoMain.cs:132-150 | as written, from no loader the routine ends with no loader, starts no subsystem, and still raises the loaded event last |
| ARSwitch.YieldedStartsIffLoaderCameUp | Assets/Scripts/SwitchARtoMain.cs:132-150 | corrected, from no loader the subsystems run and are started iff the loader comes up |
| ARSwitch.AsWrittenNeverRestartsAfterReturn | Assets/Scripts/SwitchARtoMain.cs:48-58 | as written, LoadARScene after ReturnToHome leaves no loader and starts no subsystem |
| ARSwitch.YieldedLoadRestartsAfterReturn | Assets/Scripts/SwitchARtoMain.cs:48-58 | corrected, LoadARScene after ReturnToHome brings AR back iff the loader comes up |
| ARSwitch.LoadRoutineFinalizes | Assets/Scripts/SwitchARtoMain.cs:61-77 | within the routine FinalizeARSetup never throws, the origin is the first one found, and the home roots are hidden |
| ARSwitch.FreshLoadUsesLoadedRoots | Assets/Scripts/SwitchARtoMain.cs:152-178 | with no AR scene open before, the origin comes from the roots just loaded; none iff no root holds one |
| ARSwitch.UnloadRoutine | Assets/Scripts/SwitchARtoMain.cs:182-211 | stop, deinitialise, single-load home, clear origin and camera, raise the unloaded event, in that order |
| ARSwitch.LoadIfValid | Assets/Scripts/SwitchARtoMain.cs:48-52 | LoadARScene does nothing unless the AR scene name is valid |
| ARSwitch.ReturnIfValid | Assets/Scripts/SwitchARtoMain.cs:54-58 | ReturnToHome does nothing unless the home scene name is valid |
| ARSwitch.RoundTripEndsClean | Assets/Scripts/SwitchARtoMain.cs:48-58 | load then return ends with no loader, only home open and no stale origin |
| ARSwitch.FirstWins | Assets/Scripts/SwitchARtoMain.cs:36-46 | a later instance destroys itself and leaves Instance; otherwise this object registers and persists |
| ARSwitch.FirstAwakenedStays | Assets/Scripts/SwitchARtoMain.cs:36-46 | once registered, the instance stays and every later different object is destroyed |
| ARSwitch.FirstWinsFromEmpty | Assets/Scripts/SwitchARtoMain.cs:36-46 | from no instance the first awakening object becomes Instance and persists; all others are destroyed |
| ARSwitch.PersistentGrows | Assets/Scripts/SwitchARtoMain.cs:36-46 | awakenings never unmark a persistent object |
| ARSwitch.SwitchARtoMain.LoadARScene | Assets/Scripts/SwitchARtoMain.cs:48-52 | the fields end as LoadIfValid gives; with a valid name the duplicate listeners and event systems are disabled |
| ARSwitch.SwitchARtoMain.ReturnToHome | Assets/Scripts/SwitchARtoMain.cs:54-58 | the fields end as ReturnIfValid gives |
| ARSwitch.SwitchARtoMain.LoadARSceneRoutine | Assets/Scripts/SwitchARtoMain.cs:61-77 | the fields end as LoadRoutine (as written) gives and both lookup arrays end as KeepFirst |
| ARSwitch.SwitchARtoMain.CleanupExistingAR | Assets/Scripts/SwitchARtoMain.cs:109-122 | the fields end as Cleanup gives |
| ARSwitch.SwitchARtoMain.InitializeARSubsystems | Assets/Scripts/SwitchARtoMain.cs:132-150 | the fields end as InitSubsystems gives: the discarded initialisation changes nothing |
| ARSwitch.SwitchARtoMain.ShowSceneRootObjects | Assets/Scripts/SwitchARtoMain.cs:79-92 | the scenes end as SetRootsActive(true) gives |
| ARSwitch.SwitchARtoMain.HideSceneRootObjects | Assets/Scripts/SwitchARtoMain.cs:94-107 | the scenes end as SetRootsActive(false) gives |
| ARSwitch.SwitchARtoMain.SetSceneRootsActive | Assets/Scripts/SwitchARtoMain.cs:79-107 | the loop over the roots leaves SetRootsActive of the scenes |
| ARSwitch.SwitchARtoMain.FinalizeARSetup | Assets/Scripts/SwitchARtoMain.cs:152-178 | the root loop with its early exit returns and stores what FinalizeSetup gives |
| ARSwitch.SwitchARtoMain.UnloadARSceneRoutine | Assets/Scripts/SwitchARtoMain.cs:182-202 | the fields end as UnloadRoutine gives |
| ARSwitch.SwitchARtoMain.CleanMemory | Assets/Scripts/SwitchARtoMain.cs:205-211 | origin and camera references are cleared |
| ARSwitch.SwitchRegistry.InitializeSingleton | Assets/Scripts/SwitchARtoMain.cs:36-46 | the registry ends as FirstWins gives |
| SceneSwitching.Bound | Assets/SceneSwitchingLogic/SceneSwitch.cs:70-84 | a mapped button ends with exactly its mapped listener; other buttons are untouched |
| SceneSwitching.BindIdempotent | Assets/SceneSwitchingLogic/SceneSwitch.cs:70-84 | binding twice is binding once |
| SceneSwitching.BoundButtonHasOneListener | Assets/SceneSwitchingLogic/SceneSwitch.cs:76-80 | a mapped button has one listener, the mapped action |
| SceneSwitching.First | Assets/SceneSwitchingLogic/SceneSwitch.cs:113-122 | the first object in lookup order satisfying the test, none iff no object does |
| SceneSwitching.Reactivated | Assets/SceneSwitchingLogic/SceneSwitch.cs:124-137 | the origin is activated and its session, camera manager and camera enabled where present |
| SceneSwitching.Rebound | Assets/SceneSwitchingLogic/SceneSwitch.cs:51-58 | only an additive load rebinds, and only the loaded scene |
| SceneSwitching.LoadAdditive | Assets/SceneSwitchingLogic/SceneSwitch.cs:213-218 | the scene is appended, bound when subscribed, and the load logged; nothing else in the world changes |
| SceneSwitching.Prepared | Assets/SceneSwitchingLogic/SceneSwitch.cs:18-46 | the active scene is bound; previousScene is recorded only outside the AR scene; the camera's listener is silenced only in the main menu; the objects and the XR state are untouched |
| SceneSwitching.Started | Assets/SceneSwitchingLogic/SceneSwitch.cs:18-49 | Start then loads ARMode, AboutUS and TechStuff additively, in that order, each bound; everything else stays as the first half left it |
| SceneSwitching.StartBindsEverything | Assets/SceneSwitchingLogic/SceneSwitch.cs:18-58 | after Start every button of the active and the three loaded scenes is bound |
| SceneSwitching.IsOpen | Assets/SceneSwitchingLogic/SceneSwitch.cs:156-164 | true iff some open scene has the name |
| SceneSwitching.CountNamed | Assets/SceneSwitchingLogic/SceneSwitch.cs:156-176 | the number of open scenes with the name, zero iff none is open |
| SceneSwitching.ReuseOrigin | Assets/SceneSwitchingLogic/SceneSwitch.cs:113-137 | the first tagged origin without hide flags is reactivated; none found changes nothing |
| SceneSwitching.DeactivateOrigin | Assets/SceneSwitchingLogic/SceneSwitch.cs:190-194 | the first active tagged origin is deactivated; no origin becomes active |
| SceneSwitching.ARRoutine | Assets/SceneSwitchingLogic/SceneSwitch.cs:109-179 | the first reusable origin is reactivated; loader failure starts nothing and loads nothing; otherwise the subsystems are started and logged, and the AR scene is loaded additively (and bound when subscribed) only if it was not open, so it is open exactly once more or as before; the active scene, camera listener, previous scene and subscription are untouched |
| SceneSwitching.CountNamedAppend | Assets/SceneSwitchingLogic/SceneSwitch.cs:166-176 | an additive load adds one to the count iff the loaded scene has the name |
| SceneSwitching.ARRoutineNeverLoadsTwice | Assets/SceneSwitchingLogic/SceneSwitch.cs:156-176 | repeating the routine never opens a second AR scene |
| SceneSwitching.PreviousRoutine | Assets/SceneSwitchingLogic/SceneSwitch.cs:181-206 | stop and deinitialise, deactivate the first active origin, reset a found session, then single-load "MainMenuScene"; nothing is loaded and no loader remains; the camera listener, previous scene and subscription are untouched |
| SceneSwitching.PreviousRoutineIgnoresField | Assets/SceneSwitchingLogic/SceneSwitch.cs:183-205 | the return path loads the literal "MainMenuScene" whatever the field holds, with nothing running |
| SceneSwitching.SceneSwitch.Start | Assets/SceneSwitchingLogic/SceneSwitch.cs:18-49 | the fields end as Started gives |
| SceneSwitching.SceneSwitch.constructor | Assets/SceneSwitchingLogic/SceneSwitch.cs:12-16 | the fields start as given, with the serialized scene names |
| SceneSwitching.SceneSwitch.LoadSceneAdditive | Assets/SceneSwitchingLogic/SceneSwitch.cs:213-218 | the fields end as LoadAdditive gives |
| SceneSwitching.SceneSwitch.OnSceneLoaded | Assets/SceneSwitchingLogic/SceneSwitch.cs:51-58 | the fields end as Rebound gives |
| SceneSwitching.SceneSwitch.BindButtonsInScene | Assets/SceneSwitchingLogic/SceneSwitch.cs:70-84 | the loop over the buttons leaves Bound of them |
| SceneSwitching.SceneSwitch.RemoveExtraAudioListeners | Assets/SceneSwitchingLogic/SceneSwitch.cs:96-107 | the listeners end as KeepFirst, untouched when at most one exists |
| SceneSwitching.SceneSwitch.LoadARModeRoutine | Assets/SceneSwitchingLogic/SceneSwitch.cs:109-179 | the fields end as ARRoutine gives; listeners are deduplicated only after a successful start |
| SceneSwitching.SceneSwitch.ReuseExistingOrigin | Assets/SceneSwitchingLogic/SceneSwitch.cs:113-137 | the fields end as ReuseOrigin gives |
| SceneSwitching.SceneSwitch.DeactivateActiveOrigin | Assets/SceneSwitchingLogic/SceneSwitch.cs:190-194 | the fields end as DeactivateOrigin gives |
| SceneSwitching.SceneSwitch.LoadPreviousSceneRoutine | Assets/SceneSwitchingLogic/SceneSwitch.cs:181-206 | the fields end as PreviousRoutine gives and the listeners as KeepFirst |
| SceneManagement.IsSceneLoaded | Assets/Scripts/SceneManaging.cs:61-72 | true iff some open scene has the name and is loaded |
| SceneManagement.FindScene | Assets/Scripts/SceneManaging.cs:99-100 | GetSceneByName: the first open scene with the name; invalid iff none |
| SceneManagement.Deactivated | Assets/Scripts/SceneManaging.cs:127-146 | every camera disabled, every canvas and event system inactive, nothing else changed |
| SceneManagement.Activated | Assets/Scripts/SceneManaging.cs:148-178 | every camera enabled and tagged MainCamera, every canvas active at sorting order 0, every event system active |
| SceneManagement.AllDeactivatedExcept | Assets/Scripts/SceneManaging.cs:115-125 | every scene with another name is deactivated, the kept ones untouched |
| SceneManagement.WithActiveScene | Assets/Scripts/SceneManaging.cs:97-113 | an invalid or unloaded scene changes nothing; otherwise others deactivated, it activated, active and current set to it |
| SceneManagement.DeactivatedIdempotent | Assets/Scripts/SceneManaging.cs:127-146 | deactivating twice is deactivating once |
| SceneManagement.ActivatedIdempotent | Assets/Scripts/SceneManaging.cs:148-178 | activating twice is activating once |
| SceneManagement.FindSceneByNames | Assets/Scripts/SceneManaging.cs:99-100 | the lookup depends only on names |
| SceneManagement.SetActiveSceneIdempotent | Assets/Scripts/SceneManaging.cs:97-113 | SetActiveScene is idempotent |
| SceneManagement.NewScene | Assets/Scripts/SceneManaging.cs:76-84 | the loaded scene has a fresh handle, the name and is loaded |
| SceneManagement.LoadAndActivate | Assets/Scripts/SceneManaging.cs:74-95 | the scene is appended with a fresh handle, loaded, and the additive load logged, then SetActiveScene runs by the name: for a name not open before the new scene becomes active and current with its elements on and every other scene is switched off; an earlier loaded scene of the name is activated instead, and an earlier unfinished one leaves only the load |
| SceneManagement.SceneChanged | Assets/Scripts/SceneManaging.cs:41-59 | "ARMode" is single-loaded touching no element; a loaded scene is activated at once; otherwise loaded then activated |
| SceneManagement.ChangeSceneActivates | Assets/Scripts/SceneManaging.cs:41-95 | changing to a menu scene, with no unfinished scene of that name open, ends with a scene of that name active and its elements switched on, whether or not it was open before |
| SceneManagement.WithSceneListeners | Assets/Scripts/SceneManaging.cs:25-34 | a mapped button gets one more listener, a change to its mapped scene; others untouched |
| SceneManagement.MappedListenersTargetScenes | Assets/Scripts/SceneManaging.cs:12-34 | the listener Start adds to a mapped button changes to a scene the mapping names; a Back button's returns to the main menu |
| SceneManagement.SceneManaging.Start | Assets/Scripts/SceneManaging.cs:23-39 | the loop over the buttons leaves WithSceneListeners of them |
| SceneManagement.SceneManaging.ChangeScene | Assets/Scripts/SceneManaging.cs:41-59 | the fields end as SceneChanged gives |
| SceneManagement.SceneManaging.LoadAndActivateScene | Assets/Scripts/SceneManaging.cs:74-95 | the fields end as LoadAndActivate gives |
| SceneManagement.SceneManaging.SetActiveScene | Assets/Scripts/SceneManaging.cs:97-113 | the fields end as WithActiveScene gives |
| SceneManagement.SceneManaging.DeactivateAllScenesExcept | Assets/Scripts/SceneManaging.cs:115-125 | the loop leaves AllDeactivatedExcept of the scenes |
| SceneManagement.SceneManaging.DeactivateSceneElements | Assets/Scripts/SceneManaging.cs:127-146 | the three loops leave Deactivated of the scene |
| SceneManagement.SceneManaging.ActivateSceneElements | Assets/Scripts/SceneManaging.cs:148-178 | the three loops leave Activated of the scene |
| SwitcherTest.Started | Assets/SceneSwitchingLogic/SceneSwitcherTest.cs:12-25 | the camera's listener is disabled only when the active scene is the main menu |
| SwitcherTest.ARRoutine | Assets/SceneSwitchingLogic/SceneSwitcherTest.cs:54-76 | a failed loader initialisation changes only the loader state and logs the attempt; otherwise running and the AR scene single-loaded |
| SwitcherTest.ARRoutineOrder | Assets/SceneSwitchingLogic/SceneSwitcherTest.cs:57-70 | failure starts nothing and loads nothing; success starts the subsystems before loading the AR scene |
| SwitcherTest.Spawned | Assets/SceneSwitchingLogic/SceneSwitcherTest.cs:81 | every active object tagged SpawnedPrefab is found, and only those |
| SwitcherTest.Destroys | Assets/SceneSwitchingLogic/SceneSwitcherTest.cs:82-85 | one Destroy per found object, in order |
| SwitcherTest.MenuRoutine | Assets/SceneSwitchingLogic/SceneSwitcherTest.cs:78-99 | the destroys, then stop, deinitialise and single-load the menu; no loader afterwards |
| SwitcherTest.MenuRoutineOrder | Assets/SceneSwitchingLogic/SceneSwitcherTest.cs:81-93 | every spawned object is destroyed before the subsystems stop, then deinitialise, then load the menu |
| SwitcherTest.IndexAfterDestroys | Assets/SceneSwitchingLogic/SceneSwitcherTest.cs:82-88 | the first non-destroy call comes after all the destroys |
| SwitcherTest.SceneSwitcherTest.Start | Assets/SceneSwitchingLogic/SceneSwitcherTest.cs:12-25 | the fields end as Started gives |
| SwitcherTest.SceneSwitcherTest.RemoveExtraAudioListeners | Assets/SceneSwitchingLogic/SceneSwitcherTest.cs:40-51 | the listeners end as KeepFirst, untouched when at most one exists |
| SwitcherTest.SceneSwitcherTest.LoadARModeRoutine | Assets/SceneSwitchingLogic/SceneSwitcherTest.cs:54-76 | the fields end as ARRoutine gives; listeners are deduplicated only after a successful start and only when the component survives the Single load |
| SwitcherTest.SceneSwitcherTest.LoadMainMenuRoutine | Assets/SceneSwitchingLogic/SceneSwitcherTest.cs:78-99 | the destroy loop and teardown leave MenuRoutine's state; the listeners end as KeepFirst when the component survives the Single load, untouched otherwise |
| XROriginSingleton.NewestWins | Assets/SceneSwitchingLogic/SingletonXROrigin.cs:7-25 | the awakening object becomes the instance and persists; a different previous instance is destroyed, and nothing is destroyed otherwise |
| XROriginSingleton.RepeatedAwakeIsNoOp | Assets/SceneSwitchingLogic/SingletonXROrigin.cs:19-24 | a repeated Awake on the same object changes nothing |
| XROriginSingleton.NewestWinsAll | Assets/SceneSwitchingLogic/SingletonXROrigin.cs:7-25 | after distinct origins awaken, the last is the instance, every earlier one is destroyed, all were marked persistent |
| XROriginSingleton.PersistentStays | Assets/SceneSwitchingLogic/SingletonXROrigin.cs:24 | awakenings never unmark a persistent object |
| XROriginSingleton.SingletonXROrigin.Awake | Assets/SceneSwitchingLogic/SingletonXROrigin.cs:7-25 | the fields end as NewestWins gives |
| XROriginSingleton.SingletonXROrigin.constructor | Assets/SceneSwitchingLogic/SingletonXROrigin.cs:5 | the static instance starts empty, nothing persistent or destroyed |
| AuthPanels.Sectioned | Assets/Scripts/AuthManager.cs:40-52 | an index outside the panels changes nothing; otherwise that panel is active and every other inactive |
| AuthPanels.ExactlyOneActive | Assets/Scripts/AuthManager.cs:48-51 | with a valid index exactly one panel is active |
| AuthPanels.SectionedIdempotent | Assets/Scripts/AuthManager.cs:40-52 | selecting a section twice is selecting it once |
| AuthPanels.SectionOf | Assets/Scripts/AuthManager.cs:23-38 | sign-up selects section 1, log-in section 0, the Firebase buttons none |
| AuthPanels.ButtonsShowTheirPanel | Assets/Scripts/AuthManager.cs:26-34 | sign-up shows only panel 1, log-in only panel 0, and log-in after sign-up is log-in |
| AuthPanels.AuthManager.SetActiveSection | Assets/Scripts/AuthManager.cs:40-52 | the bounds check and the loop leave Sectioned of the panels |
| AuthPanels.AuthManager.OnClick | Assets/Scripts/AuthManager.cs:26-37 | a button press leaves the panels as its section selects |
| Quiz.JWSTQuestion | Assets/Scripts/QuizManager.cs:156-165 | each JWST question's correct index points at one of its options |
| Quiz.PerseveranceRoverQuestion | Assets/Scripts/QuizManager.cs:170-179 | each Perseverance question's correct index points at one of its options |
| Quiz.TurbofanEngineQuestion | Assets/Scripts/QuizManager.cs:184-193 | each turbofan question's correct index points at one of its options, including the two-option one |
| Quiz.StarlinkQuestion | Assets/Scripts/QuizManager.cs:198-207 | each Starlink question's correct index points at one of its options |
| Quiz.Bank | Assets/Scripts/QuizManager.cs:151-207 | a topic has ten well-formed questions |
| Quiz.TopicOf | Assets/Scripts/QuizManager.cs:151-207 | a key names a topic iff it is one of the four keys |
| Quiz.GetBank | Assets/Scripts/QuizManager.cs:149-210 | ten well-formed questions for each of the four keys, none for any other key |
| Quiz.TensorWidth | Assets/Scripts/QuizManager.cs:51 | shape[1] when the rank is above 1, shape[0] for rank 1; a rank-0 shape throws |
| Quiz.KeyIndex | Assets/Scripts/QuizManager.cs:112-113 | Array.IndexOf over the four keys: the key's position, -1 iff absent |
| Quiz.OneHot | Assets/Scripts/QuizManager.cs:110-114 | throws on a negative width or a known key past the end; otherwise a 1 exactly at the key's position, 0 elsewhere, all zeros for an unknown key |
| Quiz.Insert | Assets/Scripts/QuizManager.cs:129-130 | inserting an index adds exactly that index |
| Quiz.InsertOrdered | Assets/Scripts/QuizManager.cs:129-130 | inserting keeps the ranking order: higher score first, ties by position |
| Quiz.RankPrefix | Assets/Scripts/QuizManager.cs:129-130 | the first n indices, each once, in ranking order |
| Quiz.RankOrder | Assets/Scripts/QuizManager.cs:129-130 | OrderByDescending: a permutation of all score indices, higher scores first, equal scores in index order |
| Quiz.Below | Assets/Scripts/QuizManager.cs:132-133 | keeps exactly the positions inside the bank, in order |
| Quiz.BelowOrdered | Assets/Scripts/QuizManager.cs:132-133 | dropping positions keeps the ranking order |
| Quiz.TopRanked | Assets/Scripts/QuizManager.cs:129-134 | exactly the bank positions among the ten best-ranked scores, in ranking order, each outranking every bank position left out |
| Quiz.TopOutranksRest | Assets/Scripts/QuizManager.cs:129-134 | every chosen index outranks every unchosen bank index |
| Quiz.Unused | Assets/Scripts/QuizManager.cs:139-140 | exactly the bank positions not chosen yet, each once |
| Quiz.UnusedCount | Assets/Scripts/QuizManager.cs:139-140 | the unused positions and the chosen ones below m add up to m |
| Quiz.DistinctCard | Assets/Scripts/QuizManager.cs:139-140 | a sequence without repeats has as many elements as positions |
| Quiz.UnusedLeft | Assets/Scripts/QuizManager.cs:137-144 | with distinct chosen positions inside the bank, bankSize minus their number remain |
| Quiz.Shuffled | Assets/Scripts/QuizManager.cs:141 | OrderBy(Guid): a reordering with the same elements, repeat-free when the input is |
| Quiz.ShuffledFacts | Assets/Scripts/QuizManager.cs:141 | a reordering by a permutation keeps the elements and their distinctness |
| Quiz.DistinctJoin | Assets/Scripts/QuizManager.cs:143 | appending new, distinct positions keeps the list repeat-free |
| Quiz.TakenIsUnused | Assets/Scripts/QuizManager.cs:141-142 | the fill's positions are new, distinct and inside the bank |
| Quiz.Filled | Assets/Scripts/QuizManager.cs:137-144 | the ranked part kept in front, topped up with unused positions to min(10, bank size), no repeats |
| Quiz.PickRanked | Assets/Scripts/QuizManager.cs:108-147 | min(10, bank size) distinct bank positions, the ranked part first |
| Quiz.PickRandom | Assets/Scripts/QuizManager.cs:83 | without a model: min(10, bank size) distinct bank positions |
| Quiz.Scores | Assets/Scripts/QuizManager.cs:119-128 | the score row has outputCols entries, column i at position i |
| Quiz.ModelPick | Assets/Scripts/QuizManager.cs:108-147 | throws iff the input row cannot be built or outputCols is negative; otherwise the ranked pick |
| Quiz.Select | Assets/Scripts/QuizManager.cs:133 | the bank questions at the picked positions, in order |
| Quiz.SelectKeepsBankProperties | Assets/Scripts/QuizManager.cs:133 | every picked question is a well-formed bank question |
| Quiz.Awoken | Assets/Scripts/QuizManager.cs:39-60 | defaults 4 and 0 without a model; with one, the sizes come from the shapes, and a rank-0 shape throws before the bank is fetched |
| Quiz.Picked | Assets/Scripts/QuizManager.cs:72-84 | throws iff the model path throws; otherwise min(10, bank size) distinct bank positions |
| Quiz.Clicked | Assets/Scripts/QuizManager.cs:72-84 | the bank is fetched afresh; the quiz is replaced unless picking throws |
| Quiz.ClickStartsQuiz | Assets/Scripts/QuizManager.cs:72-84 | a click that does not throw starts ten well-formed bank questions for a known key, none for an unknown one |
| Quiz.Answer | Assets/Scripts/QuizManager.cs:99-106 | nothing without a quiz or with a question index outside it; otherwise correct iff the option is the correct index |
| Quiz.OneRightOptionEach | Assets/Scripts/QuizManager.cs:99-106 | in a started quiz every question has exactly one option, among its own, that is answered as correct |
| Quiz.QuizManager.constructor | Assets/Scripts/QuizManager.cs:39-60 | the fields start as Awoken gives |
| Quiz.QuizManager.OnQuizButtonClicked | Assets/Scripts/QuizManager.cs:72-84 | the fields end as Clicked gives |
| Quiz.QuizManager.BuildInput | Assets/Scripts/QuizManager.cs:110-114 | the input written in place into a fresh array is OneHot |
| Quiz.QuizManager.PickWithTFLite | Assets/Scripts/QuizManager.cs:108-147 | the score loop and the pick give ModelPick |
| Quiz.QuizManager.OnOptionSelected | Assets/Scripts/QuizManager.cs:99-106 | the verdict is Answer of the current quiz |

## Left out

- **Engine calls.** Rendering, physics, the raycast, the TFLite interpreter and `Debug.Log` output are not modelled. Their results are parameters: a hit or none, a score per column, whether the loader comes up, what a loaded scene contains.
- **Asynchrony and timing.**
  - Each coroutine is modelled as one atomic step.
  - Interleavings of two routines running at once are not modelled. The source has no guard against a second transition starting while one is running.
  - Frame waits, `WaitForSeconds` and `WaitUntil` are not modelled.
  - In `SceneManaging.LoadAndActivateScene` the wait for the scene to become valid can spin forever. That has the same effect on the world as `SetActiveScene`'s no-op path.
- **Lookup results.** The contents and order of `FindObjectsOfType`, `FindGameObjectsWithTag`, `FindWithTag` and `Resources.FindObjectsOfTypeAll` results are inputs. The engine's exclusion of inactive or hidden objects is modelled only where it is a flag on the object.
- **Destroy timing.** `Destroy` is deferred to the end of the frame in Unity; the model destroys at once. Objects destroyed by a Single scene load are not tracked.
- **Geometry.** Floating-point geometry (positions, rotations, distances, angles) is stored as opaque values and never computed with. The rotation part of the two-finger gesture is not modelled. Scale arithmetic is modelled separately on real numbers in `ScaleGesture`.
- **Quiz scores.** Model scores are reals. NaN ordering and the float-to-double details are not modelled. The score oracle stands for whatever the interpreter returns for the input.
- **Quiz shuffles.** The Guid shuffle is a sort by an arbitrary key per candidate. Any permutation can be produced this way.
- **Quiz exceptions.** A mismatch between the interpreter's tensor sizes and the arrays passed to it is not modelled.
- **Listener removal.** `UnityEvent.RemoveAllListeners` removes listeners added at run time only. Listeners set in the editor (persistent listeners) are not modelled.
- **Paths.** Path handling treats '/' as the only directory separator.
- **Scene names.** Serialized scene names are fixed at their default values, e.g. "MainMenuScene" and "ARMode" in `SceneSwitcherTest`.
- **Files not modelled.** These files are not part of this model:
  - `SceneManaging.RestartARSession`;
  - `CleanMemory`'s `Resources.UnloadUnusedAssets` and garbage collection;
  - `VoiceTranslatorManager`, `FirebaseManager` (the log-in and sign-up buttons call into it);
  - `MainMenuController`, `ARSceneController`, `ARSessionCleanup`, `ARSessionManage`, `SimpleSceneSwitcher` and `TestARLoader`.
- **Null references.** Null references to serialized fields are not modelled. The code would throw a NullReferenceException on them. The one exception is `PlaceOnIndicator`'s placement indicator, which the tag lookup in `ReassignReferencesAfterSceneLoad` loses when it is hidden; that case is modelled as the `lost` flag.
- Reassigned: a second scene load that brings a new active indicator is not modelled; the component runs the reassignment once, from Start.
- DropdownWrite: `TMP_Dropdown` is not part of this model. Its value setter is taken to return at once when the value is the current one or the dropdown has no options, and otherwise to clamp the value to the option range, store it and pass the stored value to the change callback.
- ToggleChanged: `ToggleSwitch` is not part of this model. Its `CurrentValue` is taken to follow the value reported to `SetAugmentToggleState`, the switch's change callback; the slider write at PlaceOnIndicator.cs:223 is that value shown. Place reads the recorded value.
- LoadARModeRoutine: the Single load at SceneSwitcherTest.cs:69 unloads the component's own scene, so its coroutine normally ends there. The listener clean-up after it runs only when the caller says the component survives.
- LoadMainMenuRoutine: the same holds for the Single load at SceneSwitcherTest.cs:92 and the clean-up after it.
- TickAsWritten: the scale is a real or non-finite; which of infinity and NaN a zero division gives is not distinguished.
- TickCorrected: the same; a non-finite scale stays non-finite, and a later gesture's start from a non-finite object scale is not modelled (`Begin` takes a real).
- **Lean Touch.** `PlaceOnIndicator`'s toggling of Lean Touch components on the spawned object is not modelled.
- **Coroutine wrappers.** The one-line public handlers that only start a coroutine are not separate members. These are `LoadARMode` and `LoadPreviousScene` in `SceneSwitch`, and `LoadARMode` and `LoadMainMenu` in `SceneSwitcherTest`. The coroutine each starts is modelled. `SceneSwitch.LoadAboutScene` and `LoadTechStuff` are `LoadSceneAdditive` with their fixed names.
- **Listener registration.** Event subscription on enable, disable and destroy is not modelled:
  - `QuizManager.OnEnable` and `OnDisable`;
  - `SceneSwitch.OnDestroy`'s removal of the sceneLoaded subscription;
  - the `onQuizStarted` event.
- **Start-time checks.** `AuthManager.Start`'s checks only log. The Firebase login and sign-up callbacks are calls into `FirebaseManager`.
- **Quiz identity.** Questions are compared by reference in the fill step of `PickWithTFLite`. The model uses bank positions as that identity.
- **Where the code differs from the written design.** The model follows the code.
  - **No Failed state.** There is no Failed session phase. With no active loader, `SwitchARtoMain` still finalises and raises its loaded event.
  - **No transition guard.** There is no rejection of a transition that is already in progress.
  - **At most one listener, not exactly one.** The duplicate rule leaves at most one enabled listener or event system, not exactly one. When the first element is disabled, none is enabled (`Engine.KeepFirstLeavesAtMostOne`).
  - **Origin kept on an empty AR scene.** `FinalizeARSetup` keeps the previous origin when the AR scene has no roots.
  - **Session cleanup test.** The cleanup runs when an `ARSession` exists with a state other than None. It does not check whether tracking is running.
  - **Scale gesture.** Scaling is not incremental; see Findings.
  - **AR loader after a return.** `SwitchARtoMain` never iterates its loader initialisation, so AR does not come back after a teardown; see Findings. The component is modelled as written.

## Findings

| source | as written | input that shows it | evidently intended | confidence | as-written member | corrected member |
|---|---|---|---|---|---|---|
| Assets/Scripts/PlacementManager.cs:179-196 | each scaling tick sets the scale to `initialScale * currentDistance / initialDistance`, then overwrites `initialDistance` with the current distance but keeps `initialScale` from the gesture start, so only the last tick's ratio reaches the object | from scale 1, finger distances 100 at the start, then 150, then 120: the object ends at scale 0.8 | the scale follows the pinch cumulatively: 120 / 100 gives 1.2, the scale stays proportional to the finger distance | high, not executed | ScaleGesture.AsWrittenLosesEarlierTicks | ScaleGesture.CorrectedIsProportional |
| Assets/Scripts/SwitchARtoMain.cs:136-137 | `InitializeARSubsystems` calls `InitializeLoader()` as a plain statement and then yields null; the call returns an enumerator that nothing iterates, so the loader is never initialised there, unlike the yielded calls at SceneSwitch.cs:144 and SceneSwitcherTest.cs:57 | `ReturnToHome` (the loader is deinitialised), then `LoadARScene` on a device whose loader would come up: no loader is active, "Failed to initialize XR Loader." is logged, no subsystem starts, yet the AR scene opens and the loaded event fires | `yield return XRGeneralSettings.Instance.Manager.InitializeLoader();`, after which AR comes back iff the loader comes up | high, not executed | ARSwitch.AsWrittenNeverRestartsAfterReturn | ARSwitch.YieldedLoadRestartsAfterReturn |
