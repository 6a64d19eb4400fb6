/** SceneSwitcherTest: a simpler switcher between the main menu and the AR
    mode scene, both loaded in Single mode. */
module SwitcherTest {
  import opened Engine

  /** The serialized scene names, at their defaults. */
  const MainMenuScene := "MainMenuScene"
  const ARModeScene := "ARMode"
  const SpawnedPrefabTag := "SpawnedPrefab"

  /** A game object as FindGameObjectsWithTag sees it. */
  datatype Tagged = Tagged(id: ObjId, tag: string, active: bool)

  datatype World = World(
    activeScene: string,           // SceneManager.GetActiveScene().name
    cameraListener: Option<bool>,  // the MainCamera-tagged object's AudioListener.enabled, if both exist
    xr: XRManager,
    log: seq<Call>)

  /** Start: the camera's listener is silenced only in the main menu. */
  function Started(w: World): (r: World)
    ensures w.activeScene == MainMenuScene && w.cameraListener.Some? ==> r.cameraListener == Some(false)
    ensures w.activeScene != MainMenuScene || w.cameraListener.None? ==> r == w
    ensures r.activeScene == w.activeScene && r.xr == w.xr && r.log == w.log
  {
    if w.activeScene == MainMenuScene && w.cameraListener.Some? then w.(cameraListener := Some(false)) else w
  }

  /** LoadARModeRoutine, up to the listener clean-up: initialise the loader;
      give up when none is active; otherwise start the subsystems and
      single-load the AR scene. */
  function ARRoutine(w: World, cameUp: bool): (r: World)
    ensures r.cameraListener == w.cameraListener
    ensures !LoaderInitialized(w.xr, cameUp).activeLoader ==>
              r == w.(xr := LoaderInitialized(w.xr, cameUp), log := w.log + [InitializeLoader])
    ensures LoaderInitialized(w.xr, cameUp).activeLoader ==>
              r.activeScene == ARModeScene && r.xr.activeLoader && r.xr.running
  {
    var xr := LoaderInitialized(w.xr, cameUp);
    if !xr.activeLoader then
      w.(xr := xr, log := w.log + [InitializeLoader])
    else
      w.(xr := SubsystemsStarted(xr), activeScene := ARModeScene,
         log := w.log + [InitializeLoader, StartSubsystems, LoadScene(ARModeScene, Single)])
  }

  /** A failed loader initialisation starts nothing and loads nothing; a
      successful one starts the subsystems before the AR scene is loaded. */
  lemma ARRoutineOrder(w: World, cameUp: bool)
    ensures var r := ARRoutine(w, cameUp);
            var calls := r.log[|w.log|..];
            |r.log| >= |w.log| && r.log[..|w.log|] == w.log &&
            (!LoaderInitialized(w.xr, cameUp).activeLoader ==>
               StartSubsystems !in calls && forall c :: c in calls ==> !c.LoadScene?) &&
            (LoaderInitialized(w.xr, cameUp).activeLoader ==>
               IndexOfCall(calls, StartSubsystems) < IndexOfCall(calls, LoadScene(ARModeScene, Single)) < |calls|)
  {
    var r := ARRoutine(w, cameUp);
    var calls := r.log[|w.log|..];
    if LoaderInitialized(w.xr, cameUp).activeLoader {
      assert calls == [InitializeLoader, StartSubsystems, LoadScene(ARModeScene, Single)];
      assert IndexOfCall(calls, StartSubsystems) == 1 by {
        assert calls[1..] == [StartSubsystems, LoadScene(ARModeScene, Single)];
      }
      assert IndexOfCall(calls, LoadScene(ARModeScene, Single)) == 2 by {
        assert calls[1..][1..] == [LoadScene(ARModeScene, Single)];
        assert IndexOfCall(calls[1..][1..], LoadScene(ARModeScene, Single)) == 0;
        assert IndexOfCall(calls[1..], LoadScene(ARModeScene, Single)) == 1;
      }
    } else {
      assert calls == [InitializeLoader];
    }
  }

  /** The ids FindGameObjectsWithTag("SpawnedPrefab") returns: the active
      objects with that tag, in lookup order. */
  function Spawned(objs: seq<Tagged>): (r: seq<ObjId>)
    ensures |r| <= |objs|
    ensures forall k :: 0 <= k < |objs| && objs[k].active && objs[k].tag == SpawnedPrefabTag ==> objs[k].id in r
    ensures forall id :: id in r ==> exists o :: o in objs && o.active && o.tag == SpawnedPrefabTag && o.id == id
  {
    if |objs| == 0 then []
    else
      var rest := Spawned(objs[1..]);
      assert forall k :: 1 <= k < |objs| ==> objs[k] == objs[1..][k - 1];
      if objs[0].active && objs[0].tag == SpawnedPrefabTag then [objs[0].id] + rest else rest
  }

  /** One Destroy per object, in order. */
  function Destroys(ids: seq<ObjId>): (r: seq<Call>)
    ensures |r| == |ids|
    ensures forall i :: 0 <= i < |r| ==> r[i] == DestroyObject(ids[i])
  {
    seq(|ids|, i requires 0 <= i < |ids| => DestroyObject(ids[i]))
  }

  /** LoadMainMenuRoutine, up to the listener clean-up. */
  function MenuRoutine(w: World, objs: seq<Tagged>): (r: World)
    ensures r.xr == NoLoader && r.activeScene == MainMenuScene && r.cameraListener == w.cameraListener
    ensures r.log == w.log + Destroys(Spawned(objs)) + [StopSubsystems, DeinitializeLoader, LoadScene(MainMenuScene, Single)]
  {
    w.(xr := LoaderDeinitialized(SubsystemsStopped(w.xr)), activeScene := MainMenuScene,
       log := w.log + Destroys(Spawned(objs)) + [StopSubsystems, DeinitializeLoader, LoadScene(MainMenuScene, Single)])
  }

  /** Every spawned object is destroyed, all of it before the subsystems
      stop; then the loader is deinitialised and only then the menu loads. */
  lemma MenuRoutineOrder(w: World, objs: seq<Tagged>)
    ensures var calls := MenuRoutine(w, objs).log[|w.log|..];
            var n := |Spawned(objs)|;
            IndexOfCall(calls, StopSubsystems) == n &&
            (forall k :: 0 <= k < |objs| && objs[k].active && objs[k].tag == SpawnedPrefabTag ==>
               DestroyObject(objs[k].id) in calls[..n]) &&
            calls[n..] == [StopSubsystems, DeinitializeLoader, LoadScene(MainMenuScene, Single)]
  {
    var ids := Spawned(objs);
    var calls := MenuRoutine(w, objs).log[|w.log|..];
    var n := |ids|;
    assert calls == Destroys(ids) + [StopSubsystems, DeinitializeLoader, LoadScene(MainMenuScene, Single)];
    assert calls[..n] == Destroys(ids);
    IndexAfterDestroys(ids, [StopSubsystems, DeinitializeLoader, LoadScene(MainMenuScene, Single)]);
    forall k | 0 <= k < |objs| && objs[k].active && objs[k].tag == SpawnedPrefabTag
      ensures DestroyObject(objs[k].id) in calls[..n]
    {
      var i :| 0 <= i < n && ids[i] == objs[k].id;
      assert calls[..n][i] == DestroyObject(objs[k].id);
    }
  }

  /** A call that is not a Destroy is first found after all the Destroys. */
  lemma {:induction false} IndexAfterDestroys(ids: seq<ObjId>, tail: seq<Call>)
    requires |tail| > 0 && !tail[0].DestroyObject?
    ensures IndexOfCall(Destroys(ids) + tail, tail[0]) == |ids|
    decreases |ids|
  {
    if |ids| > 0 {
      var all := Destroys(ids) + tail;
      assert all[1..] == Destroys(ids[1..]) + tail;
      IndexAfterDestroys(ids[1..], tail);
    } else {
      assert Destroys(ids) + tail == tail;
    }
  }

  class SceneSwitcherTest {
    var activeScene: string
    var cameraListener: Option<bool>
    var xr: XRManager
    var log: seq<Call>

    function Model(): World
      reads this
    {
      World(activeScene, cameraListener, xr, log)
    }

    constructor (w: World)
      ensures Model() == w
    {
      activeScene := w.activeScene;
      cameraListener := w.cameraListener;
      xr := w.xr;
      log := w.log;
    }

    method Start()
      modifies this
      ensures Model() == Started(old(Model()))
    {
      if activeScene == MainMenuScene {
        if cameraListener.Some? {
          cameraListener := Some(false);
        }
      }
    }

    /** Disables every listener after the first, and only when there are
        several. */
    static method RemoveExtraAudioListeners(listeners: array<bool>)
      modifies listeners
      ensures listeners[..] == KeepFirst(old(listeners[..]))
    {
      if listeners.Length > 1 {
        DisableAllButFirst(listeners);
      } else {
        KeepFirstOfAtMostOne(listeners[..]);
      }
    }

    /** `cameUp` is whether InitializeLoader brings a loader up; `listeners`
        the AudioListeners found once the AR scene is loaded. The Single load
        unloads the scene holding this component, which destroys it and ends
        the coroutine, unless the object was made persistent from outside
        (nothing here does so): `survives` says whether the component is
        still alive to run the listener clean-up. */
    method LoadARModeRoutine(cameUp: bool, survives: bool, listeners: array<bool>)
      modifies this, listeners
      ensures Model() == ARRoutine(old(Model()), cameUp)
      ensures LoaderInitialized(old(xr), cameUp).activeLoader && survives ==>
                listeners[..] == KeepFirst(old(listeners[..]))
      ensures !(LoaderInitialized(old(xr), cameUp).activeLoader && survives) ==> listeners[..] == old(listeners[..])
    {
      xr := LoaderInitialized(xr, cameUp);
      log := log + [InitializeLoader];
      if !xr.activeLoader {
        return;
      }
      xr := SubsystemsStarted(xr);
      log := log + [StartSubsystems];
      log := log + [LoadScene(ARModeScene, Single)];
      activeScene := ARModeScene;
      if survives {
        RemoveExtraAudioListeners(listeners);
      }
    }

    /** `objs` is the scene's objects as FindGameObjectsWithTag searches
        them; `listeners` the AudioListeners found once the menu is loaded;
        `survives` whether the component outlives the Single load, as in
        LoadARModeRoutine. */
    method LoadMainMenuRoutine(objs: seq<Tagged>, survives: bool, listeners: array<bool>)
      modifies this, listeners
      ensures Model() == MenuRoutine(old(Model()), objs)
      ensures survives ==> listeners[..] == KeepFirst(old(listeners[..]))
      ensures !survives ==> listeners[..] == old(listeners[..])
    {
      var spawned := Spawned(objs);
      var i := 0;
      while i < |spawned|
        invariant 0 <= i <= |spawned|
        invariant Model() == old(Model()).(log := old(log) + Destroys(spawned[..i]))
        invariant listeners[..] == old(listeners[..])
      {
        log := log + [DestroyObject(spawned[i])];
        i := i + 1;
        assert Destroys(spawned[..i]) == Destroys(spawned[..i - 1]) + [DestroyObject(spawned[i - 1])];
      }
      assert spawned[..i] == spawned;
      xr := SubsystemsStopped(xr);
      log := log + [StopSubsystems];
      xr := LoaderDeinitialized(xr);
      log := log + [DeinitializeLoader];
      log := log + [LoadScene(MainMenuScene, Single)];
      activeScene := MainMenuScene;
      if survives {
        RemoveExtraAudioListeners(listeners);
      }
    }
  }
}
