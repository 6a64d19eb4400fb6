/** SceneManaging: menu scenes are kept loaded side by side; changing scene
    switches off the cameras, canvases and event systems of every other scene
    and switches on those of the chosen one. The AR scene is instead loaded on
    its own. */
module SceneManagement {
  import opened Engine

  const MainCameraTag := "MainCamera"
  const ARModeScene := "ARMode"

  datatype Camera = Camera(enabled: bool, tag: string)
  datatype Canvas = Canvas(active: bool, sortingOrder: int)

  /** An open scene: its handle and name, whether it has finished loading,
      and every Camera, Canvas and EventSystem under its roots (inactive ones
      included), with the flags the component writes. */
  datatype Scene = Scene(
    handle: nat,
    name: string,
    isLoaded: bool,
    cameras: seq<Camera>,
    canvases: seq<Canvas>,
    eventSystems: seq<bool>)

  /** The engine state this component reads and changes, with its own
      `currentActiveScene` (as a scene handle). */
  datatype World = World(
    scenes: seq<Scene>,
    activeScene: nat,       // index of SceneManager's active scene
    currentActiveScene: nat,
    nextHandle: nat,
    log: seq<Call>)

  /** IsSceneLoaded. */
  function IsSceneLoaded(scenes: seq<Scene>, sceneName: string): (r: bool)
    ensures r <==> exists i :: 0 <= i < |scenes| && scenes[i].name == sceneName && scenes[i].isLoaded
    decreases |scenes|
  {
    if |scenes| == 0 then false
    else if scenes[0].name == sceneName && scenes[0].isLoaded then true
    else
      var rest := IsSceneLoaded(scenes[1..], sceneName);
      assert forall i :: 1 <= i < |scenes| ==> scenes[i] == scenes[1..][i - 1];
      rest
  }

  /** SceneManager.GetSceneByName: the first open scene with the name; None
      is the invalid scene. ARSwitch.FindScene is the same engine lookup
      over that module's scene record, which keeps different facts per scene. */
  function FindScene(scenes: seq<Scene>, sceneName: string): (r: Option<nat>)
    ensures r.Some? ==> r.value < |scenes| && scenes[r.value].name == sceneName
    ensures r.Some? ==> forall j :: 0 <= j < r.value ==> scenes[j].name != sceneName
    ensures r.None? <==> forall j :: 0 <= j < |scenes| ==> scenes[j].name != sceneName
    decreases |scenes|
  {
    if |scenes| == 0 then None
    else if scenes[0].name == sceneName then Some(0)
    else match FindScene(scenes[1..], sceneName)
      case None => None
      case Some(i) => Some(i + 1)
  }

  /** DeactivateSceneElements. */
  function Deactivated(s: Scene): (r: Scene)
    ensures r.handle == s.handle && r.name == s.name && r.isLoaded == s.isLoaded
    ensures |r.cameras| == |s.cameras| && |r.canvases| == |s.canvases| && |r.eventSystems| == |s.eventSystems|
    ensures forall k :: 0 <= k < |r.cameras| ==> r.cameras[k] == s.cameras[k].(enabled := false)
    ensures forall k :: 0 <= k < |r.canvases| ==> r.canvases[k] == s.canvases[k].(active := false)
    ensures forall k :: 0 <= k < |r.eventSystems| ==> !r.eventSystems[k]
  {
    s.(cameras := seq(|s.cameras|, k requires 0 <= k < |s.cameras| => s.cameras[k].(enabled := false)),
       canvases := seq(|s.canvases|, k requires 0 <= k < |s.canvases| => s.canvases[k].(active := false)),
       eventSystems := seq(|s.eventSystems|, _ => false))
  }

  /** ActivateSceneElements. */
  function Activated(s: Scene): (r: Scene)
    ensures r.handle == s.handle && r.name == s.name && r.isLoaded == s.isLoaded
    ensures |r.cameras| == |s.cameras| && |r.canvases| == |s.canvases| && |r.eventSystems| == |s.eventSystems|
    ensures forall k :: 0 <= k < |r.cameras| ==> r.cameras[k] == Camera(true, MainCameraTag)
    ensures forall k :: 0 <= k < |r.canvases| ==> r.canvases[k] == Canvas(true, 0)
    ensures forall k :: 0 <= k < |r.eventSystems| ==> r.eventSystems[k]
  {
    s.(cameras := seq(|s.cameras|, _ => Camera(true, MainCameraTag)),
       canvases := seq(|s.canvases|, _ => Canvas(true, 0)),
       eventSystems := seq(|s.eventSystems|, _ => true))
  }

  /** DeactivateAllScenesExcept: every scene named differently is
      deactivated; scenes with the kept name are left as they are. */
  function AllDeactivatedExcept(scenes: seq<Scene>, keep: string): (r: seq<Scene>)
    ensures |r| == |scenes|
    ensures forall i :: 0 <= i < |r| ==> r[i] == if scenes[i].name != keep then Deactivated(scenes[i]) else scenes[i]
  {
    seq(|scenes|, i requires 0 <= i < |scenes| => if scenes[i].name != keep then Deactivated(scenes[i]) else scenes[i])
  }

  /** SetActiveScene: an invalid or unloaded scene changes nothing;
      otherwise the other scenes are switched off, the first scene with the
      name is switched on and becomes the active and current scene. */
  function WithActiveScene(w: World, sceneName: string): (r: World)
    ensures FindScene(w.scenes, sceneName).None? || !w.scenes[FindScene(w.scenes, sceneName).value].isLoaded ==> r == w
    ensures FindScene(w.scenes, sceneName).Some? && w.scenes[FindScene(w.scenes, sceneName).value].isLoaded ==>
              var i := FindScene(w.scenes, sceneName).value;
              && |r.scenes| == |w.scenes|
              && r.activeScene == i && r.currentActiveScene == w.scenes[i].handle
              && r.scenes[i] == Activated(w.scenes[i])
              && (forall j :: 0 <= j < |r.scenes| && w.scenes[j].name != sceneName ==> r.scenes[j] == Deactivated(w.scenes[j]))
              && (forall j :: 0 <= j < |r.scenes| && j != i && w.scenes[j].name == sceneName ==> r.scenes[j] == w.scenes[j])
              && r.nextHandle == w.nextHandle && r.log == w.log
  {
    match FindScene(w.scenes, sceneName)
    case None => w
    case Some(i) =>
      if !w.scenes[i].isLoaded then w
      else
        var others := AllDeactivatedExcept(w.scenes, sceneName);
        w.(scenes := others[i := Activated(others[i])], activeScene := i, currentActiveScene := w.scenes[i].handle)
  }

  lemma DeactivatedIdempotent(s: Scene)
    ensures Deactivated(Deactivated(s)) == Deactivated(s)
  {
    assert Deactivated(Deactivated(s)).cameras == Deactivated(s).cameras;
    assert Deactivated(Deactivated(s)).canvases == Deactivated(s).canvases;
    assert Deactivated(Deactivated(s)).eventSystems == Deactivated(s).eventSystems;
  }

  lemma ActivatedIdempotent(s: Scene)
    ensures Activated(Activated(s)) == Activated(s)
  {
    assert Activated(Activated(s)).cameras == Activated(s).cameras;
    assert Activated(Activated(s)).canvases == Activated(s).canvases;
    assert Activated(Activated(s)).eventSystems == Activated(s).eventSystems;
  }

  /** GetSceneByName only looks at names. */
  lemma {:induction false} FindSceneByNames(a: seq<Scene>, b: seq<Scene>, sceneName: string)
    requires |a| == |b| && forall j :: 0 <= j < |a| ==> a[j].name == b[j].name
    ensures FindScene(a, sceneName) == FindScene(b, sceneName)
    decreases |a|
  {
    if |a| > 0 {
      FindSceneByNames(a[1..], b[1..], sceneName);
    }
  }

  /** Setting the same scene active twice is setting it once. */
  lemma SetActiveSceneIdempotent(w: World, sceneName: string)
    ensures WithActiveScene(WithActiveScene(w, sceneName), sceneName) == WithActiveScene(w, sceneName)
  {
    var once := WithActiveScene(w, sceneName);
    match FindScene(w.scenes, sceneName)
    case None =>
    case Some(i) =>
      if w.scenes[i].isLoaded {
        assert forall j :: 0 <= j < |w.scenes| ==> once.scenes[j].name == w.scenes[j].name;
        FindSceneByNames(once.scenes, w.scenes, sceneName);
        var twice := WithActiveScene(once, sceneName);
        ActivatedIdempotent(w.scenes[i]);
        forall j | 0 <= j < |w.scenes| && w.scenes[j].name != sceneName
          ensures twice.scenes[j] == once.scenes[j]
        {
          DeactivatedIdempotent(w.scenes[j]);
        }
        assert twice.scenes == once.scenes;
      }
  }

  /** The elements of a scene as it finishes loading. */
  datatype Loaded = Loaded(cameras: seq<Camera>, canvases: seq<Canvas>, eventSystems: seq<bool>)

  function NewScene(w: World, sceneName: string, c: Loaded): (s: Scene)
    ensures s.handle == w.nextHandle && s.name == sceneName && s.isLoaded
  {
    Scene(w.nextHandle, sceneName, true, c.cameras, c.canvases, c.eventSystems)
  }

  /** LoadAndActivateScene: an additive load, then SetActiveScene once
      GetSceneByName finds a loaded scene; when the first scene of that name
      is one that never finishes loading the wait does not end, which leaves
      the world as SetActiveScene's no-op case does. */
  function LoadAndActivate(w: World, sceneName: string, c: Loaded): (r: World)
    ensures IsSceneLoaded(r.scenes, sceneName)
    ensures |r.scenes| == |w.scenes| + 1 && r.scenes[|w.scenes|].handle == w.nextHandle
    ensures r.log == w.log + [LoadScene(sceneName, Additive)]
    ensures r.nextHandle == w.nextHandle + 1
    // the load, then SetActiveScene by the name
    ensures r == WithActiveScene(w.(scenes := w.scenes + [NewScene(w, sceneName, c)], nextHandle := w.nextHandle + 1,
                                    log := w.log + [LoadScene(sceneName, Additive)]), sceneName)
    // a name not open before: the new scene becomes the active and current scene with its elements
    // switched on, and every other scene is switched off
    ensures FindScene(w.scenes, sceneName).None? ==>
              && r.activeScene == |w.scenes| && r.currentActiveScene == w.nextHandle
              && r.scenes[|w.scenes|] == Activated(NewScene(w, sceneName, c))
              && forall j :: 0 <= j < |w.scenes| ==> r.scenes[j] == Deactivated(w.scenes[j])
    // an earlier scene of the name is what GetSceneByName finds: it is activated when loaded, and
    // otherwise nothing but the load happens
    ensures FindScene(w.scenes, sceneName).Some? && w.scenes[FindScene(w.scenes, sceneName).value].isLoaded ==>
              var i := FindScene(w.scenes, sceneName).value;
              r.activeScene == i && r.currentActiveScene == w.scenes[i].handle && r.scenes[i] == Activated(w.scenes[i])
    ensures FindScene(w.scenes, sceneName).Some? && !w.scenes[FindScene(w.scenes, sceneName).value].isLoaded ==>
              r == w.(scenes := w.scenes + [NewScene(w, sceneName, c)], nextHandle := w.nextHandle + 1,
                      log := w.log + [LoadScene(sceneName, Additive)])
  {
    var loaded := w.(scenes := w.scenes + [NewScene(w, sceneName, c)], nextHandle := w.nextHandle + 1,
                     log := w.log + [LoadScene(sceneName, Additive)]);
    var r := WithActiveScene(loaded, sceneName);
    assert loaded.scenes[|w.scenes|].name == sceneName;
    var found := FindScene(w.scenes, sceneName);
    assert forall j :: 0 <= j < |w.scenes| ==> loaded.scenes[j] == w.scenes[j];
    assert found.None? ==> FindScene(loaded.scenes, sceneName) == Some(|w.scenes|);
    assert found.Some? ==> FindScene(loaded.scenes, sceneName) == found;
    assert r.scenes[|w.scenes|].name == sceneName && r.scenes[|w.scenes|].isLoaded;
    r
  }

  /** ChangeScene: "ARMode" is single-loaded on its own and no scene element
      is touched; another name is activated at once when loaded, otherwise
      loaded additively and then activated. */
  function SceneChanged(w: World, sceneName: string, c: Loaded): (r: World)
    ensures sceneName == ARModeScene ==>
              r == w.(scenes := [NewScene(w, sceneName, c)], activeScene := 0, nextHandle := w.nextHandle + 1,
                      log := w.log + [LoadScene(sceneName, Single)])
    ensures sceneName != ARModeScene && IsSceneLoaded(w.scenes, sceneName) ==> r == WithActiveScene(w, sceneName)
    ensures sceneName != ARModeScene && !IsSceneLoaded(w.scenes, sceneName) ==> r == LoadAndActivate(w, sceneName, c)
  {
    if sceneName == ARModeScene then
      w.(scenes := [NewScene(w, sceneName, c)], activeScene := 0, nextHandle := w.nextHandle + 1,
         log := w.log + [LoadScene(sceneName, Single)])
    else if IsSceneLoaded(w.scenes, sceneName) then WithActiveScene(w, sceneName)
    else LoadAndActivate(w, sceneName, c)
  }

  /** Changing to a menu scene ends with it loaded and active, whether or not
      it was open before, unless an unfinished scene of that name shadows
      it. */
  lemma ChangeSceneActivates(w: World, sceneName: string, c: Loaded)
    requires sceneName != ARModeScene
    requires forall j :: 0 <= j < |w.scenes| && w.scenes[j].name == sceneName ==> w.scenes[j].isLoaded
    ensures var r := SceneChanged(w, sceneName, c);
            && r.activeScene < |r.scenes|
            && r.scenes[r.activeScene].name == sceneName
            && r.scenes[r.activeScene] == Activated(r.scenes[r.activeScene])
  {
    if !IsSceneLoaded(w.scenes, sceneName) {
      var loaded := w.(scenes := w.scenes + [NewScene(w, sceneName, c)], nextHandle := w.nextHandle + 1,
                       log := w.log + [LoadScene(sceneName, Additive)]);
      assert loaded.scenes[|w.scenes|].name == sceneName;
      var i := FindScene(loaded.scenes, sceneName).value;
      assert loaded.scenes[i].isLoaded;
      ActivatedIdempotent(loaded.scenes[i]);
    } else {
      var i := FindScene(w.scenes, sceneName).value;
      ActivatedIdempotent(w.scenes[i]);
    }
  }

  // ---------------------------------------------------------------------------
  // Button mapping in Start
  // ---------------------------------------------------------------------------

  /** The listeners a button can hold: a ChangeScene to a name, or one added
      by some other component. */
  datatype Listener = ChangeSceneTo(sceneName: string) | Foreign(id: nat)

  datatype Button = Button(name: string, listeners: seq<Listener>)

  const ButtonScenesMapping: map<string, string> :=
    map["Back_Button" := "MainMenuScene", "ARMode" := "ARMode", "AboutUS" := "AboutUS",
        "TechStuff" := "TechStuff", "MainMenuScene" := "MainMenuScene"]

  /** Start's loop: a button named by the mapping gets one more listener,
      the change to its mapped scene; earlier listeners stay. */
  function WithSceneListeners(buttons: seq<Button>): (r: seq<Button>)
    ensures |r| == |buttons|
    ensures forall k :: 0 <= k < |r| ==> r[k].name == buttons[k].name
    ensures forall k :: 0 <= k < |r| && buttons[k].name in ButtonScenesMapping ==>
              r[k].listeners == buttons[k].listeners + [ChangeSceneTo(ButtonScenesMapping[buttons[k].name])]
    ensures forall k :: 0 <= k < |r| && buttons[k].name !in ButtonScenesMapping ==> r[k] == buttons[k]
  {
    seq(|buttons|, k requires 0 <= k < |buttons| =>
      if buttons[k].name in ButtonScenesMapping
      then buttons[k].(listeners := buttons[k].listeners + [ChangeSceneTo(ButtonScenesMapping[buttons[k].name])])
      else buttons[k])
  }

  /** Every listener Start adds changes to a scene the mapping names, and a
      Back button returns to the main menu. */
  lemma MappedListenersTargetScenes(buttons: seq<Button>, k: nat)
    requires k < |buttons| && buttons[k].name in ButtonScenesMapping
    ensures var l := WithSceneListeners(buttons)[k].listeners;
            l[|l| - 1].ChangeSceneTo? && l[|l| - 1].sceneName in ButtonScenesMapping.Values
    ensures buttons[k].name == "Back_Button" ==>
              var l := WithSceneListeners(buttons)[k].listeners; l[|l| - 1] == ChangeSceneTo("MainMenuScene")
  {
    var target := ButtonScenesMapping[buttons[k].name];
    assert target in ButtonScenesMapping.Values;
  }

  class SceneManaging {
    var scenes: seq<Scene>
    var activeScene: nat
    var currentActiveScene: nat
    var nextHandle: nat
    var log: seq<Call>

    function Model(): World
      reads this
    {
      World(scenes, activeScene, currentActiveScene, nextHandle, log)
    }

    constructor (w: World)
      ensures Model() == w
    {
      scenes, activeScene, currentActiveScene, nextHandle, log := w.scenes, w.activeScene, w.currentActiveScene, w.nextHandle, w.log;
    }

    /** `buttons` is what FindObjectsOfType<Button> returns. */
    method Start(buttons: array<Button>)
      requires activeScene < |scenes|
      modifies this, buttons
      ensures buttons[..] == WithSceneListeners(old(buttons[..]))
      ensures Model() == old(Model()).(currentActiveScene := old(scenes[activeScene].handle))
    {
      var k := 0;
      while k < buttons.Length
        invariant 0 <= k <= buttons.Length
        invariant forall j :: 0 <= j < k ==> buttons[j] == WithSceneListeners(old(buttons[..]))[j]
        invariant forall j :: k <= j < buttons.Length ==> buttons[j] == old(buttons[j])
        invariant Model() == old(Model())
      {
        var button := buttons[k];
        if button.name in ButtonScenesMapping {
          var sceneName := ButtonScenesMapping[button.name];
          buttons[k] := button.(listeners := button.listeners + [ChangeSceneTo(sceneName)]);
        }
        k := k + 1;
      }
      assert buttons[..] == WithSceneListeners(old(buttons[..]));
      currentActiveScene := scenes[activeScene].handle;
    }

    method ChangeScene(sceneName: string, c: Loaded)
      modifies this
      ensures Model() == SceneChanged(old(Model()), sceneName, c)
    {
      if sceneName == ARModeScene {
        scenes := [NewScene(Model(), sceneName, c)];
        activeScene := 0;
        nextHandle := nextHandle + 1;
        log := log + [LoadScene(sceneName, Single)];
        return;
      }
      if IsSceneLoaded(scenes, sceneName) {
        SetActiveScene(sceneName);
      } else {
        LoadAndActivateScene(sceneName, c);
      }
    }

    method LoadAndActivateScene(sceneName: string, c: Loaded)
      modifies this
      ensures Model() == LoadAndActivate(old(Model()), sceneName, c)
    {
      scenes := scenes + [NewScene(Model(), sceneName, c)];
      nextHandle := nextHandle + 1;
      log := log + [LoadScene(sceneName, Additive)];
      SetActiveScene(sceneName);
    }

    method SetActiveScene(sceneName: string)
      modifies this
      ensures Model() == WithActiveScene(old(Model()), sceneName)
    {
      var found := FindScene(scenes, sceneName);
      if found.None? || !scenes[found.value].isLoaded {
        return;
      }
      var i := found.value;
      DeactivateAllScenesExcept(sceneName);
      activeScene := i;
      var activated := ActivateSceneElements(scenes[i]);
      scenes := scenes[i := activated];
      currentActiveScene := scenes[i].handle;
    }

    method DeactivateAllScenesExcept(keep: string)
      modifies this
      ensures Model() == old(Model()).(scenes := AllDeactivatedExcept(old(scenes), keep))
    {
      var i := 0;
      while i < |scenes|
        invariant 0 <= i <= |scenes| == |old(scenes)|
        invariant forall j :: 0 <= j < i ==> scenes[j] == AllDeactivatedExcept(old(scenes), keep)[j]
        invariant forall j :: i <= j < |scenes| ==> scenes[j] == old(scenes[j])
        invariant Model() == old(Model()).(scenes := scenes)
      {
        if scenes[i].name != keep {
          var off := DeactivateSceneElements(scenes[i]);
          scenes := scenes[i := off];
        }
        i := i + 1;
      }
      assert scenes == AllDeactivatedExcept(old(scenes), keep);
    }

    /** The three loops over the scene's cameras, canvases and event
        systems. */
    static method DeactivateSceneElements(s: Scene) returns (r: Scene)
      ensures r == Deactivated(s)
    {
      var cameras := s.cameras;
      var k := 0;
      while k < |cameras|
        invariant 0 <= k <= |cameras| == |s.cameras|
        invariant forall j :: 0 <= j < k ==> cameras[j] == s.cameras[j].(enabled := false)
        invariant forall j :: k <= j < |cameras| ==> cameras[j] == s.cameras[j]
      {
        cameras := cameras[k := cameras[k].(enabled := false)];
        k := k + 1;
      }
      var canvases := s.canvases;
      k := 0;
      while k < |canvases|
        invariant 0 <= k <= |canvases| == |s.canvases|
        invariant forall j :: 0 <= j < k ==> canvases[j] == s.canvases[j].(active := false)
        invariant forall j :: k <= j < |canvases| ==> canvases[j] == s.canvases[j]
      {
        canvases := canvases[k := canvases[k].(active := false)];
        k := k + 1;
      }
      var events := s.eventSystems;
      k := 0;
      while k < |events|
        invariant 0 <= k <= |events| == |s.eventSystems|
        invariant forall j :: 0 <= j < k ==> !events[j]
      {
        events := events[k := false];
        k := k + 1;
      }
      r := s.(cameras := cameras, canvases := canvases, eventSystems := events);
      assert r.cameras == Deactivated(s).cameras;
      assert r.canvases == Deactivated(s).canvases;
      assert r.eventSystems == Deactivated(s).eventSystems;
    }

    static method ActivateSceneElements(s: Scene) returns (r: Scene)
      ensures r == Activated(s)
    {
      var cameras := s.cameras;
      var k := 0;
      while k < |cameras|
        invariant 0 <= k <= |cameras| == |s.cameras|
        invariant forall j :: 0 <= j < k ==> cameras[j] == Camera(true, MainCameraTag)
      {
        cameras := cameras[k := cameras[k].(enabled := true)];
        cameras := cameras[k := cameras[k].(tag := MainCameraTag)];
        k := k + 1;
      }
      var canvases := s.canvases;
      k := 0;
      while k < |canvases|
        invariant 0 <= k <= |canvases| == |s.canvases|
        invariant forall j :: 0 <= j < k ==> canvases[j] == Canvas(true, 0)
      {
        canvases := canvases[k := canvases[k].(active := true)];
        canvases := canvases[k := canvases[k].(sortingOrder := 0)];
        k := k + 1;
      }
      var events := s.eventSystems;
      k := 0;
      while k < |events|
        invariant 0 <= k <= |events| == |s.eventSystems|
        invariant forall j :: 0 <= j < k ==> events[j]
      {
        events := events[k := true];
        k := k + 1;
      }
      r := s.(cameras := cameras, canvases := canvases, eventSystems := events);
      assert r.cameras == Activated(s).cameras;
      assert r.canvases == Activated(s).canvases;
      assert r.eventSystems == Activated(s).eventSystems;
    }
  }
}
