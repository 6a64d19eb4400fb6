/** SceneSwitch: binds scene-switching actions to buttons by name, rebinds
    after every additive load, enters AR mode by reusing an existing XR origin
    and loading the AR scene at most once, and returns to the main menu. */
module SceneSwitching {
  import opened Engine

  /** The listeners a button's onClick can hold: the four actions of the
      mapping, or one some other component added. */
  datatype Action = LoadPreviousScene | LoadARMode | LoadAboutScene | LoadTechStuff | Foreign(id: nat)

  datatype Button = Button(name: string, listeners: seq<Action>)

  /** buttonSceneMapping, as built in Start. */
  const ButtonSceneMapping: map<string, Action> :=
    map["Back_Button" := LoadPreviousScene, "ARMode" := LoadARMode,
        "AboutUS" := LoadAboutScene, "TechStuff" := LoadTechStuff]

  /** A scene and every Button under its roots, inactive ones included, in
      root order. */
  datatype Scene = Scene(name: string, buttons: seq<Button>)

  /** BindButtonsInScene: a button named by the mapping loses its listeners
      and gets exactly the mapped one; any other button is untouched. */
  function Bound(buttons: seq<Button>): (r: seq<Button>)
    ensures |r| == |buttons|
    ensures forall k :: 0 <= k < |r| ==> r[k].name == buttons[k].name
    ensures forall k :: 0 <= k < |r| && buttons[k].name in ButtonSceneMapping ==>
              r[k].listeners == [ButtonSceneMapping[buttons[k].name]]
    ensures forall k :: 0 <= k < |r| && buttons[k].name !in ButtonSceneMapping ==> r[k] == buttons[k]
    decreases |buttons|
  {
    if |buttons| == 0 then []
    else
      var b := buttons[0];
      var first := if b.name in ButtonSceneMapping then b.(listeners := [ButtonSceneMapping[b.name]]) else b;
      [first] + Bound(buttons[1..])
  }

  /** Binding twice is binding once. */
  lemma BindIdempotent(buttons: seq<Button>)
    ensures Bound(Bound(buttons)) == Bound(buttons)
  {
    var once := Bound(buttons);
    assert forall k :: 0 <= k < |once| ==> Bound(once)[k] == once[k];
  }

  /** A mapped button ends with one listener, whatever it had before. */
  lemma BoundButtonHasOneListener(buttons: seq<Button>, k: nat)
    requires k < |buttons| && buttons[k].name in ButtonSceneMapping
    ensures |Bound(buttons)[k].listeners| == 1
    ensures Bound(buttons)[k].listeners[0] == ButtonSceneMapping[buttons[k].name]
  {
  }

  /** A game object as Resources.FindObjectsOfTypeAll and FindWithTag see it:
      its tag, whether any hide flag is set, its active flag, and the enabled
      flag of the ARSession, ARCameraManager and Camera below it, when there
      is one. */
  datatype Obj = Obj(
    tag: string,
    hidden: bool,
    active: bool,
    session: Option<bool>,
    cameraManager: Option<bool>,
    camera: Option<bool>)

  const XROriginTag := "XROrigin"

  /** The first object, in lookup order, satisfying `p`. */
  function First(objs: seq<Obj>, p: Obj -> bool): (r: Option<nat>)
    ensures r.Some? ==> r.value < |objs| && p(objs[r.value])
    ensures r.Some? ==> forall j :: 0 <= j < r.value ==> !p(objs[j])
    ensures r.None? <==> forall j :: 0 <= j < |objs| ==> !p(objs[j])
    decreases |objs|
  {
    if |objs| == 0 then None
    else if p(objs[0]) then Some(0)
    else match First(objs[1..], p)
      case None => None
      case Some(i) => Some(i + 1)
  }

  /** The existing-origin search: tagged XROrigin with no hide flags,
      inactive objects included. */
  predicate Reusable(o: Obj) {
    o.tag == XROriginTag && !o.hidden
  }

  /** GameObject.FindWithTag("XROrigin"): active objects only. */
  predicate ActiveOrigin(o: Obj) {
    o.tag == XROriginTag && o.active
  }

  /** SetActive(true), then each component present and disabled is enabled. */
  function Reactivated(o: Obj): (r: Obj)
    ensures r.active && r.tag == o.tag && r.hidden == o.hidden
    ensures r.session == (if o.session.Some? then Some(true) else None)
    ensures r.cameraManager == (if o.cameraManager.Some? then Some(true) else None)
    ensures r.camera == (if o.camera.Some? then Some(true) else None)
  {
    var enable := (c: Option<bool>) => if c.Some? && !c.value then Some(true) else c;
    o.(active := true, session := enable(o.session), cameraManager := enable(o.cameraManager),
       camera := enable(o.camera))
  }

  /** The engine state SceneSwitch reads and changes, with its static
      `previousScene` and whether OnSceneLoaded is subscribed. */
  datatype World = World(
    scenes: seq<Scene>,            // open scenes, in load order
    active: nat,                   // index of SceneManager.GetActiveScene()
    objects: seq<Obj>,             // every game object, in lookup order
    cameraListener: Option<bool>,  // AudioListener on the MainCamera-tagged object, when both exist
    xr: XRManager,
    previousScene: Option<string>,
    subscribed: bool,
    log: seq<Call>)
  {
    predicate Valid() {
      active < |scenes|
    }
  }

  /** OnSceneLoaded: only an additive load rebinds, and only the scene just
      loaded. */
  function Rebound(w: World, index: nat, mode: LoadMode): (r: World)
    requires index < |w.scenes|
    ensures mode == Single ==> r == w
    ensures mode == Additive ==>
              r == w.(scenes := w.scenes[index := Scene(w.scenes[index].name, Bound(w.scenes[index].buttons))])
  {
    if mode == Additive then w.(scenes := w.scenes[index := Scene(w.scenes[index].name, Bound(w.scenes[index].buttons))])
    else w
  }

  /** SceneManager.LoadScene(name, Additive) with the sceneLoaded callback
      after it. */
  function LoadAdditive(w: World, sceneName: string, buttons: seq<Button>): (r: World)
    requires w.Valid()
    ensures r.Valid() && r.active == w.active
    ensures |r.scenes| == |w.scenes| + 1 && r.scenes[..|w.scenes|] == w.scenes
    ensures r.scenes[|w.scenes|] == Scene(sceneName, if w.subscribed then Bound(buttons) else buttons)
    ensures r.log == w.log + [LoadScene(sceneName, Additive)]
    // nothing but the open scenes and the log changes
    ensures r == w.(scenes := r.scenes, log := r.log)
  {
    var loaded := w.(scenes := w.scenes + [Scene(sceneName, buttons)], log := w.log + [LoadScene(sceneName, Additive)]);
    if loaded.subscribed then Rebound(loaded, |w.scenes|, Additive) else loaded
  }

  /** The three scenes Start loads additively, as they load. */
  datatype Contents = Contents(ar: seq<Button>, about: seq<Button>, tech: seq<Button>)

  /** The first half of Start: bind the active scene; remember it unless it
      is the AR scene; silence the MainCamera listener in the main menu;
      subscribe OnSceneLoaded. */
  function Prepared(w: World, mainMenuScene: string, arModeScene: string): (r: World)
    requires w.Valid()
    ensures r.Valid() && r.subscribed && r.active == w.active && r.log == w.log
    ensures var name := w.scenes[w.active].name;
            && (name != arModeScene ==> r.previousScene == Some(name))
            && (name == arModeScene ==> r.previousScene == w.previousScene)
            && (name == mainMenuScene && w.cameraListener.Some? ==> r.cameraListener == Some(false))
            && (name != mainMenuScene || w.cameraListener.None? ==> r.cameraListener == w.cameraListener)
    ensures r.scenes == w.scenes[w.active := Scene(w.scenes[w.active].name, Bound(w.scenes[w.active].buttons))]
    ensures r.objects == w.objects && r.xr == w.xr
  {
    var current := w.scenes[w.active];
    var bound := w.(scenes := w.scenes[w.active := Scene(current.name, Bound(current.buttons))]);
    var remembered := if current.name != arModeScene then bound.(previousScene := Some(current.name)) else bound;
    var silenced :=
      if current.name == mainMenuScene && remembered.cameraListener.Some? then remembered.(cameraListener := Some(false))
      else remembered;
    silenced.(subscribed := true)
  }

  /** Start: the first half, then LoadAllScenes loads the AR, About and
      TechStuff scenes additively, each bound as it loads. */
  function Started(w: World, mainMenuScene: string, arModeScene: string, c: Contents): (r: World)
    requires w.Valid()
    ensures r.Valid() && r.subscribed
    ensures var p := Prepared(w, mainMenuScene, arModeScene);
            r.scenes == p.scenes + [Scene("ARMode", Bound(c.ar)), Scene("AboutUS", Bound(c.about)), Scene("TechStuff", Bound(c.tech))]
    ensures r.log == w.log + [LoadScene("ARMode", Additive), LoadScene("AboutUS", Additive), LoadScene("TechStuff", Additive)]
    // the loads change nothing the first half set up but the open scenes and the log
    ensures r == Prepared(w, mainMenuScene, arModeScene).(scenes := r.scenes, log := r.log)
  {
    var p := Prepared(w, mainMenuScene, arModeScene);
    var ar := LoadAdditive(p, "ARMode", c.ar);
    var about := LoadAdditive(ar, "AboutUS", c.about);
    var r := LoadAdditive(about, "TechStuff", c.tech);
    assert ar.scenes == p.scenes + [Scene("ARMode", Bound(c.ar))];
    assert about.scenes == ar.scenes + [Scene("AboutUS", Bound(c.about))];
    assert r.scenes == about.scenes + [Scene("TechStuff", Bound(c.tech))];
    r
  }

  /** After Start every button of the active scene and of the three loaded
      scenes is bound, and the previous scene is the active one unless that
      is the AR scene. */
  lemma StartBindsEverything(w: World, mainMenuScene: string, arModeScene: string, c: Contents)
    requires w.Valid()
    ensures var r := Started(w, mainMenuScene, arModeScene, c);
            && r.scenes[w.active].buttons == Bound(w.scenes[w.active].buttons)
            && r.scenes[|w.scenes|..] == [Scene("ARMode", Bound(c.ar)), Scene("AboutUS", Bound(c.about)), Scene("TechStuff", Bound(c.tech))]
            && (w.scenes[w.active].name != arModeScene ==> r.previousScene == Some(w.scenes[w.active].name))
  {
    var p := Prepared(w, mainMenuScene, arModeScene);
    var r := Started(w, mainMenuScene, arModeScene, c);
    assert r.scenes[w.active] == p.scenes[w.active];
    var ar := LoadAdditive(p, "ARMode", c.ar);
    var about := LoadAdditive(ar, "AboutUS", c.about);
    assert r.previousScene == p.previousScene;
  }

  /** The already-loaded scan: some open scene has the name. */
  function IsOpen(scenes: seq<Scene>, sceneName: string): (r: bool)
    ensures r <==> exists i :: 0 <= i < |scenes| && scenes[i].name == sceneName
    decreases |scenes|
  {
    if |scenes| == 0 then false
    else if scenes[0].name == sceneName then true
    else
      var rest := IsOpen(scenes[1..], sceneName);
      assert forall i :: 1 <= i < |scenes| ==> scenes[i] == scenes[1..][i - 1];
      rest
  }

  /** How many open scenes have the name. */
  function CountNamed(scenes: seq<Scene>, sceneName: string): (n: nat)
    ensures n <= |scenes|
    ensures n == 0 <==> !IsOpen(scenes, sceneName)
    decreases |scenes|
  {
    if |scenes| == 0 then 0
    else (if scenes[0].name == sceneName then 1 else 0) + CountNamed(scenes[1..], sceneName)
  }

  /** What the engine decides during LoadARModeRoutine: whether the loader
      comes up and the AR scene's buttons as it loads. */
  datatype AROracle = AROracle(cameUp: bool, arButtons: seq<Button>)

  /** The existing-origin step: the first reusable origin is activated and
      its components enabled; nothing else changes. */
  function ReuseOrigin(w: World): (r: World)
    ensures r == w.(objects := r.objects) && |r.objects| == |w.objects|
    ensures First(w.objects, Reusable).Some? ==>
              r.objects == w.objects[First(w.objects, Reusable).value := Reactivated(w.objects[First(w.objects, Reusable).value])]
    ensures First(w.objects, Reusable).None? ==> r.objects == w.objects
  {
    match First(w.objects, Reusable)
    case None => w
    case Some(i) => w.(objects := w.objects[i := Reactivated(w.objects[i])])
  }

  /** The return path's origin step: the first active XROrigin-tagged
      object, if any, is deactivated. */
  function DeactivateOrigin(w: World): (r: World)
    ensures r == w.(objects := r.objects) && |r.objects| == |w.objects|
    ensures First(w.objects, ActiveOrigin).Some? ==>
              r.objects == w.objects[First(w.objects, ActiveOrigin).value := w.objects[First(w.objects, ActiveOrigin).value].(active := false)]
    ensures First(w.objects, ActiveOrigin).None? ==> r.objects == w.objects
    ensures forall j :: 0 <= j < |r.objects| ==> !ActiveOrigin(r.objects[j]) || ActiveOrigin(w.objects[j])
  {
    match First(w.objects, ActiveOrigin)
    case None => w
    case Some(i) => w.(objects := w.objects[i := w.objects[i].(active := false)])
  }

  /** LoadARModeRoutine, apart from the listener removal at its end. */
  function ARRoutine(w: World, arModeScene: string, o: AROracle): (r: World)
    requires w.Valid()
    ensures r.Valid()
    // the first reusable origin is activated with its components enabled
    ensures |r.objects| == |w.objects|
    ensures First(w.objects, Reusable).Some? ==>
              r.objects == w.objects[First(w.objects, Reusable).value := Reactivated(w.objects[First(w.objects, Reusable).value])]
    ensures First(w.objects, Reusable).None? ==> r.objects == w.objects
    // no loader: nothing is started and nothing is loaded
    ensures !r.xr.activeLoader <==> !w.xr.activeLoader && !o.cameUp
    ensures !r.xr.activeLoader ==> r.scenes == w.scenes && r.log == w.log + [InitializeLoader]
    ensures r.xr.activeLoader ==> r.xr.running
    // the AR scene is open afterwards exactly once more than before, or as before
    ensures r.xr.activeLoader ==> IsOpen(r.scenes, arModeScene)
    ensures CountNamed(r.scenes, arModeScene) ==
              if r.xr.activeLoader && !IsOpen(w.scenes, arModeScene) then 1 else CountNamed(w.scenes, arModeScene)
    // with a loader: started, then the AR scene loaded additively unless already open, and bound as it loads
    ensures r.xr.activeLoader ==> r.xr == SubsystemsStarted(LoaderInitialized(w.xr, o.cameUp))
    ensures r.xr.activeLoader ==>
              r.log == w.log + [InitializeLoader, StartSubsystems]
                             + (if IsOpen(w.scenes, arModeScene) then [] else [LoadScene(arModeScene, Additive)])
    ensures r.xr.activeLoader ==>
              r.scenes == if IsOpen(w.scenes, arModeScene) then w.scenes
                          else w.scenes + [Scene(arModeScene, if w.subscribed then Bound(o.arButtons) else o.arButtons)]
    // nothing else changes: the active scene, the listener, the previous scene and the subscription stay
    ensures r == w.(objects := r.objects, xr := r.xr, scenes := r.scenes, log := r.log)
  {
    var reused := ReuseOrigin(w);
    var initialized := reused.(xr := LoaderInitialized(w.xr, o.cameUp), log := w.log + [InitializeLoader]);
    if !initialized.xr.activeLoader then initialized
    else
      var started := initialized.(xr := SubsystemsStarted(initialized.xr), log := w.log + [InitializeLoader, StartSubsystems]);
      assert started == w.(objects := reused.objects, xr := started.xr, log := started.log);
      if IsOpen(w.scenes, arModeScene) then started
      else
        var r := LoadAdditive(started, arModeScene, o.arButtons);
        var added := Scene(arModeScene, if w.subscribed then Bound(o.arButtons) else o.arButtons);
        CountNamedAppend(w.scenes, added, arModeScene);
        assert r.scenes == w.scenes + [added];
        r
  }

  lemma {:induction false} CountNamedAppend(scenes: seq<Scene>, s: Scene, sceneName: string)
    ensures CountNamed(scenes + [s], sceneName) == CountNamed(scenes, sceneName) + (if s.name == sceneName then 1 else 0)
    decreases |scenes|
  {
    if |scenes| == 0 {
      assert [s][1..] == [];
    } else {
      assert (scenes + [s])[1..] == scenes[1..] + [s];
      CountNamedAppend(scenes[1..], s, sceneName);
    }
  }

  /** Repeating the routine never opens a second AR scene. */
  lemma ARRoutineNeverLoadsTwice(w: World, arModeScene: string, o1: AROracle, o2: AROracle)
    requires w.Valid() && !IsOpen(w.scenes, arModeScene)
    ensures CountNamed(ARRoutine(ARRoutine(w, arModeScene, o1), arModeScene, o2).scenes, arModeScene) <= 1
  {
  }

  /** LoadPreviousSceneRoutine: stop and deinitialise, deactivate the active
      XR origin, reset the session if one is found, then single-load the main
      menu, always by the literal name "MainMenuScene". */
  function PreviousRoutine(w: World, sessionFound: bool, menuButtons: seq<Button>): (r: World)
    ensures r.xr == NoLoader
    ensures r.scenes == [Scene("MainMenuScene", menuButtons)] && r.active == 0 && r.Valid()
    ensures |r.objects| == |w.objects|
    ensures First(w.objects, ActiveOrigin).Some? ==>
              r.objects == w.objects[First(w.objects, ActiveOrigin).value := w.objects[First(w.objects, ActiveOrigin).value].(active := false)]
    ensures First(w.objects, ActiveOrigin).None? ==> r.objects == w.objects
    ensures r.log == w.log + [StopSubsystems, DeinitializeLoader]
                           + (if sessionFound then [ResetSession] else [])
                           + [LoadScene("MainMenuScene", Single)]
    // the listener, the previous scene and the subscription stay
    ensures r == w.(xr := r.xr, scenes := r.scenes, active := r.active, objects := r.objects, log := r.log)
  {
    var stopped := w.(xr := LoaderDeinitialized(SubsystemsStopped(w.xr)), log := w.log + [StopSubsystems, DeinitializeLoader]);
    var hidden := DeactivateOrigin(stopped);
    var reset := if sessionFound then hidden.(log := hidden.log + [ResetSession]) else hidden;
    reset.(scenes := [Scene("MainMenuScene", menuButtons)], active := 0, log := reset.log + [LoadScene("MainMenuScene", Single)])
  }

  /** The return path ignores the `mainMenuScene` field: whatever the
      component is configured with, it lands in "MainMenuScene". */
  lemma PreviousRoutineIgnoresField(w: World, sessionFound: bool, menuButtons: seq<Button>)
    ensures PreviousRoutine(w, sessionFound, menuButtons).scenes[0].name == "MainMenuScene"
    ensures !PreviousRoutine(w, sessionFound, menuButtons).xr.running
  {
  }

  class SceneSwitch {
    const mainMenuScene: string
    const arModeScene: string
    var scenes: seq<Scene>
    var active: nat
    var objects: seq<Obj>
    var cameraListener: Option<bool>
    var xr: XRManager
    var previousScene: Option<string>
    var subscribed: bool
    var log: seq<Call>

    function Model(): World
      reads this
    {
      World(scenes, active, objects, cameraListener, xr, previousScene, subscribed, log)
    }

    predicate Valid()
      reads this
    {
      Model().Valid()
    }

    constructor (mainMenuScene: string, arModeScene: string, w: World)
      requires w.Valid()
      ensures this.mainMenuScene == mainMenuScene && this.arModeScene == arModeScene
      ensures Valid() && Model() == w
    {
      this.mainMenuScene := mainMenuScene;
      this.arModeScene := arModeScene;
      scenes, active, objects, cameraListener := w.scenes, w.active, w.objects, w.cameraListener;
      xr, previousScene, subscribed, log := w.xr, w.previousScene, w.subscribed, w.log;
    }

    method Start(c: Contents)
      requires Valid()
      modifies this
      ensures Valid() && Model() == Started(old(Model()), mainMenuScene, arModeScene, c)
    {
      BindButtonsInScene(active);
      if scenes[active].name != arModeScene {
        previousScene := Some(scenes[active].name);
      }
      if scenes[active].name == mainMenuScene {
        if cameraListener.Some? {
          cameraListener := Some(false);
        }
      }
      subscribed := true;
      LoadSceneAdditive("ARMode", c.ar);
      LoadSceneAdditive("AboutUS", c.about);
      LoadSceneAdditive("TechStuff", c.tech);
    }

    /** SceneManager.LoadScene(name, Additive), with the sceneLoaded
        callback; LoadAboutScene and LoadTechStuff are this with their
        names. */
    method LoadSceneAdditive(sceneName: string, buttons: seq<Button>)
      requires Valid()
      modifies this
      ensures Valid() && Model() == LoadAdditive(old(Model()), sceneName, buttons)
    {
      scenes := scenes + [Scene(sceneName, buttons)];
      log := log + [LoadScene(sceneName, Additive)];
      if subscribed {
        OnSceneLoaded(|scenes| - 1, Additive);
      }
    }

    method OnSceneLoaded(index: nat, mode: LoadMode)
      requires index < |scenes|
      modifies this
      ensures Model() == Rebound(old(Model()), index, mode)
    {
      if mode == Additive {
        BindButtonsInScene(index);
      }
    }

    method BindButtonsInScene(index: nat)
      requires index < |scenes|
      modifies this
      ensures Model() == old(Model()).(scenes := old(scenes)[index := Scene(old(scenes)[index].name, Bound(old(scenes)[index].buttons))])
    {
      var buttons := scenes[index].buttons;
      ghost var bound := Bound(buttons);
      var k := 0;
      while k < |buttons|
        invariant 0 <= k <= |buttons| == |bound|
        invariant forall j :: 0 <= j < k ==> buttons[j] == bound[j]
        invariant forall j :: k <= j < |buttons| ==> buttons[j] == scenes[index].buttons[j]
      {
        var b := buttons[k];
        if b.name in ButtonSceneMapping {
          buttons := buttons[k := b.(listeners := [])];
          buttons := buttons[k := buttons[k].(listeners := buttons[k].listeners + [ButtonSceneMapping[b.name]])];
        }
        k := k + 1;
      }
      assert buttons == bound;
      scenes := scenes[index := Scene(scenes[index].name, buttons)];
    }

    /** `listeners` is what FindObjectsOfType<AudioListener> returns. */
    method RemoveExtraAudioListeners(listeners: array<bool>)
      modifies listeners
      ensures listeners[..] == KeepFirst(old(listeners[..]))
      ensures listeners.Length <= 1 ==> listeners[..] == old(listeners[..])
    {
      if listeners.Length > 1 {
        DisableAllButFirst(listeners);
      } else {
        KeepFirstOfAtMostOne(listeners[..]);
      }
    }

    method LoadARModeRoutine(o: AROracle, listeners: array<bool>)
      requires Valid()
      modifies this, listeners
      ensures Valid() && Model() == ARRoutine(old(Model()), arModeScene, o)
      ensures xr.activeLoader ==> listeners[..] == KeepFirst(old(listeners[..]))
      ensures !xr.activeLoader ==> unchanged(listeners)
    {
      ghost var w := Model();
      ReuseExistingOrigin();
      xr := LoaderInitialized(xr, o.cameUp);
      log := log + [InitializeLoader];
      ghost var initialized := Model();
      assert initialized == ReuseOrigin(w).(xr := LoaderInitialized(w.xr, o.cameUp), log := w.log + [InitializeLoader]);
      if !xr.activeLoader {
        return;
      }
      xr := SubsystemsStarted(xr);
      log := log + [StartSubsystems];
      if !IsOpen(scenes, arModeScene) {
        LoadSceneAdditive(arModeScene, o.arButtons);
      }
      assert Model() == ARRoutine(w, arModeScene, o);
      RemoveExtraAudioListeners(listeners);
    }

    method ReuseExistingOrigin()
      modifies this
      ensures Model() == ReuseOrigin(old(Model()))
    {
      var existing := First(objects, Reusable);
      if existing.None? {
        return;
      }
      var i := existing.value;
      var o := objects[i].(active := true);
      if o.session.Some? && !o.session.value {
        o := o.(session := Some(true));
      }
      if o.cameraManager.Some? && !o.cameraManager.value {
        o := o.(cameraManager := Some(true));
      }
      if o.camera.Some? && !o.camera.value {
        o := o.(camera := Some(true));
      }
      objects := objects[i := o];
    }

    method DeactivateActiveOrigin()
      modifies this
      ensures Model() == DeactivateOrigin(old(Model()))
    {
      var origin := First(objects, ActiveOrigin);
      if origin.Some? {
        objects := objects[origin.value := objects[origin.value].(active := false)];
      }
    }

    method LoadPreviousSceneRoutine(sessionFound: bool, menuButtons: seq<Button>, listeners: array<bool>)
      modifies this, listeners
      ensures Valid() && Model() == PreviousRoutine(old(Model()), sessionFound, menuButtons)
      ensures listeners[..] == KeepFirst(old(listeners[..]))
    {
      var mainMenuScene := "MainMenuScene";
      xr := SubsystemsStopped(xr);
      log := log + [StopSubsystems];
      xr := LoaderDeinitialized(xr);
      log := log + [DeinitializeLoader];
      DeactivateActiveOrigin();
      if sessionFound {
        log := log + [ResetSession];
      }
      RemoveExtraAudioListeners(listeners);
      scenes := [Scene(mainMenuScene, menuButtons)];
      active := 0;
      log := log + [LoadScene(mainMenuScene, Single)];
    }
  }
}
