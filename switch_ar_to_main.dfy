/** SwitchARtoMain: a persistent, first-wins singleton that switches between
    the home scene and an additively loaded AR scene, tearing the XR loader
    down and bringing it up around the switch. */
module ARSwitch {
  import opened Engine

  // ---------------------------------------------------------------------------
  // Build-list validation
  // ---------------------------------------------------------------------------

  /** string.LastIndexOf(char): the last position holding `c`, -1 if none. */
  function LastIndexOf(s: string, c: char): (r: int)
    ensures -1 <= r < |s|
    ensures r >= 0 ==> s[r] == c
    ensures forall k :: r < k < |s| ==> s[k] != c
    decreases |s|
  {
    if |s| == 0 then -1
    else if s[|s| - 1] == c then |s| - 1
    else LastIndexOf(s[..|s| - 1], c)
  }

  /** Path.GetFileName with '/' as the directory separator: what follows the
      last separator. */
  function FileName(path: string): (r: string)
    ensures forall k :: 0 <= k < |r| ==> r[k] != '/'
    ensures |r| <= |path| && r == path[|path| - |r|..]
    ensures |r| < |path| ==> path[|path| - |r| - 1] == '/'
  {
    path[LastIndexOf(path, '/') + 1..]
  }

  /** The extension rule: a file name up to, not including, its last '.';
      the whole name when it has no '.'. */
  function StripExtension(name: string): (r: string)
    ensures |r| <= |name| && r == name[..|r|]
    ensures |r| < |name| ==> name[|r|] == '.' && forall k :: |r| < k < |name| ==> name[k] != '.'
    ensures |r| == |name| <==> forall k :: 0 <= k < |name| ==> name[k] != '.'
  {
    var dot := LastIndexOf(name, '.');
    if dot < 0 then name else name[..dot]
  }

  /** Path.GetFileNameWithoutExtension. */
  function FileNameWithoutExtension(path: string): (r: string)
    ensures forall k :: 0 <= k < |r| ==> r[k] != '/'
  {
    StripExtension(FileName(path))
  }

  /** A build path `dir/name.ext` names the scene `name`, whatever the
      directory and whether or not the name itself holds dots. */
  lemma BuildPathNamesScene(dir: string, name: string, ext: string)
    requires forall k :: 0 <= k < |name| ==> name[k] != '/'
    requires forall k :: 0 <= k < |ext| ==> ext[k] != '/' && ext[k] != '.'
    ensures FileNameWithoutExtension(dir + "/" + name + "." + ext) == name
  {
    var path := dir + "/" + name + "." + ext;
    var file := name + "." + ext;
    assert path == dir + "/" + file;
    var slash := LastIndexOf(path, '/');
    assert path[|dir|] == '/';
    assert forall k :: |dir| < k < |path| ==> path[k] == file[k - |dir| - 1];
    assert slash == |dir|;
    assert FileName(path) == file;
    var dot := LastIndexOf(file, '.');
    assert file[|name|] == '.';
    assert forall k :: |name| < k < |file| ==> file[k] == ext[k - |name| - 1];
    assert dot == |name|;
    assert file[..dot] == name;
  }

  /** SceneExists: some build path's file name without extension is the
      scene name. */
  function SceneExists(paths: seq<string>, sceneName: string): (r: bool)
    ensures r <==> exists i :: 0 <= i < |paths| && FileNameWithoutExtension(paths[i]) == sceneName
    decreases |paths|
  {
    if |paths| == 0 then false
    else if FileNameWithoutExtension(paths[0]) == sceneName then true
    else
      var rest := SceneExists(paths[1..], sceneName);
      assert forall i :: 1 <= i < |paths| ==> paths[i] == paths[1..][i - 1];
      rest
  }

  /** IsSceneValid: a non-empty name found in the build list. */
  function IsSceneValid(paths: seq<string>, sceneName: string): (r: bool)
    ensures r <==> sceneName != "" && exists i :: 0 <= i < |paths| && FileNameWithoutExtension(paths[i]) == sceneName
  {
    sceneName != "" && SceneExists(paths, sceneName)
  }

  // ---------------------------------------------------------------------------
  // Open scenes
  // ---------------------------------------------------------------------------

  /** An XROrigin and the first Camera below it, if any. */
  datatype Origin = Origin(id: ObjId, camera: Option<ObjId>)

  /** A root game object: its active flag and the first XROrigin in its
      hierarchy (GetComponentInChildren), if any. */
  datatype Root = Root(active: bool, origin: Option<Origin>)

  datatype Scene = Scene(name: string, roots: seq<Root>)

  /** SceneManager.GetSceneByName: the first open scene with that name; None
      stands for the invalid scene. SceneManagement.FindScene is the same engine
      lookup over that module's scene record, which keeps different facts per
      scene. */
  function FindScene(scenes: seq<Scene>, sceneName: string): (r: Option<nat>)
    ensures r.Some? ==> r.value < |scenes| && scenes[r.value].name == sceneName
    ensures r.Some? ==> forall j :: 0 <= j < r.value ==> scenes[j].name != sceneName
    ensures r.None? <==> forall j :: 0 <= j < |scenes| ==> scenes[j].name != sceneName
    decreases |scenes|
  {
    if |scenes| == 0 then None
    else if scenes[0].name == sceneName then Some(0)
    else match FindScene(scenes[1..], sceneName)
      case None => None
      case Some(i) => Some(i + 1)
  }

  function AllRootsActive(roots: seq<Root>, active: bool): (r: seq<Root>)
    ensures |r| == |roots|
    ensures forall k :: 0 <= k < |r| ==> r[k] == roots[k].(active := active)
  {
    seq(|roots|, k requires 0 <= k < |roots| => roots[k].(active := active))
  }

  /** Show/HideSceneRootObjects: an invalid scene changes nothing; otherwise
      every root of the named scene gets the flag and the other scenes keep
      theirs. */
  function SetRootsActive(scenes: seq<Scene>, sceneName: string, active: bool): (r: seq<Scene>)
    ensures |r| == |scenes|
    ensures FindScene(scenes, sceneName).None? ==> r == scenes
    ensures FindScene(scenes, sceneName).Some? ==>
              var i := FindScene(scenes, sceneName).value;
              && r[i].name == sceneName
              && |r[i].roots| == |scenes[i].roots|
              && (forall k :: 0 <= k < |r[i].roots| ==>
                    r[i].roots[k].active == active && r[i].roots[k].origin == scenes[i].roots[k].origin)
              && (forall j :: 0 <= j < |r| && j != i ==> r[j] == scenes[j])
  {
    match FindScene(scenes, sceneName)
    case None => scenes
    case Some(i) => scenes[i := scenes[i].(roots := AllRootsActive(scenes[i].roots, active))]
  }

  /** Showing after hiding is the same as showing, and hiding twice is hiding
      once. */
  lemma ShowUndoesHide(scenes: seq<Scene>, sceneName: string)
    ensures SetRootsActive(SetRootsActive(scenes, sceneName, false), sceneName, true)
         == SetRootsActive(scenes, sceneName, true)
    ensures SetRootsActive(SetRootsActive(scenes, sceneName, false), sceneName, false)
         == SetRootsActive(scenes, sceneName, false)
  {
    var hidden := SetRootsActive(scenes, sceneName, false);
    assert forall j :: 0 <= j < |scenes| ==> hidden[j].name == scenes[j].name;
    FindSceneByNames(hidden, scenes, sceneName);
    match FindScene(scenes, sceneName)
    case None =>
    case Some(i) =>
      var roots := scenes[i].roots;
      assert AllRootsActive(AllRootsActive(roots, false), true) == AllRootsActive(roots, true);
      assert AllRootsActive(AllRootsActive(roots, false), false) == AllRootsActive(roots, false);
  }

  /** GetSceneByName only looks at names. */
  lemma {:induction false} FindSceneByNames(a: seq<Scene>, b: seq<Scene>, sceneName: string)
    requires |a| == |b| && forall j :: 0 <= j < |a| ==> a[j].name == b[j].name
    ensures FindScene(a, sceneName) == FindScene(b, sceneName)
    decreases |a|
  {
    if |a| > 0 {
      FindSceneByNames(a[1..], b[1..], sceneName);
    }
  }

  // ---------------------------------------------------------------------------
  // FinalizeARSetup
  // ---------------------------------------------------------------------------

  /** The foreach over the AR scene's roots: each root overwrites the stored
      origin with its own (possibly none) until one has an origin. With no
      roots the previous origin stays. */
  function FirstOrigin(roots: seq<Root>, prev: Option<Origin>): (r: Option<Origin>)
    ensures |roots| == 0 ==> r == prev
    ensures |roots| > 0 && r.Some? ==>
              exists i :: 0 <= i < |roots| && roots[i].origin == r && forall j :: 0 <= j < i ==> roots[j].origin.None?
    ensures |roots| > 0 ==> (r.None? <==> forall i :: 0 <= i < |roots| ==> roots[i].origin.None?)
    decreases |roots|
  {
    if |roots| == 0 then prev
    else if roots[0].origin.Some? then roots[0].origin
    else
      var r := FirstOrigin(roots[1..], roots[0].origin);
      assert forall i :: 1 <= i < |roots| ==> roots[i] == roots[1..][i - 1];
      assert r.Some? ==> exists i :: 1 <= i < |roots| && roots[i].origin == r && forall j :: 0 <= j < i ==> roots[j].origin.None? by {
        if r.Some? {
          var i1 :| 0 <= i1 < |roots[1..]| && roots[1..][i1].origin == r && forall j :: 0 <= j < i1 ==> roots[1..][j].origin.None?;
          assert roots[i1 + 1].origin == r;
        }
      }
      r
  }

  /** What FinalizeARSetup does: GetRootGameObjects of an invalid scene
      throws; otherwise it reports success iff an origin with a camera is
      found, storing the origin, and the camera only once an origin is
      found. */
  datatype Setup = Threw | Finished(ok: bool, origin: Option<Origin>, camera: Option<ObjId>)

  function FinalizeSetup(scenes: seq<Scene>, arScene: string, prevOrigin: Option<Origin>, prevCamera: Option<ObjId>): (r: Setup)
    ensures r.Threw? <==> FindScene(scenes, arScene).None?
    ensures r.Finished? ==> r.origin == FirstOrigin(scenes[FindScene(scenes, arScene).value].roots, prevOrigin)
    ensures r.Finished? ==> (r.ok <==> r.origin.Some? && r.origin.value.camera.Some?)
    ensures r.Finished? && r.origin.Some? ==> r.camera == r.origin.value.camera
    ensures r.Finished? && r.origin.None? ==> r.camera == prevCamera
  {
    match FindScene(scenes, arScene)
    case None => Threw
    case Some(i) =>
      var origin := FirstOrigin(scenes[i].roots, prevOrigin);
      if origin.None? then Finished(false, origin, prevCamera)
      else Finished(origin.value.camera.Some?, origin, origin.value.camera)
  }

  // ---------------------------------------------------------------------------
  // The routines
  // ---------------------------------------------------------------------------

  /** The engine state the component drives, with its own `_sessionOrigin`
      and `_arCamera`. */
  datatype World = World(
    scenes: seq<Scene>,
    xr: XRManager,
    sessionOrigin: Option<Origin>,
    arCamera: Option<ObjId>,
    log: seq<Call>)

  /** What the engine decides during LoadARSceneRoutine: whether an ARSession
      exists with a state other than None, the roots of the AR scene as it
      loads, and whether the XR loader comes up when its initialisation runs. */
  datatype LoadOracle = LoadOracle(sessionLive: bool, arRoots: seq<Root>, cameUp: bool)

  /** CleanupExistingAR. */
  function Cleanup(w: World, sessionLive: bool): (r: World)
    ensures sessionLive ==> r.xr == NoLoader && r.log == w.log + [ResetSession, StopSubsystems, DeinitializeLoader]
    ensures !sessionLive ==> r == w
    ensures r.scenes == w.scenes && r.sessionOrigin == w.sessionOrigin && r.arCamera == w.arCamera
  {
    if sessionLive then
      var reset := w.(log := w.log + [ResetSession]);
      var stopped := reset.(xr := SubsystemsStopped(reset.xr), log := reset.log + [StopSubsystems]);
      stopped.(xr := LoaderDeinitialized(stopped.xr), log := stopped.log + [DeinitializeLoader])
    else w
  }

  /** InitializeARSubsystems as written. The InitializeLoader call is a
      statement whose enumerator nothing iterates, so the manager never sees
      it: the subsystems start only when a loader was already active. */
  function InitSubsystems(w: World): (r: World)
    ensures r.xr.activeLoader == w.xr.activeLoader
    ensures w.xr.Valid() ==> r.xr.Valid() && (r.xr.running <==> r.xr.activeLoader)
    ensures r.log == w.log + (if w.xr.activeLoader then [StartSubsystems] else [])
    ensures r.scenes == w.scenes && r.sessionOrigin == w.sessionOrigin && r.arCamera == w.arCamera
  {
    if w.xr.activeLoader then w.(xr := SubsystemsStarted(w.xr), log := w.log + [StartSubsystems])
    else w
  }

  /** InitializeARSubsystems with the loader initialisation yielded, as the
      other scene switchers do: start only when a loader is active afterwards. */
  function InitSubsystemsYielded(w: World, cameUp: bool): (r: World)
    ensures r.xr.activeLoader <==> w.xr.activeLoader || cameUp
    ensures w.xr.Valid() ==> r.xr.Valid() && (r.xr.running <==> r.xr.activeLoader)
    ensures r.log == w.log + [InitializeLoader] + (if r.xr.activeLoader then [StartSubsystems] else [])
    ensures r.scenes == w.scenes && r.sessionOrigin == w.sessionOrigin && r.arCamera == w.arCamera
  {
    var initialized := w.(xr := LoaderInitialized(w.xr, cameUp), log := w.log + [InitializeLoader]);
    if initialized.xr.activeLoader then
      initialized.(xr := SubsystemsStarted(initialized.xr), log := initialized.log + [StartSubsystems])
    else initialized
  }

  /** LoadARSceneRoutine up to the subsystem start: session cleanup, the
      additive load, the home scene hidden. */
  function LoadPrepared(w: World, arScene: string, homeScene: string, o: LoadOracle): (r: World)
    ensures r.scenes == SetRootsActive(w.scenes + [Scene(arScene, o.arRoots)], homeScene, false)
    ensures r.xr == Cleanup(w, o.sessionLive).xr
    ensures r.log == Cleanup(w, o.sessionLive).log + [LoadScene(arScene, Additive)]
    ensures r.sessionOrigin == w.sessionOrigin && r.arCamera == w.arCamera
  {
    var cleaned := Cleanup(w, o.sessionLive);
    var loaded := cleaned.(scenes := cleaned.scenes + [Scene(arScene, o.arRoots)],
                           log := cleaned.log + [LoadScene(arScene, Additive)]);
    loaded.(scenes := SetRootsActive(loaded.scenes, homeScene, false))
  }

  /** LoadARSceneRoutine after the subsystem start: FinalizeARSetup, then the
      loaded event, which an exception in FinalizeARSetup skips. */
  function LoadFinished(started: World, arScene: string): (r: World)
    ensures r.scenes == started.scenes && r.xr == started.xr
    ensures FindScene(started.scenes, arScene).None? ==> r == started
    ensures FindScene(started.scenes, arScene).Some? ==>
              r.log == started.log + [RaiseARSceneLoaded]
              && r.sessionOrigin == FirstOrigin(started.scenes[FindScene(started.scenes, arScene).value].roots, started.sessionOrigin)
  {
    match FinalizeSetup(started.scenes, arScene, started.sessionOrigin, started.arCamera)
    case Threw => started
    case Finished(_, origin, camera) =>
      started.(sessionOrigin := origin, arCamera := camera, log := started.log + [RaiseARSceneLoaded])
  }

  /** LoadARSceneRoutine as written, apart from the duplicate removal, which
      works on the lookup arrays (see `SwitchARtoMain.LoadARSceneRoutine`).
      The loader is active afterwards only when it was active before and no
      live session was torn down: nothing here brings one up. */
  function LoadRoutine(w: World, arScene: string, homeScene: string, o: LoadOracle): (r: World)
    ensures |r.scenes| == |w.scenes| + 1 && r.scenes[|w.scenes|].name == arScene
    ensures r.xr.activeLoader <==> w.xr.activeLoader && !o.sessionLive
    ensures w.xr.Valid() ==> r.xr.Valid() && (r.xr.running <==> r.xr.activeLoader)
    ensures |r.log| > |w.log| && r.log[..|w.log|] == w.log
    // the loaded event is raised last, whether or not a loader is active
    ensures r.log[|r.log| - 1] == RaiseARSceneLoaded
  {
    var prepared := LoadPrepared(w, arScene, homeScene, o);
    LoadFinishes(prepared, w, arScene, homeScene, o);
    LoadFinished(InitSubsystems(prepared), arScene)
  }

  /** LoadARSceneRoutine with the loader initialisation yielded: the loader
      is active afterwards when it comes up or was kept. */
  function LoadRoutineYielded(w: World, arScene: string, homeScene: string, o: LoadOracle): (r: World)
    ensures |r.scenes| == |w.scenes| + 1 && r.scenes[|w.scenes|].name == arScene
    ensures r.xr.activeLoader <==> o.cameUp || (w.xr.activeLoader && !o.sessionLive)
    ensures w.xr.Valid() ==> r.xr.Valid() && (r.xr.running <==> r.xr.activeLoader)
    ensures |r.log| > |w.log| && r.log[..|w.log|] == w.log
    ensures r.log[|r.log| - 1] == RaiseARSceneLoaded
  {
    var prepared := LoadPrepared(w, arScene, homeScene, o);
    LoadFinishes(prepared, w, arScene, homeScene, o);
    LoadFinished(InitSubsystemsYielded(prepared, o.cameUp), arScene)
  }

  /** The AR scene just loaded is found again after the home scene is
      hidden, so FinalizeARSetup inside the routine never throws. */
  lemma LoadFinishes(prepared: World, w: World, arScene: string, homeScene: string, o: LoadOracle)
    requires prepared == LoadPrepared(w, arScene, homeScene, o)
    ensures |prepared.scenes| == |w.scenes| + 1 && prepared.scenes[|w.scenes|].name == arScene
    ensures FindScene(prepared.scenes, arScene).Some?
  {
    var scenes := w.scenes + [Scene(arScene, o.arRoots)];
    assert scenes[|scenes| - 1].name == arScene;
    FindSceneByNames(prepared.scenes, scenes, arScene);
  }

  /** The defect as written: from a state with no loader, LoadARScene opens
      the AR scene and fires the loaded event but never starts a subsystem,
      whether or not a loader would come up. */
  lemma {:induction false} AsWrittenNeverStartsWithoutLoader(w: World, arScene: string, homeScene: string, o: LoadOracle)
    requires !w.xr.activeLoader && w.xr.Valid()
    ensures var r := LoadRoutine(w, arScene, homeScene, o);
            && !r.xr.activeLoader && !r.xr.running
            && r.log[|r.log| - 1] == RaiseARSceneLoaded
            && StartSubsystems !in r.log[|w.log|..]
  {
    var r := LoadRoutine(w, arScene, homeScene, o);
    LoadRoutineCalls(w, arScene, homeScene, o);
    var cleanup := if o.sessionLive then [ResetSession, StopSubsystems, DeinitializeLoader] else [];
    var added := cleanup + [LoadScene(arScene, Additive)] + [RaiseARSceneLoaded];
    assert r.log == w.log + added;
    assert r.log[|w.log|..] == added;
  }

  /** Corrected, a load from a state with no loader starts the subsystems
      exactly when the loader comes up. */
  lemma {:induction false} YieldedStartsIffLoaderCameUp(w: World, arScene: string, homeScene: string, o: LoadOracle)
    requires !w.xr.activeLoader && w.xr.Valid()
    ensures var r := LoadRoutineYielded(w, arScene, homeScene, o);
            && (r.xr.activeLoader <==> o.cameUp) && (r.xr.running <==> o.cameUp)
            && (StartSubsystems in r.log[|w.log|..] <==> o.cameUp)
  {
    var r := LoadRoutineYielded(w, arScene, homeScene, o);
    LoadRoutineYieldedCalls(w, arScene, homeScene, o);
    var cleanup := if o.sessionLive then [ResetSession, StopSubsystems, DeinitializeLoader] else [];
    var start := if o.cameUp then [StartSubsystems] else [];
    var added := cleanup + [LoadScene(arScene, Additive), InitializeLoader] + start + [RaiseARSceneLoaded];
    assert r.log == w.log + added;
    assert r.log[|w.log|..] == added;
    assert o.cameUp ==> added[|cleanup| + 2] == StartSubsystems;
  }

  /** After ReturnToHome the loader is gone, so as written a later
      LoadARScene never brings AR back. */
  lemma AsWrittenNeverRestartsAfterReturn(w: World, buildPaths: seq<string>, arScene: string, homeScene: string,
                                          homeRoots: seq<Root>, o: LoadOracle)
    requires IsSceneValid(buildPaths, homeScene) && IsSceneValid(buildPaths, arScene)
    ensures var home := ReturnIfValid(w, buildPaths, homeScene, homeRoots);
            var r := LoadIfValid(home, buildPaths, arScene, homeScene, o);
            && !r.xr.activeLoader && !r.xr.running
            && r.log[|r.log| - 1] == RaiseARSceneLoaded
            && StartSubsystems !in r.log[|home.log|..]
  {
    var home := ReturnIfValid(w, buildPaths, homeScene, homeRoots);
    AsWrittenNeverStartsWithoutLoader(home, arScene, homeScene, o);
  }

  /** Corrected, the same return-then-load starts the subsystems exactly
      when the loader comes up. */
  lemma YieldedLoadRestartsAfterReturn(w: World, buildPaths: seq<string>, arScene: string, homeScene: string,
                                       homeRoots: seq<Root>, o: LoadOracle)
    requires IsSceneValid(buildPaths, homeScene)
    ensures var home := ReturnIfValid(w, buildPaths, homeScene, homeRoots);
            var r := LoadRoutineYielded(home, arScene, homeScene, o);
            && (r.xr.activeLoader <==> o.cameUp) && (r.xr.running <==> o.cameUp)
            && (StartSubsystems in r.log[|home.log|..] <==> o.cameUp)
  {
    var home := ReturnIfValid(w, buildPaths, homeScene, homeRoots);
    YieldedStartsIffLoaderCameUp(home, arScene, homeScene, o);
  }

  /** The calls LoadARSceneRoutine makes as written, in order: the session
      cleanup only when a live session was found, the additive load, the
      start only when a loader is still active, the event. */
  lemma LoadRoutineCalls(w: World, arScene: string, homeScene: string, o: LoadOracle)
    ensures var r := LoadRoutine(w, arScene, homeScene, o);
            r.log == w.log
                   + (if o.sessionLive then [ResetSession, StopSubsystems, DeinitializeLoader] else [])
                   + [LoadScene(arScene, Additive)]
                   + (if r.xr.activeLoader then [StartSubsystems] else [])
                   + [RaiseARSceneLoaded]
  {
    LoadFinishes(LoadPrepared(w, arScene, homeScene, o), w, arScene, homeScene, o);
  }

  /** The calls of the corrected routine: as written, with the loader
      initialisation between the load and the start. */
  lemma LoadRoutineYieldedCalls(w: World, arScene: string, homeScene: string, o: LoadOracle)
    ensures var r := LoadRoutineYielded(w, arScene, homeScene, o);
            r.log == w.log
                   + (if o.sessionLive then [ResetSession, StopSubsystems, DeinitializeLoader] else [])
                   + [LoadScene(arScene, Additive), InitializeLoader]
                   + (if r.xr.activeLoader then [StartSubsystems] else [])
                   + [RaiseARSceneLoaded]
  {
    LoadFinishes(LoadPrepared(w, arScene, homeScene, o), w, arScene, homeScene, o);
  }

  /** Within the routine FinalizeARSetup always finds the AR scene it has just
      loaded, so it never throws; and the home scene's roots are hidden. */
  lemma LoadRoutineFinalizes(w: World, arScene: string, homeScene: string, o: LoadOracle)
    ensures var r := LoadRoutine(w, arScene, homeScene, o);
            var i := FindScene(r.scenes, arScene).value;
            && FindScene(r.scenes, arScene).Some?
            && r.sessionOrigin == FirstOrigin(r.scenes[i].roots, w.sessionOrigin)
            && (r.sessionOrigin.Some? ==> r.arCamera == r.sessionOrigin.value.camera)
    ensures var r := LoadRoutine(w, arScene, homeScene, o);
            FindScene(r.scenes, homeScene).Some? ==>
              forall k :: 0 <= k < |r.scenes[FindScene(r.scenes, homeScene).value].roots| ==>
                !r.scenes[FindScene(r.scenes, homeScene).value].roots[k].active
  {
    var scenes := w.scenes + [Scene(arScene, o.arRoots)];
    var hidden := SetRootsActive(scenes, homeScene, false);
    assert scenes[|scenes| - 1].name == arScene;
    FindSceneByNames(hidden, scenes, arScene);
    FindSceneByNames(hidden, scenes, homeScene);
  }

  /** When no AR scene was open before, the origin comes from the roots just
      loaded: the first root holding one, and none when no root does. */
  lemma FreshLoadUsesLoadedRoots(w: World, arScene: string, homeScene: string, o: LoadOracle)
    requires forall j :: 0 <= j < |w.scenes| ==> w.scenes[j].name != arScene
    requires homeScene != arScene && |o.arRoots| > 0
    ensures var r := LoadRoutine(w, arScene, homeScene, o);
            r.sessionOrigin == FirstOrigin(o.arRoots, w.sessionOrigin)
            && (r.sessionOrigin.None? <==> forall k :: 0 <= k < |o.arRoots| ==> o.arRoots[k].origin.None?)
  {
    var scenes := w.scenes + [Scene(arScene, o.arRoots)];
    var hidden := SetRootsActive(scenes, homeScene, false);
    assert FindScene(scenes, arScene) == Some(|w.scenes|);
    FindSceneByNames(hidden, scenes, arScene);
    LoadRoutineFinalizes(w, arScene, homeScene, o);
    assert hidden[|w.scenes|] == scenes[|w.scenes|];
  }

  /** UnloadARSceneRoutine followed by CleanMemory: stop and deinitialise,
      single-load home, clear the references, raise the unloaded event. */
  function UnloadRoutine(w: World, homeScene: string, homeRoots: seq<Root>): (r: World)
    ensures r.xr == NoLoader && !r.xr.running
    ensures r.scenes == [Scene(homeScene, homeRoots)]
    ensures r.sessionOrigin.None? && r.arCamera.None?
    ensures r.log == w.log + [StopSubsystems, DeinitializeLoader, LoadScene(homeScene, Single), RaiseARSceneUnloaded]
  {
    var stopped := w.(xr := SubsystemsStopped(w.xr), log := w.log + [StopSubsystems]);
    var deinit := stopped.(xr := LoaderDeinitialized(stopped.xr), log := stopped.log + [DeinitializeLoader]);
    var home := deinit.(scenes := [Scene(homeScene, homeRoots)], log := deinit.log + [LoadScene(homeScene, Single)]);
    var cleaned := home.(sessionOrigin := None, arCamera := None);
    cleaned.(log := cleaned.log + [RaiseARSceneUnloaded])
  }

  /** LoadARScene: nothing at all unless the AR scene name is valid. */
  function LoadIfValid(w: World, buildPaths: seq<string>, arScene: string, homeScene: string, o: LoadOracle): (r: World)
    ensures !IsSceneValid(buildPaths, arScene) ==> r == w
    ensures IsSceneValid(buildPaths, arScene) ==> r == LoadRoutine(w, arScene, homeScene, o)
  {
    if !IsSceneValid(buildPaths, arScene) then w else LoadRoutine(w, arScene, homeScene, o)
  }

  /** ReturnToHome: nothing at all unless the home scene name is valid. */
  function ReturnIfValid(w: World, buildPaths: seq<string>, homeScene: string, homeRoots: seq<Root>): (r: World)
    ensures !IsSceneValid(buildPaths, homeScene) ==> r == w
    ensures IsSceneValid(buildPaths, homeScene) ==> r == UnloadRoutine(w, homeScene, homeRoots)
  {
    if !IsSceneValid(buildPaths, homeScene) then w else UnloadRoutine(w, homeScene, homeRoots)
  }

  /** A load followed by a return home ends with no loader, only the home
      scene open and no stale origin, whatever the load found. */
  lemma RoundTripEndsClean(w: World, buildPaths: seq<string>, arScene: string, homeScene: string,
                           o: LoadOracle, homeRoots: seq<Root>)
    requires IsSceneValid(buildPaths, homeScene)
    ensures var r := ReturnIfValid(LoadIfValid(w, buildPaths, arScene, homeScene, o), buildPaths, homeScene, homeRoots);
            r.xr == NoLoader && r.scenes == [Scene(homeScene, homeRoots)] && r.sessionOrigin.None? && r.arCamera.None?
  {
  }

  // ---------------------------------------------------------------------------
  // The singleton
  // ---------------------------------------------------------------------------

  /** InitializeSingleton: a second instance destroys itself and leaves the
      registered one in place; otherwise this object registers and persists. */
  function FirstWins(g: Registry, self: ObjId): (r: Registry)
    ensures g.instance.Some? && g.instance.value != self ==>
              r.instance == g.instance && r.destroyed == g.destroyed + {self} && r.persistent == g.persistent
    ensures g.instance.None? || g.instance.value == self ==>
              r.instance == Some(self) && r.persistent == g.persistent + {self} && r.destroyed == g.destroyed
  {
    if g.instance.Some? && g.instance.value != self then g.(destroyed := g.destroyed + {self})
    else g.(instance := Some(self), persistent := g.persistent + {self})
  }

  function AwakeAll(g: Registry, objs: seq<ObjId>): Registry
    decreases |objs|
  {
    if |objs| == 0 then g else AwakeAll(FirstWins(g, objs[0]), objs[1..])
  }

  /** Of any objects awakening one after the other, the first stays the
      instance and every later, different one is destroyed. */
  lemma {:induction false} FirstAwakenedStays(g: Registry, objs: seq<ObjId>)
    requires g.instance.Some?
    ensures AwakeAll(g, objs).instance == g.instance
    ensures forall i :: 0 <= i < |objs| && objs[i] != g.instance.value ==> objs[i] in AwakeAll(g, objs).destroyed
    ensures g.destroyed <= AwakeAll(g, objs).destroyed
    decreases |objs|
  {
    if |objs| > 0 {
      var next := FirstWins(g, objs[0]);
      FirstAwakenedStays(next, objs[1..]);
      assert forall i :: 1 <= i < |objs| ==> objs[i] == objs[1..][i - 1];
    }
  }

  lemma FirstWinsFromEmpty(objs: seq<ObjId>)
    requires |objs| > 0
    ensures AwakeAll(EmptyRegistry, objs).instance == Some(objs[0])
    ensures objs[0] in AwakeAll(EmptyRegistry, objs).persistent
    ensures forall i :: 0 <= i < |objs| && objs[i] != objs[0] ==> objs[i] in AwakeAll(EmptyRegistry, objs).destroyed
  {
    var first := FirstWins(EmptyRegistry, objs[0]);
    FirstAwakenedStays(first, objs[1..]);
    PersistentGrows(first, objs[1..]);
    assert forall i :: 1 <= i < |objs| ==> objs[i] == objs[1..][i - 1];
  }

  lemma {:induction false} PersistentGrows(g: Registry, objs: seq<ObjId>)
    ensures g.persistent <= AwakeAll(g, objs).persistent
    decreases |objs|
  {
    if |objs| > 0 {
      PersistentGrows(FirstWins(g, objs[0]), objs[1..]);
    }
  }

  // ---------------------------------------------------------------------------
  // The component
  // ---------------------------------------------------------------------------

  class SwitchARtoMain {
    const arScene: string
    const homeScene: string
    /** SceneUtility.GetScenePathByBuildIndex for every build index. */
    const buildPaths: seq<string>
    var scenes: seq<Scene>
    var xr: XRManager
    var sessionOrigin: Option<Origin>
    var arCamera: Option<ObjId>
    var log: seq<Call>

    function Model(): World
      reads this
    {
      World(scenes, xr, sessionOrigin, arCamera, log)
    }

    constructor (arScene: string, homeScene: string, buildPaths: seq<string>, w: World)
      ensures this.arScene == arScene && this.homeScene == homeScene && this.buildPaths == buildPaths
      ensures Model() == w
    {
      this.arScene := arScene;
      this.homeScene := homeScene;
      this.buildPaths := buildPaths;
      scenes, xr, sessionOrigin, arCamera, log := w.scenes, w.xr, w.sessionOrigin, w.arCamera, w.log;
    }

    method LoadARScene(o: LoadOracle, listeners: array<bool>, eventSystems: array<bool>)
      requires listeners != eventSystems
      modifies this, listeners, eventSystems
      ensures Model() == LoadIfValid(old(Model()), buildPaths, arScene, homeScene, o)
      ensures IsSceneValid(buildPaths, arScene) ==>
                listeners[..] == KeepFirst(old(listeners[..])) && eventSystems[..] == KeepFirst(old(eventSystems[..]))
      ensures !IsSceneValid(buildPaths, arScene) ==> unchanged(listeners, eventSystems)
    {
      if !IsSceneValid(buildPaths, arScene) {
        return;
      }
      LoadARSceneRoutine(o, listeners, eventSystems);
    }

    method ReturnToHome(homeRoots: seq<Root>)
      modifies this
      ensures Model() == ReturnIfValid(old(Model()), buildPaths, homeScene, homeRoots)
    {
      if !IsSceneValid(buildPaths, homeScene) {
        return;
      }
      UnloadARSceneRoutine(homeRoots);
    }

    /** `listeners` and `eventSystems` are what the two FindObjectsOfType
        lookups return after the AR scene has loaded and home is hidden. */
    method LoadARSceneRoutine(o: LoadOracle, listeners: array<bool>, eventSystems: array<bool>)
      requires listeners != eventSystems
      modifies this, listeners, eventSystems
      ensures Model() == LoadRoutine(old(Model()), arScene, homeScene, o)
      ensures listeners[..] == KeepFirst(old(listeners[..]))
      ensures eventSystems[..] == KeepFirst(old(eventSystems[..]))
    {
      CleanupExistingAR(o.sessionLive);
      scenes := scenes + [Scene(arScene, o.arRoots)];
      log := log + [LoadScene(arScene, Additive)];
      HideSceneRootObjects(homeScene);
      DisableAllButFirst(listeners);
      DisableAllButFirst(eventSystems);
      InitializeARSubsystems();
      var setup := FinalizeARSetup();
      if setup.Threw? {
        return;
      }
      log := log + [RaiseARSceneLoaded];
    }

    method CleanupExistingAR(sessionLive: bool)
      modifies this
      ensures Model() == Cleanup(old(Model()), sessionLive)
    {
      if sessionLive {
        log := log + [ResetSession];
        xr := SubsystemsStopped(xr);
        log := log + [StopSubsystems];
        xr := LoaderDeinitialized(xr);
        log := log + [DeinitializeLoader];
      }
    }

    /** The InitializeLoader call, never iterated, changes nothing. */
    method InitializeARSubsystems()
      modifies this
      ensures Model() == InitSubsystems(old(Model()))
    {
      if !xr.activeLoader {
        return;
      }
      xr := SubsystemsStarted(xr);
      log := log + [StartSubsystems];
    }

    method ShowSceneRootObjects(sceneName: string)
      modifies this
      ensures Model() == old(Model()).(scenes := SetRootsActive(old(scenes), sceneName, true))
    {
      SetSceneRootsActive(sceneName, true);
    }

    method HideSceneRootObjects(sceneName: string)
      modifies this
      ensures Model() == old(Model()).(scenes := SetRootsActive(old(scenes), sceneName, false))
    {
      SetSceneRootsActive(sceneName, false);
    }

    /** The loop both Show and Hide run over the scene's roots. */
    method SetSceneRootsActive(sceneName: string, active: bool)
      modifies this
      ensures Model() == old(Model()).(scenes := SetRootsActive(old(scenes), sceneName, active))
    {
      var found := FindScene(scenes, sceneName);
      if found.None? {
        return;
      }
      var i := found.value;
      var roots := scenes[i].roots;
      var k := 0;
      while k < |roots|
        invariant 0 <= k <= |roots| == |scenes[i].roots|
        invariant forall j :: 0 <= j < k ==> roots[j] == scenes[i].roots[j].(active := active)
        invariant forall j :: k <= j < |roots| ==> roots[j] == scenes[i].roots[j]
      {
        roots := roots[k := roots[k].(active := active)];
        k := k + 1;
      }
      assert roots == AllRootsActive(scenes[i].roots, active);
      scenes := scenes[i := scenes[i].(roots := roots)];
    }

    method FinalizeARSetup() returns (r: Setup)
      modifies this
      ensures r == FinalizeSetup(old(scenes), arScene, old(sessionOrigin), old(arCamera))
      ensures r.Threw? ==> Model() == old(Model())
      ensures r.Finished? ==> Model() == old(Model()).(sessionOrigin := r.origin, arCamera := r.camera)
    {
      var found := FindScene(scenes, arScene);
      if found.None? {
        return Threw;
      }
      var roots := scenes[found.value].roots;
      var k := 0;
      while k < |roots|
        invariant 0 <= k <= |roots|
        invariant FirstOrigin(roots, old(sessionOrigin)) == FirstOrigin(roots[k..], sessionOrigin)
        invariant k > 0 ==> sessionOrigin.None?
        invariant Model() == old(Model()).(sessionOrigin := sessionOrigin)
      {
        assert roots[k..][1..] == roots[k + 1..];
        sessionOrigin := roots[k].origin;
        if sessionOrigin.Some? {
          break;
        }
        k := k + 1;
      }
      if sessionOrigin.None? {
        return Finished(false, sessionOrigin, arCamera);
      }
      arCamera := sessionOrigin.value.camera;
      if arCamera.None? {
        return Finished(false, sessionOrigin, arCamera);
      }
      return Finished(true, sessionOrigin, arCamera);
    }

    method UnloadARSceneRoutine(homeRoots: seq<Root>)
      modifies this
      ensures Model() == UnloadRoutine(old(Model()), homeScene, homeRoots)
    {
      xr := SubsystemsStopped(xr);
      log := log + [StopSubsystems];
      xr := LoaderDeinitialized(xr);
      log := log + [DeinitializeLoader];
      scenes := [Scene(homeScene, homeRoots)];
      log := log + [LoadScene(homeScene, Single)];
      CleanMemory();
      log := log + [RaiseARSceneUnloaded];
    }

    method CleanMemory()
      modifies this
      ensures Model() == old(Model()).(sessionOrigin := None, arCamera := None)
    {
      sessionOrigin := None;
      arCamera := None;
    }
  }

  /** The static `Instance` field and the objects' fates. */
  class SwitchRegistry {
    var instance: Option<ObjId>
    var persistent: set<ObjId>
    var destroyed: set<ObjId>

    constructor ()
      ensures instance.None? && persistent == {} && destroyed == {}
    {
      instance, persistent, destroyed := None, {}, {};
    }

    /** Awake of the component on object `self`. */
    method InitializeSingleton(self: ObjId)
      modifies this
      ensures Registry(instance, persistent, destroyed)
           == FirstWins(old(Registry(instance, persistent, destroyed)), self)
    {
      if instance.Some? && instance.value != self {
        destroyed := destroyed + {self};
        return;
      }
      instance := Some(self);
      persistent := persistent + {self};
    }
  }
}
