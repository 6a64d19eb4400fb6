/** The engine as seen by the controllers: opaque geometry, the XR manager's
    loader/subsystem state machine, a log of the engine calls a routine makes,
    and the "keep the first, disable the rest" rule shared by every duplicate
    remover. */
module Engine {

  datatype Option<T> = None | Some(value: T)

  /** Identity of a game object instance. */
  type ObjId = nat

  /** Identity of a prefab asset. */
  type PrefabId = nat

  /** Positions and rotations are opaque tokens: the model stores and copies
      them, it never computes with them. */
  type Position = int
  type Rotation = int
  datatype Pose = Pose(position: Position, rotation: Rotation)

  /** Vector3.zero and Quaternion.identity. */
  const ZeroPosition: Position := 0
  const IdentityRotation: Rotation := 0

  datatype LoadMode = Single | Additive

  // ---------------------------------------------------------------------------
  // XR manager (XRGeneralSettings.Instance.Manager)
  // ---------------------------------------------------------------------------

  /** `activeLoader` is Manager.activeLoader != null; `running` says the
      loader's subsystems have been started and not stopped since. */
  datatype XRManager = XRManager(activeLoader: bool, running: bool) {
    /** Subsystems only run under an active loader. */
    predicate Valid() {
      running ==> activeLoader
    }
  }

  const NoLoader := XRManager(false, false)

  /** InitializeLoader: keeps an already active loader; otherwise the loader
      comes up or not as the platform decides (`cameUp`). */
  function LoaderInitialized(m: XRManager, cameUp: bool): (r: XRManager)
    ensures m.Valid() ==> r.Valid() && r.running == m.running
    ensures r.activeLoader <==> m.activeLoader || cameUp
  {
    if m.activeLoader then m else XRManager(cameUp, false)
  }

  /** StartSubsystems: starts them only if there is an active loader. */
  function SubsystemsStarted(m: XRManager): (r: XRManager)
    ensures r.Valid()
    ensures r.activeLoader == m.activeLoader
    ensures r.running <==> m.activeLoader
  {
    m.(running := m.activeLoader)
  }

  /** StopSubsystems. */
  function SubsystemsStopped(m: XRManager): (r: XRManager)
    ensures m.Valid() ==> r.Valid()
    ensures r.activeLoader == m.activeLoader && !r.running
  {
    m.(running := false)
  }

  /** DeinitializeLoader: stops what runs and drops the loader. */
  function LoaderDeinitialized(m: XRManager): (r: XRManager)
    ensures r == NoLoader
  {
    NoLoader
  }

  // ---------------------------------------------------------------------------
  // Engine calls, in the order a routine makes them
  // ---------------------------------------------------------------------------

  datatype Call =
    | InitializeLoader
    | StartSubsystems
    | StopSubsystems
    | DeinitializeLoader
    | ResetSession
    | LoadScene(name: string, mode: LoadMode)
    | DestroyObject(id: ObjId)
    | RaiseARSceneLoaded
    | RaiseARSceneUnloaded

  /** Position of the first occurrence of `c` in `log`, |log| when absent. */
  function IndexOfCall(log: seq<Call>, c: Call): (r: nat)
    ensures r <= |log|
    ensures r < |log| ==> log[r] == c
    ensures forall k :: 0 <= k < r ==> log[k] != c
  {
    if |log| == 0 then 0
    else if log[0] == c then 0
    else 1 + IndexOfCall(log[1..], c)
  }

  // ---------------------------------------------------------------------------
  // Keep the first, disable the rest
  // ---------------------------------------------------------------------------

  /** The enabled/active flags after every element but the first has been
      switched off; the first keeps whatever it had. */
  function KeepFirst(flags: seq<bool>): (r: seq<bool>)
    ensures |r| == |flags|
    ensures |flags| > 0 ==> r[0] == flags[0]
    ensures forall i :: 0 < i < |r| ==> !r[i]
  {
    if |flags| == 0 then [] else [flags[0]] + seq(|flags| - 1, _ => false)
  }

  /** Number of elements switched on. */
  function CountOn(flags: seq<bool>): (n: nat)
    ensures n <= |flags|
  {
    if |flags| == 0 then 0 else (if flags[0] then 1 else 0) + CountOn(flags[1..])
  }

  lemma {:induction false} AllOffCountsZero(flags: seq<bool>)
    requires forall i :: 0 <= i < |flags| ==> !flags[i]
    ensures CountOn(flags) == 0
  {
    if |flags| > 0 {
      AllOffCountsZero(flags[1..]);
    }
  }

  /** After the rule at most one element is on: exactly one when the first
      was on, none when it was off. The rule does not switch anything on. */
  lemma KeepFirstLeavesAtMostOne(flags: seq<bool>)
    ensures CountOn(KeepFirst(flags)) == (if |flags| > 0 && flags[0] then 1 else 0)
  {
    var r := KeepFirst(flags);
    if |flags| > 0 {
      AllOffCountsZero(r[1..]);
    }
  }

  /** Applying the rule twice is applying it once. */
  lemma KeepFirstIdempotent(flags: seq<bool>)
    ensures KeepFirst(KeepFirst(flags)) == KeepFirst(flags)
  {
  }

  /** With at most one element the rule changes nothing, so the variants that
      only act when there are more than one agree with it. */
  lemma KeepFirstOfAtMostOne(flags: seq<bool>)
    requires |flags| <= 1
    ensures KeepFirst(flags) == flags
  {
  }

  /** The disabling loop shared by the duplicate removers, over the array a
      FindObjectsOfType lookup returns: walks from index 1 and switches each
      element off, leaving element 0 as it was. */
  method DisableAllButFirst(flags: array<bool>)
    modifies flags
    ensures flags[..] == KeepFirst(old(flags[..]))
  {
    var i := 1;
    while i < flags.Length
      invariant 1 <= i
      invariant flags.Length > 0 ==> flags[0] == old(flags[0])
      invariant forall k :: 0 < k < i && k < flags.Length ==> !flags[k]
    {
      flags[i] := false;
      i := i + 1;
    }
  }

  // ---------------------------------------------------------------------------
  // Singletons held in a static field
  // ---------------------------------------------------------------------------

  /** A static `Instance` field, the objects marked DontDestroyOnLoad and the
      objects destroyed so far. */
  datatype Registry = Registry(instance: Option<ObjId>, persistent: set<ObjId>, destroyed: set<ObjId>)

  const EmptyRegistry := Registry(None, {}, {})

  /** No two awakenings are of the same object. */
  predicate Distinct(objs: seq<ObjId>) {
    forall i, j :: 0 <= i < j < |objs| ==> objs[i] != objs[j]
  }
}
