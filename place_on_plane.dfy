/** PlaceOnPlane: an always-visible indicator that sits at the last valid
    raycast pose, and one object placed at, or moved to, that pose on a tap. */
module PlanePlacement {
  import opened Engine

  /** What Update reads in one frame: the first raycast hit's position, if
      any; the rotation that faces the main camera from that position
      (Quaternion.LookRotation of the flattened offset, computed by the
      engine); and whether touch 0 began this frame. */
  datatype Frame = Frame(hit: Option<Position>, facing: Rotation, touchBegan: bool)

  datatype State = State(
    indicator: Pose,           // placementIndicator.transform
    lastValid: Pose,           // lastValidPosition, lastValidRotation
    spawned: Option<Pose>,     // spawnedObject and its transform
    instantiated: nat)         // how many objects Instantiate(placedPrefab, ...) has made

  /** The indicator shows the last valid pose, and at most one object was
      ever instantiated, which is the tracked one. */
  predicate Inv(s: State) {
    s.indicator == s.lastValid && s.instantiated <= 1 && (s.spawned.Some? <==> s.instantiated == 1)
  }

  /** Awake: the indicator is instantiated at Vector3.zero with
      Quaternion.identity and its pose becomes the last valid one. */
  function Awoken(): (r: State)
    ensures Inv(r)
    ensures r.lastValid == Pose(ZeroPosition, IdentityRotation) && r.spawned.None?
  {
    var indicator := Pose(ZeroPosition, IdentityRotation);
    State(indicator, indicator, None, 0)
  }

  /** PlaceOrMoveObject: instantiate at the pose when nothing is spawned,
      otherwise move the spawned object there. */
  function PlaceOrMove(s: State, pose: Pose): (r: State)
    ensures r.spawned == Some(pose)
    ensures r.instantiated == (if s.spawned.None? then s.instantiated + 1 else s.instantiated)
    ensures r.indicator == s.indicator && r.lastValid == s.lastValid
  {
    if s.spawned.None? then s.(spawned := Some(pose), instantiated := s.instantiated + 1)
    else s.(spawned := Some(pose))
  }

  /** Update. */
  function Step(s: State, f: Frame): (r: State)
    // a hit becomes the last valid pose; a miss keeps it
    ensures f.hit.Some? ==> r.lastValid == Pose(f.hit.value, f.facing)
    ensures f.hit.None? ==> r.lastValid == s.lastValid
    // the indicator always ends at the last valid pose
    ensures r.indicator == r.lastValid
    // a began touch puts the one object exactly at the last valid pose
    ensures f.touchBegan ==> r.spawned == Some(r.lastValid)
    ensures !f.touchBegan ==> r.spawned == s.spawned && r.instantiated == s.instantiated
    ensures Inv(s) ==> Inv(r)
  {
    var tracked := match f.hit
      case Some(p) => s.(indicator := Pose(p, f.facing), lastValid := Pose(p, f.facing))
      case None => s.(indicator := s.lastValid);
    if f.touchBegan then PlaceOrMove(tracked, tracked.lastValid) else tracked
  }

  function Run(s: State, frames: seq<Frame>): State
    decreases |frames|
  {
    if |frames| == 0 then s else Run(Step(s, frames[0]), frames[1..])
  }

  predicate NoHits(frames: seq<Frame>) {
    forall i :: 0 <= i < |frames| ==> frames[i].hit.None?
  }

  /** Until the first hit the last valid pose is still the origin with the
      identity rotation, and a tap places the object there. */
  lemma {:induction false} NoHitKeepsOrigin(s: State, frames: seq<Frame>)
    requires NoHits(frames)
    ensures Run(s, frames).lastValid == s.lastValid
    decreases |frames|
  {
    if |frames| > 0 {
      NoHitKeepsOrigin(Step(s, frames[0]), frames[1..]);
    }
  }

  lemma BeforeAnyHitAtOrigin(frames: seq<Frame>)
    requires NoHits(frames)
    ensures Run(Awoken(), frames).lastValid == Pose(ZeroPosition, IdentityRotation)
  {
    NoHitKeepsOrigin(Awoken(), frames);
  }

  /** Over any frames, at most one object is ever instantiated. */
  lemma {:induction false} RunKeepsInv(s: State, frames: seq<Frame>)
    requires Inv(s)
    ensures Inv(Run(s, frames)) && Run(s, frames).instantiated <= 1
    decreases |frames|
  {
    if |frames| > 0 {
      RunKeepsInv(Step(s, frames[0]), frames[1..]);
    }
  }

  /** The controller as the engine runs it. */
  class PlaceOnPlane {
    var indicator: Pose
    var lastValidPosition: Position
    var lastValidRotation: Rotation
    var spawned: Option<Pose>
    var instantiated: nat

    function Model(): State
      reads this
    {
      State(indicator, Pose(lastValidPosition, lastValidRotation), spawned, instantiated)
    }

    predicate Valid()
      reads this
    {
      Inv(Model())
    }

    /** Awake. */
    constructor ()
      ensures Valid() && Model() == Awoken()
    {
      indicator := Pose(ZeroPosition, IdentityRotation);
      spawned := None;
      instantiated := 0;
      new;
      lastValidPosition := indicator.position;
      lastValidRotation := indicator.rotation;
    }

    method Update(f: Frame)
      requires Valid()
      modifies this
      ensures Valid() && Model() == Step(old(Model()), f)
    {
      if f.hit.Some? {
        indicator := indicator.(position := f.hit.value);
        indicator := indicator.(rotation := f.facing);
        lastValidPosition := f.hit.value;
        lastValidRotation := f.facing;
      } else {
        indicator := indicator.(position := lastValidPosition);
        indicator := indicator.(rotation := lastValidRotation);
      }
      if f.touchBegan {
        PlaceOrMoveObject(lastValidPosition, lastValidRotation);
      }
    }

    method PlaceOrMoveObject(position: Position, rotation: Rotation)
      modifies this
      ensures Model() == PlaceOrMove(old(Model()), Pose(position, rotation))
    {
      if spawned.None? {
        spawned := Some(Pose(position, rotation));
        instantiated := instantiated + 1;
      } else {
        spawned := Some(Pose(position, rotation));
      }
    }
  }
}
