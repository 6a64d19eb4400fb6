/** PlacementManager: a tap places one object on the ground-plane stage, then
    touches drive an interaction state machine (move, two-finger scale and
    rotate). Distances, angles, scales and touch positions are opaque values
    the engine measures; the model records which of them is stored where. */
module GesturePlacement {
  import opened Engine

  datatype InteractionState = Placing | Placed | Moving | Scaling | Rotating

  datatype TouchPhase = Began | Moved | Stationary | Ended | Canceled

  /** What Update reads from the engine in one frame: the phases of the
      current touches (Input.GetTouch(i).phase), whether the ground-plane
      stage exists and is active in the hierarchy, the distance and angle
      between touches 0 and 1, the position of touch 0 and the placed
      object's current local scale. */
  datatype Frame = Frame(
    touches: seq<TouchPhase>,
    stageActive: bool,
    distance: int,
    angle: int,
    touchPosition: int,
    objectScale: int)

  datatype State = State(
    current: InteractionState,    // currentState
    isPlaced: bool,               // isPlaced
    placedObject: Option<ObjId>,  // placedObject (None once destroyed)
    live: set<ObjId>,             // objects this controller instantiated and has not destroyed
    nextId: ObjId,
    allowMultiple: bool,          // allowMultipleObjects
    touchStart: int,              // touchStartPosition
    initialDistance: int,         // initialDistance
    initialScale: int,            // initialScale
    initialRotation: int)         // initialRotation

  /** Leaving Placing sets isPlaced and the placed object together, and
      ResetPlacement clears them together: isPlaced is exactly "not Placing",
      and exactly one object is alive while it holds. */
  predicate Inv(s: State) {
    && (s.isPlaced <==> s.current != Placing)
    && (match s.placedObject
        case None => !s.isPlaced && s.live == {}
        case Some(id) => s.isPlaced && s.live == {id})
    && (forall id :: id in s.live ==> id < s.nextId)
  }

  /** The state at start-up: nothing placed. */
  function Initial(allowMultiple: bool): (r: State)
    ensures Inv(r) && r.current == Placing && !r.isPlaced
  {
    State(Placing, false, None, {}, 0, allowMultiple, 0, 0, 0, 0)
  }

  predicate BeganFirst(f: Frame) {
    |f.touches| > 0 && f.touches[0] == Began
  }

  /** HandlePlacement. */
  function Placement(s: State, f: Frame): (r: State)
    requires s.current == Placing
    ensures s.isPlaced && !s.allowMultiple ==> r == s
    ensures r != s <==> !(s.isPlaced && !s.allowMultiple) && BeganFirst(f) && f.stageActive
    // a placement instantiates one fresh object, tracks it and enters Placed; nothing else changes
    ensures r != s ==> r == s.(placedObject := Some(s.nextId), live := s.live + {s.nextId},
                               nextId := s.nextId + 1, isPlaced := true, current := Placed)
    ensures Inv(s) ==> Inv(r)
  {
    if s.isPlaced && !s.allowMultiple then s
    else if BeganFirst(f) && f.stageActive then
      s.(placedObject := Some(s.nextId), live := s.live + {s.nextId}, nextId := s.nextId + 1,
         isPlaced := true, current := Placed)
    else s
  }

  /** HandleObjectInteraction. */
  function Interaction(s: State, f: Frame): (r: State)
    requires s.current == Placed
    ensures s.placedObject.None? ==> r == s
    ensures r.current == Moving <==> s.placedObject.Some? && |f.touches| == 1 && f.touches[0] == Began
    ensures r.current == Scaling <==>
              s.placedObject.Some? && |f.touches| == 2 && (f.touches[0] == Began || f.touches[1] == Began)
    // a one-finger start stores the touch position, a two-finger start the
    // three gesture baselines; nothing else changes
    ensures r.current == Moving ==> r == s.(touchStart := f.touchPosition, current := Moving)
    ensures r.current == Scaling ==>
              r == s.(initialDistance := f.distance, initialScale := f.objectScale,
                      initialRotation := f.angle, current := Scaling)
    ensures r.current != Moving && r.current != Scaling ==> r == s
    ensures Inv(s) ==> Inv(r)
  {
    if s.placedObject.None? then s
    else if |f.touches| == 1 then
      if f.touches[0] == Began then s.(touchStart := f.touchPosition, current := Moving) else s
    else if |f.touches| == 2 then
      if f.touches[0] == Began || f.touches[1] == Began then
        s.(initialDistance := f.distance, initialScale := f.objectScale,
           initialRotation := f.angle, current := Scaling)
      else s
    else s
  }

  /** HandleMovement: back to Placed when the single touch is gone or ended. */
  function Movement(s: State, f: Frame): (r: State)
    requires s.current == Moving
    ensures r.current == Placed <==> |f.touches| != 1 || f.touches[0] == Ended
    ensures r.current != Placed ==> r == s
    ensures r.(current := s.current) == s
  {
    if |f.touches| != 1 then s.(current := Placed)
    else if f.touches[0] == Ended then s.(current := Placed)
    else s
  }

  /** HandleScaling, the state and baseline part: the gesture ends when the
      touch count leaves 2 or a touch ends; otherwise the distance and angle
      baselines follow the fingers while initialScale keeps the value read
      when the gesture began. */
  function ScalingStep(s: State, f: Frame): (r: State)
    requires s.current == Scaling
    ensures r.current == Placed <==>
              |f.touches| != 2 || f.touches[0] == Ended || f.touches[1] == Ended
    ensures r.current == Placed ==> r == s.(current := Placed)
    ensures r.current != Placed ==>
              r == s.(initialDistance := f.distance, initialRotation := f.angle)
    ensures r.initialScale == s.initialScale
  {
    if |f.touches| != 2 then s.(current := Placed)
    else if f.touches[0] == Ended || f.touches[1] == Ended then s.(current := Placed)
    else s.(initialDistance := f.distance, initialRotation := f.angle)
  }

  /** HandleRotation: straight back to Placed. */
  function RotationStep(s: State): (r: State)
    ensures r.current == Placed && r.(current := s.current) == s
  {
    s.(current := Placed)
  }

  /** Update: dispatch on the current state. */
  function Step(s: State, f: Frame): State {
    match s.current
    case Placing => Placement(s, f)
    case Placed => Interaction(s, f)
    case Moving => Movement(s, f)
    case Scaling => ScalingStep(s, f)
    case Rotating => RotationStep(s)
  }

  /** ResetPlacement. */
  function Reset(s: State): (r: State)
    ensures r.current == Placing && !r.isPlaced && r.placedObject.None?
    ensures Inv(s) ==> Inv(r) && r.live == {}
    ensures s.placedObject.Some? ==> s.placedObject.value !in r.live
    // only the tracked object is destroyed, and the flags and state go back to placing
    ensures r == s.(live := if s.placedObject.Some? then s.live - {s.placedObject.value} else s.live,
                    placedObject := None, isPlaced := false, current := Placing)
  {
    var destroyed := match s.placedObject
      case None => s.live
      case Some(id) => s.live - {id};
    s.(live := destroyed, placedObject := None, isPlaced := false, current := Placing)
  }

  /** Every frame keeps the invariant, so `currentState != Placing` always
      implies `isPlaced`, and at most one object is alive. */
  lemma StepKeepsInv(s: State, f: Frame)
    requires Inv(s)
    ensures Inv(Step(s, f))
  {
  }

  /** No transition enters Rotating. */
  lemma NeverEntersRotating(s: State, f: Frame)
    requires s.current != Rotating
    ensures Step(s, f).current != Rotating
  {
  }

  /** Under the invariant Placing never sees isPlaced, so the
      `isPlaced && !allowMultipleObjects` guard never fires and the flag has
      no effect on any frame. */
  lemma AllowMultipleHasNoEffect(s: State, f: Frame)
    requires Inv(s)
    ensures Step(s, f) == Step(s.(allowMultiple := !s.allowMultiple), f).(allowMultiple := s.allowMultiple)
  {
  }

  function Run(s: State, frames: seq<Frame>): State
    decreases |frames|
  {
    if |frames| == 0 then s else Run(Step(s, frames[0]), frames[1..])
  }

  /** Over any sequence of frames from start-up, the state is Placing exactly
      when nothing is placed, and at most one placed object is alive. */
  lemma {:induction false} RunKeepsInv(s: State, frames: seq<Frame>)
    requires Inv(s)
    ensures Inv(Run(s, frames))
    ensures |Run(s, frames).live| <= 1
    ensures Run(s, frames).current != Placing ==> Run(s, frames).isPlaced
    decreases |frames|
  {
    if |frames| == 0 {
    } else {
      StepKeepsInv(s, frames[0]);
      RunKeepsInv(Step(s, frames[0]), frames[1..]);
    }
  }

  /** The controller as the engine runs it. */
  class PlacementManager {
    const allowMultipleObjects: bool
    var currentState: InteractionState
    var isPlaced: bool
    var placedObject: Option<ObjId>
    var live: set<ObjId>
    var nextId: ObjId
    var touchStartPosition: int
    var initialDistance: int
    var initialScale: int
    var initialRotation: int

    function Model(): State
      reads this
    {
      State(currentState, isPlaced, placedObject, live, nextId, allowMultipleObjects,
            touchStartPosition, initialDistance, initialScale, initialRotation)
    }

    predicate Valid()
      reads this
    {
      Inv(Model())
    }

    constructor (allowMultipleObjects: bool)
      ensures Valid() && Model() == Initial(allowMultipleObjects)
    {
      this.allowMultipleObjects := allowMultipleObjects;
      currentState := Placing;
      isPlaced := false;
      placedObject := None;
      live := {};
      nextId := 0;
      touchStartPosition, initialDistance, initialScale, initialRotation := 0, 0, 0, 0;
    }

    method Update(f: Frame)
      requires Valid()
      modifies this
      ensures Valid() && Model() == Step(old(Model()), f)
    {
      match currentState
      case Placing => HandlePlacement(f);
      case Placed => HandleObjectInteraction(f);
      case Moving => HandleMovement(f);
      case Scaling => HandleScaling(f);
      case Rotating => HandleRotation();
    }

    method HandlePlacement(f: Frame)
      requires Valid() && currentState == Placing
      modifies this
      ensures Valid() && Model() == Placement(old(Model()), f)
    {
      if isPlaced && !allowMultipleObjects {
        return;
      }
      if |f.touches| > 0 && f.touches[0] == Began {
        if f.stageActive {
          placedObject := Some(nextId);
          live := live + {nextId};
          nextId := nextId + 1;
          isPlaced := true;
          currentState := Placed;
        }
      }
    }

    method HandleObjectInteraction(f: Frame)
      requires Valid() && currentState == Placed
      modifies this
      ensures Valid() && Model() == Interaction(old(Model()), f)
    {
      if placedObject.None? {
        return;
      }
      if |f.touches| == 1 {
        if f.touches[0] == Began {
          touchStartPosition := f.touchPosition;
          currentState := Moving;
        }
      } else if |f.touches| == 2 {
        if f.touches[0] == Began || f.touches[1] == Began {
          initialDistance := f.distance;
          initialScale := f.objectScale;
          initialRotation := f.angle;
          currentState := Scaling;
        }
      }
    }

    method HandleMovement(f: Frame)
      requires Valid() && currentState == Moving
      modifies this
      ensures Valid() && Model() == Movement(old(Model()), f)
    {
      if |f.touches| != 1 {
        currentState := Placed;
        return;
      }
      if f.touches[0] == Ended {
        currentState := Placed;
        return;
      }
    }

    method HandleScaling(f: Frame)
      requires Valid() && currentState == Scaling
      modifies this
      ensures Valid() && Model() == ScalingStep(old(Model()), f)
    {
      if |f.touches| != 2 {
        currentState := Placed;
        return;
      }
      if f.touches[0] == Ended || f.touches[1] == Ended {
        currentState := Placed;
        return;
      }
      initialDistance := f.distance;
      initialRotation := f.angle;
    }

    method HandleRotation()
      requires Valid() && currentState == Rotating
      modifies this
      ensures Valid() && Model() == RotationStep(old(Model()))
    {
      currentState := Placed;
    }

    method ResetPlacement()
      requires Valid()
      modifies this
      ensures Valid() && Model() == Reset(old(Model()))
    {
      if placedObject.Some? {
        live := live - {placedObject.value};
        placedObject := None;
      }
      isPlaced := false;
      currentState := Placing;
    }
  }
}
