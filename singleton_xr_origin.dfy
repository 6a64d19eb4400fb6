/** SingletonXROrigin: a newest-wins singleton. Each Awake makes the awakening
    origin the static instance, destroys a different previous instance, and
    marks the awakening object to survive scene loads. */
module XROriginSingleton {
  import opened Engine

  /** Awake on the object `self`. */
  function NewestWins(g: Registry, self: ObjId): (r: Registry)
    // the awakening object is the instance afterwards
    ensures r.instance == Some(self)
    // a different previous instance is destroyed, and nothing else
    ensures g.instance.Some? && g.instance.value != self ==> r.destroyed == g.destroyed + {g.instance.value}
    // no previous instance, or this one: nothing is destroyed
    ensures g.instance.None? || g.instance == Some(self) ==> r.destroyed == g.destroyed
    // DontDestroyOnLoad on every path
    ensures r.persistent == g.persistent + {self}
  {
    var destroyed := if g.instance.Some? && g.instance.value != self then g.destroyed + {g.instance.value} else g.destroyed;
    Registry(Some(self), g.persistent + {self}, destroyed)
  }

  /** A repeated Awake on the same object changes nothing. */
  lemma RepeatedAwakeIsNoOp(g: Registry, self: ObjId)
    ensures NewestWins(NewestWins(g, self), self) == NewestWins(g, self)
  {
  }

  /** Origins awakening one after another, in scene-load order. */
  function AwakeAll(g: Registry, objs: seq<ObjId>): Registry
    decreases |objs|
  {
    if |objs| == 0 then g else AwakeAll(NewestWins(g, objs[0]), objs[1..])
  }

  /** After distinct origins awaken, the last one is the instance, every
      earlier one has been destroyed, and all of them were marked
      persistent. */
  lemma {:induction false} NewestWinsAll(g: Registry, objs: seq<ObjId>)
    requires Distinct(objs) && |objs| > 0
    ensures AwakeAll(g, objs).instance == Some(objs[|objs| - 1])
    ensures forall i :: 0 <= i < |objs| - 1 ==> objs[i] in AwakeAll(g, objs).destroyed
    ensures forall i :: 0 <= i < |objs| ==> objs[i] in AwakeAll(g, objs).persistent
    ensures g.destroyed <= AwakeAll(g, objs).destroyed
    decreases |objs|
  {
    var h := NewestWins(g, objs[0]);
    var rest := objs[1..];
    if |rest| == 0 {
      assert AwakeAll(g, objs) == AwakeAll(h, rest) == h;
    } else {
      assert Distinct(rest);
      NewestWinsAll(h, rest);
      var r := AwakeAll(h, rest);
      assert AwakeAll(g, objs) == r;
      // objs[0] was the instance when rest[0] awoke
      assert AwakeAll(h, rest) == AwakeAll(NewestWins(h, rest[0]), rest[1..]);
      if |rest| == 1 {
        assert rest[1..] == [];
        assert objs[0] in r.destroyed;
      } else {
        NewestWinsAll(NewestWins(h, rest[0]), rest[1..]);
        assert objs[0] in r.destroyed;
      }
      forall i | 0 <= i < |objs| - 1
        ensures objs[i] in r.destroyed
      {
        if i > 0 {
          assert objs[i] == rest[i - 1];
        }
      }
      forall i | 0 <= i < |objs|
        ensures objs[i] in r.persistent
      {
        if i > 0 {
          assert objs[i] == rest[i - 1];
        } else {
          PersistentStays(h, rest);
        }
      }
    }
  }

  /** Awakenings never unmark a persistent object. */
  lemma {:induction false} PersistentStays(g: Registry, objs: seq<ObjId>)
    ensures g.persistent <= AwakeAll(g, objs).persistent
    decreases |objs|
  {
    if |objs| > 0 {
      PersistentStays(NewestWins(g, objs[0]), objs[1..]);
    }
  }

  /** The static `instance` field together with the engine's records of what
      survives loads and what has been destroyed. */
  class SingletonXROrigin {
    var instance: Option<ObjId>
    var persistent: set<ObjId>
    var destroyed: set<ObjId>

    function Model(): Registry
      reads this
    {
      Registry(instance, persistent, destroyed)
    }

    constructor ()
      ensures Model() == EmptyRegistry
    {
      instance := None;
      persistent := {};
      destroyed := {};
    }

    method Awake(self: ObjId)
      modifies this
      ensures Model() == NewestWins(old(Model()), self)
    {
      if instance.Some? && instance.value != self {
        destroyed := destroyed + {instance.value};
        instance := Some(self);
      } else {
        instance := Some(self);
      }
      persistent := persistent + {self};
    }
  }
}
