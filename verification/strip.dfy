/** The light-start sketch's strip: one per owner object, found again through a class-level
    dictionary, and on setup it spawns ten copies of the owner's `lightshape` object in a
    row along the owner's local y axis. The engine's object creation is modelled by
    allocating a `Light`. */
module Strip {
  import opened Common

  const LIGHT_COUNT: nat := 10

  /** The local position of light `i`: `[0.0, 2.0 * (i + 1), 0.0]`. */
  function LightPosition(i: nat): Vec3
  {
    Vec3(0.0, 2.0 * (i + 1) as real, 0.0)
  }

  /** An object added to the scene for the strip. */
  class Light {
    const shape: Value
    var parent: GameObject
    var localPosition: Vec3

    constructor (shape: Value, parent: GameObject, position: Vec3)
      ensures this.shape == shape && this.parent == parent && localPosition == position
    {
      this.shape := shape;
      this.parent := parent;
      localPosition := position;
    }
  }

  class Strip {
    const owner: GameObject
    var lights: seq<Light>

    constructor (owner: GameObject)
      ensures this.owner == owner && lights == []
    {
      this.owner := owner;
      lights := [];
    }

    /** Light `i` is a `shape` object parented to the owner at `LightPosition(i)`. */
    ghost predicate Placed(i: nat, shape: Value)
      reads this, lights
      requires i < |lights|
    {
      lights[i].shape == shape && lights[i].parent == owner && lights[i].localPosition == LightPosition(i)
    }

    /** `setup()`: reading the owner's `lightshape` property raises KeyError when it is
        absent, after the light list was emptied; otherwise ten new, distinct lights. */
    method Setup(props: map<string, Value>) returns (err: Option<PyError>)
      modifies this`lights
      ensures "lightshape" !in props ==> err == Some(KeyError) && lights == []
      ensures "lightshape" in props ==> err == None && |lights| == LIGHT_COUNT
      ensures "lightshape" in props ==> forall i :: 0 <= i < |lights| ==> fresh(lights[i]) && Placed(i, props["lightshape"])
      ensures forall i, j :: 0 <= i < j < |lights| ==> lights[i] != lights[j]
    {
      lights := [];
      if "lightshape" !in props {
        return Some(KeyError);
      }
      var shape := props["lightshape"];
      var i := 0;
      while i < LIGHT_COUNT
        invariant 0 <= i <= LIGHT_COUNT && |lights| == i
        invariant forall k :: 0 <= k < i ==> fresh(lights[k]) && Placed(k, shape)
        invariant forall k, j :: 0 <= k < j < i ==> lights[k] != lights[j]
      {
        var light := new Light(shape, owner, LightPosition(i));
        lights := lights + [light];
        i := i + 1;
      }
      err := None;
    }
  }

  /** The class-level `_instances_by_owner` dictionary. */
  class Registry {
    var instances: map<GameObject, Strip>

    ghost predicate Valid()
      reads this
    {
      forall o :: o in instances ==> instances[o].owner == o
    }

    constructor ()
      ensures Valid() && instances == map[]
    {
      instances := map[];
    }

    /** `for_owner(owner, create)`: the registered strip if there is one; otherwise None
        when `create` is false, and a new, registered strip when it is true. */
    method ForOwner(owner: GameObject, create: bool) returns (s: Strip?)
      requires Valid()
      modifies this
      ensures Valid()
      ensures owner in old(instances) ==> s == old(instances)[owner] && instances == old(instances)
      ensures owner !in old(instances) && !create ==> s == null && instances == old(instances)
      ensures owner !in old(instances) && create ==>
        s != null && fresh(s) && s.owner == owner && s.lights == [] && instances == old(instances)[owner := s]
      ensures s != null ==> s.owner == owner && owner in instances && instances[owner] == s
    {
      if owner in instances {
        return instances[owner];
      }
      if !create {
        return null;
      }
      s := new Strip(owner);
      instances := instances[owner := s];
    }

    /** `owner_instances()`: exactly the registered strips. */
    function OwnerInstances(): (r: set<Strip>)
      reads this
      ensures forall o :: o in instances ==> instances[o] in r
      ensures Valid() ==> forall s :: s in r ==> s.owner in instances && instances[s.owner] == s
    {
      instances.Values
    }
  }
}
