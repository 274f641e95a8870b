/** The cylinders sketch's per-ring colour record: made once per ring object, it keeps the
    colour read from the ring's orientation when it was made, and a class-level dictionary
    finds it again by its ring. The orientation and the wall clock are inputs. */
module Colorize {
  import opened Common

  class Colorize {
    const owner: GameObject
    const spawnTime: real
    const r: real
    const g: real
    const b: real

    /** `Colorize(owner)`: the time it was made, and the owner's world orientation as Euler
        angles (x, y, z) for red, green and blue. */
    constructor (owner: GameObject, euler: Vec3, now: real)
      ensures this.owner == owner && spawnTime == now
      ensures GetColors() == (euler.x, euler.y, euler.z)
    {
      this.owner := owner;
      spawnTime := now;
      r, g, b := euler.x, euler.y, euler.z;
    }

    /** `get_colors()`. */
    function GetColors(): (real, real, real)
    {
      (r, g, b)
    }
  }

  /** The class-level `_instances_by_owner` dictionary. */
  class Registry {
    var instances: map<GameObject, Colorize>

    /** Every entry was made for the object it is filed under. */
    ghost predicate Valid()
      reads this
    {
      forall o :: o in instances ==> instances[o].owner == o
    }

    constructor ()
      ensures Valid() && instances == map[]
    {
      instances := map[];
    }

    /** `for_owner(owner)`: the registered record if there is one, otherwise a new one,
        registered. */
    method ForOwner(owner: GameObject, euler: Vec3, now: real) returns (c: Colorize)
      requires Valid()
      modifies this
      ensures Valid() && c.owner == owner
      ensures owner in instances && instances[owner] == c
      ensures owner in old(instances) ==> c == old(instances)[owner] && instances == old(instances)
      ensures owner !in old(instances) ==>
        fresh(c) && c.GetColors() == (euler.x, euler.y, euler.z) && instances == old(instances)[owner := c]
    {
      if owner in instances {
        c := instances[owner];
        return;
      }
      c := new Colorize(owner, euler, now);
      instances := instances[owner := c];
    }

    /** `destroy_by_owner(owner)`: `del` of the owner's entry, which raises KeyError when
        there is none. */
    method DestroyByOwner(owner: GameObject) returns (err: Option<PyError>)
      requires Valid()
      modifies this
      ensures Valid()
      ensures owner in old(instances) ==> err == None && instances == old(instances) - {owner}
      ensures owner !in old(instances) ==> err == Some(KeyError) && instances == old(instances)
      ensures forall o :: o in old(instances) && o != owner ==> o in instances && instances[o] == old(instances)[o]
    {
      if owner !in instances {
        return Some(KeyError);
      }
      instances := instances - {owner};
      err := None;
    }
  }
}
