/** The cylinders test scripts' ring spawner: it records the rings it spawns, drops the
    ones whose action stopped, and picks what to spawn from the logic object's `ring1`,
    `ring2`, ... properties. The engine calls (adding, parenting, playing and ending
    objects) are not part of this model; how a spawn attempt went is an input. */
module TestSpawner {
  import opened Common
  import Lists
  import Rings

  const ORIGIN: Vec3 := Vec3(0.0, 0.0, 0.0)

  class Spawner {
    var rings: seq<GameObject>
    /** The logic object given to `setup`, None before. */
    var logicObject: Option<GameObject>
    var config: Rings.SpawnConfig
    var rotation: Vec3
    /** "no ring name properties found" warnings logged. */
    var warnings: nat
    /** Spawn errors logged. */
    var errors: nat

    constructor ()
      ensures rings == [] && logicObject == None && warnings == 0 && errors == 0
    {
      rings := [];
      logicObject := None;
      config := Rings.ConfigOf(map[]);
      rotation := ORIGIN;
      warnings, errors := 0, 0;
    }

    /** `setup(logicObject)`: remember the logic object, read the spawn settings from its
        properties and start the rotation at the origin. */
    method Setup(logic: GameObject, props: map<string, Value>)
      modifies this`logicObject, this`config, this`rotation
      ensures logicObject == Some(logic) && config == Rings.ConfigOf(props) && rotation == ORIGIN
    {
      logicObject := Some(logic);
      config := Rings.ConfigOf(props);
      rotation := ORIGIN;
    }

    /** `update()`: the rings whose action stopped are dropped, the others keep their
        order. */
    method Update(playing: GameObject -> bool)
      modifies this`rings
      ensures rings == Lists.Keep(old(rings), Rings.Stopped(old(rings), playing))
      ensures forall r :: r in rings <==> r in old(rings) && playing(r)
    {
      rings := Rings.Sweep(rings, playing);
    }

    /** `spawn()` with the logic object's current properties: without ring names it only
        warns; otherwise it picks one of them and records the new ring once the engine has
        added and parented it, logging an error when an engine call raised ValueError. */
    method Spawn(props: map<string, Value>, outcome: Rings.SpawnOutcome) returns (chosen: Option<Value>)
      modifies this`rings, this`warnings, this`errors
      ensures Rings.RingNames(props) == [] ==>
        chosen == None && rings == old(rings) && warnings == old(warnings) + 1 && errors == old(errors)
      ensures Rings.RingNames(props) != [] ==>
        chosen.Some? && chosen.value in Rings.RingNames(props) &&
        rings == old(rings) + Rings.Appended(outcome) && warnings == old(warnings) &&
        errors == old(errors) + (if outcome.Spawned? then 0 else 1)
    {
      var names := Rings.GetRingNames(props);
      if |names| < 1 {
        warnings := warnings + 1;
        return None;
      }
      var k :| 0 <= k < |names|;
      chosen := Some(names[k]);
      if !outcome.AddFailed? {
        rings := rings + [outcome.obj];
      }
      if !outcome.Spawned? {
        errors := errors + 1;
      }
    }
  }
}
