/** The cylinders sketch's ring spawner: like the test spawner, but every ring spawned in
    full gets a colour record, and every ring dropped has its record deleted. The engine
    calls are not part of this model; how a spawn attempt went is an input. */
module SketchSpawner {
  import opened Common
  import Lists
  import Rings
  import Colorize

  /** The keys of the elements of `xs`. */
  function Elements(xs: seq<GameObject>): set<GameObject>
  {
    set x | x in xs
  }

  class Spawner {
    /** The class-level registry of colour records. */
    const colorize: Colorize.Registry
    var rings: seq<GameObject>
    var logicObject: Option<GameObject>
    var config: Rings.SpawnConfig
    var warnings: nat
    var errors: nat

    constructor (colorize: Colorize.Registry)
      ensures this.colorize == colorize
      ensures rings == [] && logicObject == None && warnings == 0 && errors == 0
    {
      this.colorize := colorize;
      rings := [];
      logicObject := None;
      config := Rings.ConfigOf(map[]);
      warnings, errors := 0, 0;
    }

    /** `setup(logicObject)`: the spawn parent and `spawnRot` settings; unlike the test
        spawner it reads no `orientator`. */
    method Setup(logic: GameObject, props: map<string, Value>)
      modifies this`logicObject, this`config
      ensures logicObject == Some(logic) && config == Rings.ConfigOf(props - {"orientator"})
      ensures config.orientator == Rings.LogicObject
    {
      logicObject := Some(logic);
      config := Rings.ConfigOf(props - {"orientator"});
    }

    /** The second loop of `update`: for each collected ring, remove it from the list and
        delete its colour record. A ring without a record ends the loop with KeyError,
        after it has left the list: the rings up to and including it are gone from the
        list, and only the records of the rings before it are deleted. */
    method DropEnded(ended: seq<GameObject>) returns (err: Option<PyError>)
      requires colorize.Valid()
      modifies this`rings, colorize
      ensures colorize.Valid()
      ensures err == None || err == Some(KeyError)
      ensures err == None ==>
        rings == Lists.RemoveAll(old(rings), ended) && colorize.instances == old(colorize.instances) - Elements(ended)
      ensures err.Some? ==>
        exists j :: 0 <= j < |ended| && ended[j] !in old(colorize.instances) - Elements(ended[..j]) &&
          rings == Lists.RemoveAll(old(rings), ended[..j + 1]) &&
          colorize.instances == old(colorize.instances) - Elements(ended[..j])
      ensures Lists.Distinct(ended) ==> (err == None <==> Elements(ended) <= old(colorize.instances).Keys)
    {
      ghost var m0 := colorize.instances;
      ghost var r0 := rings;
      err := None;
      var j := 0;
      while j < |ended|
        invariant 0 <= j <= |ended| && err == None
        invariant colorize.Valid()
        invariant rings == Lists.RemoveAll(r0, ended[..j])
        invariant colorize.instances == m0 - Elements(ended[..j])
        invariant Elements(ended[..j]) <= m0.Keys
      {
        assert ended[..j + 1] == ended[..j] + [ended[j]];
        assert Elements(ended[..j + 1]) == Elements(ended[..j]) + {ended[j]};
        Lists.RemoveAllSnoc(r0, ended[..j], ended[j]);
        rings := Lists.RemoveFirst(rings, ended[j]);
        err := colorize.DestroyByOwner(ended[j]);
        if err.Some? {
          assert 0 <= j < |ended| && ended[j] !in m0 - Elements(ended[..j]);
          if Lists.Distinct(ended) {
            assert ended[j] !in Elements(ended[..j]);
            assert ended[j] in Elements(ended) && ended[j] !in m0;
          }
          return;
        }
        j := j + 1;
      }
      assert ended[..j] == ended;
    }

    /** `update()`: the rings whose action stopped leave the list and lose their colour
        records. It goes through when every such ring has a record (for a list without
        repetitions, exactly then), and raises KeyError otherwise, at the first stopped
        ring without a record, which has already left the list. */
    method Update(playing: GameObject -> bool) returns (err: Option<PyError>)
      requires colorize.Valid()
      modifies this`rings, colorize
      ensures colorize.Valid()
      ensures err == None || err == Some(KeyError)
      ensures err == None ==>
        rings == Lists.Keep(old(rings), Rings.Stopped(old(rings), playing)) &&
        colorize.instances == old(colorize.instances) - Rings.Stopped(old(rings), playing)
      ensures err.Some? ==>
        var ended := Lists.Only(old(rings), Rings.Stopped(old(rings), playing));
        exists j :: 0 <= j < |ended| && ended[j] !in old(colorize.instances) - Elements(ended[..j]) &&
          rings == Lists.RemoveAll(old(rings), ended[..j + 1]) &&
          colorize.instances == old(colorize.instances) - Elements(ended[..j])
      ensures Lists.Distinct(old(rings)) ==>
        (err == None <==> Rings.Stopped(old(rings), playing) <= old(colorize.instances).Keys)
    {
      var stopped := Rings.Stopped(rings, playing);
      var ended := Rings.CollectEnded(rings, playing);
      assert Elements(ended) == stopped by {
        forall x | x in stopped ensures x in ended {
          Lists.OnlyComplete(rings, stopped, x);
        }
      }
      if Lists.Distinct(rings) {
        Lists.OnlyDistinct(rings, stopped);
      }
      Lists.RemoveCollected(rings, stopped);
      err := DropEnded(ended);
    }

    /** `spawn(rotation)`: as in the test spawner, and a ring spawned in full also gets its
        colour record (the one already registered for it, if any). */
    method Spawn(props: map<string, Value>, outcome: Rings.SpawnOutcome, now: real) returns (chosen: Option<Value>)
      requires colorize.Valid()
      modifies this`rings, this`warnings, this`errors, colorize
      ensures colorize.Valid()
      ensures Rings.RingNames(props) == [] ==>
        chosen == None && rings == old(rings) && warnings == old(warnings) + 1 && errors == old(errors) &&
        colorize.instances == old(colorize.instances)
      ensures Rings.RingNames(props) != [] ==>
        chosen.Some? && chosen.value in Rings.RingNames(props) &&
        rings == old(rings) + Rings.Appended(outcome) && warnings == old(warnings) &&
        errors == old(errors) + (if outcome.Spawned? then 0 else 1)
      ensures Rings.RingNames(props) != [] && outcome.Spawned? ==>
        outcome.obj in colorize.instances &&
        colorize.instances.Keys == old(colorize.instances).Keys + {outcome.obj} &&
        (outcome.obj !in old(colorize.instances) ==>
          colorize.instances[outcome.obj].GetColors() == (outcome.euler.x, outcome.euler.y, outcome.euler.z))
      ensures !(Rings.RingNames(props) != [] && outcome.Spawned?) ==> colorize.instances == old(colorize.instances)
    {
      var names := Rings.GetRingNames(props);
      if |names| < 1 {
        warnings := warnings + 1;
        return None;
      }
      var k :| 0 <= k < |names|;
      chosen := Some(names[k]);
      if outcome.AddFailed? {
        errors := errors + 1;
        return;
      }
      rings := rings + [outcome.obj];
      if outcome.PlayFailed? {
        errors := errors + 1;
        return;
      }
      var c := colorize.ForOwner(outcome.obj, outcome.euler, now);
    }
  }
}
