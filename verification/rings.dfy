/** What the cylinders game and spawners share about rings: the `ring1`, `ring2`, ...
    properties that name the objects they can spawn, the spawn settings read from the
    logic object, the sweep that drops the rings whose action stopped, and the possible
    outcomes of one spawn attempt. */
module Rings {
  import opened Common
  import Numerals
  import Lists

  /** `'ring' + str(i)`. */
  function RingKey(i: nat): string
  {
    "ring" + Numerals.IntToString(i)
  }

  lemma RingKeyInjective(i: nat, j: nat)
    requires RingKey(i) == RingKey(j)
    ensures i == j
  {
    assert RingKey(i)[4..] == Numerals.IntToString(i);
    assert RingKey(j)[4..] == Numerals.IntToString(j);
    Numerals.IntToStringInjective(i, j);
  }

  /** The keys `ring0` up to, not including, `ring<i>`. */
  ghost function Below(i: nat): set<string>
  {
    set j | 0 <= j < i :: RingKey(j)
  }

  /** One more index adds exactly its own key. */
  lemma BelowSucc(i: nat)
    ensures Below(i + 1) == Below(i) + {RingKey(i)}
  {
    forall x | x in Below(i + 1) ensures x in Below(i) + {RingKey(i)} {
      var j :| 0 <= j < i + 1 && x == RingKey(j);
      if j < i {
        assert x in Below(i);
      }
    }
  }

  /** `ring<i>` is not among the keys below it. */
  lemma NotBelow(i: nat)
    ensures RingKey(i) !in Below(i)
  {
    if RingKey(i) in Below(i) {
      var j :| 0 <= j < i && RingKey(j) == RingKey(i);
      RingKeyInjective(i, j);
    }
  }

  /** Looking up `ring<i>` when it is present leaves fewer keys of `props` to look at. */
  lemma BelowStep(props: map<string, Value>, i: nat)
    requires RingKey(i) in props
    ensures |props.Keys - Below(i + 1)| < |props.Keys - Below(i)|
  {
    BelowSucc(i);
    NotBelow(i);
    assert props.Keys - Below(i + 1) == (props.Keys - Below(i)) - {RingKey(i)};
  }

  /** The values of `ring<i>`, `ring<i+1>`, ... up to the first missing key. */
  function NamesFrom(props: map<string, Value>, i: nat): seq<Value>
    decreases |props.Keys - Below(i)|
  {
    if RingKey(i) !in props then []
    else
      BelowStep(props, i);
      [props[RingKey(i)]] + NamesFrom(props, i + 1)
  }

  /** `_getRingNames()`'s result for a logic object with these properties. */
  function RingNames(props: map<string, Value>): seq<Value>
  {
    NamesFrom(props, 1)
  }

  lemma {:induction false} NamesFromAt(props: map<string, Value>, i: nat, k: nat)
    requires k < |NamesFrom(props, i)|
    ensures RingKey(k + i) in props && NamesFrom(props, i)[k] == props[RingKey(k + i)]
    decreases k
  {
    BelowStep(props, i);
    if k > 0 {
      NamesFromAt(props, i + 1, k - 1);
      assert (k - 1) + (i + 1) == k + i;
    }
  }

  lemma {:induction false} NamesFromEnd(props: map<string, Value>, i: nat)
    ensures RingKey(|NamesFrom(props, i)| + i) !in props
    decreases |props.Keys - Below(i)|
  {
    if RingKey(i) in props {
      BelowStep(props, i);
      NamesFromEnd(props, i + 1);
      assert |NamesFrom(props, i)| + i == |NamesFrom(props, i + 1)| + (i + 1);
    }
  }

  /** The ring names are the values of `ring1` ... `ringN` in order, where `ring<N+1>` is
      the first key that is missing. */
  lemma RingNamesSpec(props: map<string, Value>)
    ensures var r := RingNames(props);
      (forall k :: 0 <= k < |r| ==> RingKey(k + 1) in props && r[k] == props[RingKey(k + 1)]) &&
      RingKey(|r| + 1) !in props
  {
    forall k | 0 <= k < |RingNames(props)| ensures RingKey(k + 1) in props && RingNames(props)[k] == props[RingKey(k + 1)] {
      NamesFromAt(props, 1, k);
    }
    NamesFromEnd(props, 1);
  }

  /** `_getRingNames()`: count up from `ring1` while the key is present. */
  method GetRingNames(props: map<string, Value>) returns (names: seq<Value>)
    ensures names == RingNames(props)
  {
    var i: nat := 1;
    names := [];
    while RingKey(i) in props
      invariant names + NamesFrom(props, i) == RingNames(props)
      decreases |props.Keys - Below(i)|
    {
      BelowStep(props, i);
      assert NamesFrom(props, i) == [props[RingKey(i)]] + NamesFrom(props, i + 1);
      Lists.AppendAssoc(names, [props[RingKey(i)]], NamesFrom(props, i + 1));
      names := names + [props[RingKey(i)]];
      i := i + 1;
    }
  }

  /** The object a spawned ring is parented to, or the rotation is applied to: the logic
      object itself, or the scene object its property names. */
  datatype Target = LogicObject | SceneObject(name: Value)

  /** The settings `setup` reads from the logic object's properties. */
  datatype SpawnConfig = SpawnConfig(spawnParent: Target, orientator: Target, spawnRot: Option<Value>)

  /** The spawn settings for a logic object with these properties: a property that is
      absent leaves the logic object itself, or no `spawnRot`. */
  function ConfigOf(props: map<string, Value>): (c: SpawnConfig)
    ensures "spawner" !in props ==> c.spawnParent == LogicObject
    ensures "orientator" !in props ==> c.orientator == LogicObject
    ensures "spawnRot" !in props ==> c.spawnRot == None
    ensures "spawner" in props ==> c.spawnParent == SceneObject(props["spawner"])
    ensures "orientator" in props ==> c.orientator == SceneObject(props["orientator"])
    ensures "spawnRot" in props ==> c.spawnRot == Some(props["spawnRot"])
  {
    SpawnConfig(
      if "spawner" in props then SceneObject(props["spawner"]) else LogicObject,
      if "orientator" in props then SceneObject(props["orientator"]) else LogicObject,
      if "spawnRot" in props then Some(props["spawnRot"]) else None)
  }

  /** How the engine calls inside one spawn attempt went: adding or parenting the object
      raised ValueError before the ring was recorded; or the ring was recorded and
      `playAction` raised ValueError; or everything went through, the new ring having the
      given world orientation (as Euler angles). */
  datatype SpawnOutcome = AddFailed | PlayFailed(obj: GameObject) | Spawned(obj: GameObject, euler: Vec3)

  /** The rings a spawn attempt records. */
  function Appended(o: SpawnOutcome): (r: seq<GameObject>)
    ensures |r| <= 1
    ensures o.AddFailed? <==> r == []
  {
    if o.AddFailed? then [] else [o.obj]
  }

  /** The rings whose action stopped, given `isPlayingAction()` for each. */
  function Stopped(rings: seq<GameObject>, playing: GameObject -> bool): set<GameObject>
  {
    set r | r in rings && !playing(r)
  }

  /** The first loop of `update`: collect the rings that are not playing, in order. */
  method CollectEnded(rings: seq<GameObject>, playing: GameObject -> bool) returns (ended: seq<GameObject>)
    ensures ended == Lists.Only(rings, Stopped(rings, playing))
  {
    ended := [];
    var i := 0;
    while i < |rings|
      invariant 0 <= i <= |rings|
      invariant ended == Lists.Only(rings[..i], Stopped(rings, playing))
    {
      Lists.OnlySnoc(rings[..i], rings[i], Stopped(rings, playing));
      assert rings[..i + 1] == rings[..i] + [rings[i]];
      if !playing(rings[i]) {
        ended := ended + [rings[i]];
      }
      i := i + 1;
    }
    assert rings[..i] == rings;
  }

  /** The second loop of `update`: `rings.remove(r)` for each collected ring in turn. */
  method RemoveEach(rings: seq<GameObject>, xs: seq<GameObject>) returns (r: seq<GameObject>)
    ensures r == Lists.RemoveAll(rings, xs)
  {
    r := rings;
    var j := 0;
    while j < |xs|
      invariant 0 <= j <= |xs|
      invariant Lists.RemoveAll(r, xs[j..]) == Lists.RemoveAll(rings, xs)
    {
      assert xs[j..][1..] == xs[j + 1..];
      r := Lists.RemoveFirst(r, xs[j]);
      j := j + 1;
    }
    assert xs[j..] == [];
  }

  /** Both loops together: exactly the rings still playing remain, in their order. */
  method Sweep(rings: seq<GameObject>, playing: GameObject -> bool) returns (kept: seq<GameObject>)
    ensures kept == Lists.Keep(rings, Stopped(rings, playing))
    ensures forall r :: r in kept <==> r in rings && playing(r)
  {
    var ended := CollectEnded(rings, playing);
    kept := RemoveEach(rings, ended);
    Lists.RemoveCollected(rings, Stopped(rings, playing));
    forall r | r in rings && playing(r) ensures r in kept {
      Lists.KeepComplete(rings, Stopped(rings, playing), r);
    }
  }
}
