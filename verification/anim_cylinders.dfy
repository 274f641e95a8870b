/** The cylinders sketch's animation timers: an animation counts time up to its duration,
    driven by a given step or by the wall clock, and a manager updates a list of them and
    drops the ones that finished. The wall clock is an input (`now`). */
module CylindersAnim {
  import opened Common
  import Lists

  /** The fields of an `Anim` besides its duration. */
  datatype AnimState = AnimState(t: Option<real>, active: bool, progress: real, finished: bool, lastUpdate: Option<real>)

  /** Python truthiness of an optional float: None and 0.0 are false. */
  predicate Truthy(v: Option<real>)
  {
    v.Some? && v.value != 0.0
  }

  /** The step an update uses and the clock it leaves: a truthy dt as given, else the time
      since the last wall-clock update, 0.0 when there was none. */
  function Clock(dt: Option<real>, last: Option<real>, now: real): (real, Option<real>)
  {
    if Truthy(dt) then (dt.value, last)
    else if !Truthy(last) then (0.0, Some(now))
    else (now - last.value, Some(now))
  }

  /** A consistent animation: it has a time once active, and is never active and finished. */
  predicate Consistent(s: AnimState)
  {
    (s.active ==> s.t.Some?) && !(s.active && s.finished)
  }

  /** `Anim.update(dt)`: an inactive animation is left alone; an active one adds the step to
      t, sets progress to t / duration, and finishes once t reaches the duration. */
  function Advance(s: AnimState, duration: real, dt: Option<real>, now: real): (r: AnimState)
    requires duration != 0.0 && Consistent(s)
    ensures Consistent(r)
    ensures !s.active ==> r == s
    ensures s.active ==> r.t == Some(s.t.value + Clock(dt, s.lastUpdate, now).0) && r.progress == r.t.value / duration
    ensures s.active ==> (r.finished <==> r.t.value >= duration) && r.active == !r.finished
    ensures s.active && Truthy(dt) ==> r.t == Some(s.t.value + dt.value) && r.lastUpdate == s.lastUpdate
  {
    if !s.active then s
    else
      var (d, last) := Clock(dt, s.lastUpdate, now);
      var t := s.t.value + d;
      if t >= duration then AnimState(Some(t), false, t / duration, true, last)
      else AnimState(Some(t), true, t / duration, s.finished, last)
  }

  /** Without a truthy step the first update reads the clock and advances by nothing; the
      next one advances by the time elapsed since. */
  lemma WallClock(s: AnimState, duration: real, dt: Option<real>, now: real, later: real)
    requires duration != 0.0 && Consistent(s) && s.active && !Truthy(dt) && !Truthy(s.lastUpdate)
    requires now != 0.0
    ensures var r := Advance(s, duration, dt, now);
      r.t == s.t && r.lastUpdate == Some(now) &&
      (r.active ==> Advance(r, duration, None, later).t == Some(s.t.value + (later - now)))
  {
  }

  /** With a positive duration and step, progress strictly grows. */
  lemma ProgressGrows(s: AnimState, duration: real, dt: real, now: real)
    requires duration > 0.0 && Consistent(s) && s.active && dt > 0.0
    requires s.progress == s.t.value / duration
    ensures Advance(s, duration, Some(dt), now).progress > s.progress
  {
    var t := s.t.value;
    assert (t + dt) / duration - t / duration == dt / duration;
  }

  class Anim {
    const duration: real
    var t: Option<real>
    var active: bool
    var progress: real
    var finished: bool
    var lastUpdate: Option<real>

    function State(): AnimState
      reads this
    {
      AnimState(t, active, progress, finished, lastUpdate)
    }

    ghost predicate Valid()
      reads this
    {
      duration != 0.0 && Consistent(State())
    }

    /** A new animation has no time and is neither active nor finished. */
    constructor (duration: real)
      requires duration != 0.0
      ensures this.duration == duration && Valid()
      ensures State() == AnimState(None, false, 0.0, false, None)
    {
      this.duration := duration;
      t, active, progress, finished, lastUpdate := None, false, 0.0, false, None;
    }

    /** `start()`: time and progress back to 0, active, not finished, clock forgotten. */
    method Start()
      requires duration != 0.0
      modifies this
      ensures Valid() && State() == AnimState(Some(0.0), true, 0.0, false, None)
    {
      t := Some(0.0);
      active := true;
      progress := 0.0;
      finished := false;
      lastUpdate := None;
    }

    /** `update(dt)`. */
    method Update(dt: Option<real>, now: real)
      requires Valid()
      modifies this
      ensures Valid() && State() == Advance(old(State()), duration, dt, now)
    {
      if !active {
        return;
      }
      var step := dt;
      if !Truthy(step) {
        if !Truthy(lastUpdate) {
          lastUpdate := Some(now);
          step := Some(0.0);
        } else {
          var tNow := now;
          lastUpdate, step := Some(tNow), Some(tNow - lastUpdate.value);
        }
      }
      t := Some(t.value + step.value);
      progress := t.value / duration;
      if t.value >= duration {
        active := false;
        finished := true;
      }
    }
  }

  /** `Manager`: the list of animations it drives and its own wall clock. */
  class Manager {
    var anims: seq<Anim>
    var lastUpdate: Option<real>
    const removeFinished: bool
    /** Warnings logged for unknown animations. */
    var warnings: nat

    constructor (removeFinished: bool)
      ensures anims == [] && lastUpdate == None && this.removeFinished == removeFinished && warnings == 0
    {
      anims := [];
      lastUpdate := None;
      this.removeFinished := removeFinished;
      warnings := 0;
    }

    /** `add(anim)`: appended at the end. */
    method Add(a: Anim)
      modifies this`anims
      ensures anims == old(anims) + [a]
    {
      anims := anims + [a];
    }

    /** `remove(anim)`: the first occurrence goes; an unknown animation only logs. */
    method Remove(a: Anim)
      modifies this`anims, this`warnings
      ensures anims == Lists.RemoveFirst(old(anims), a)
      ensures a !in old(anims) ==> anims == old(anims) && warnings == old(warnings) + 1
      ensures a in old(anims) ==> warnings == old(warnings)
    {
      if a in anims {
        anims := Lists.RemoveFirst(anims, a);
      } else {
        warnings := warnings + 1;
      }
    }

    /** `start(anim)`: reset the animation, then append it. */
    method Start(a: Anim)
      requires a.duration != 0.0
      modifies a, this`anims
      ensures a.Valid() && a.State() == AnimState(Some(0.0), true, 0.0, false, None)
      ensures anims == old(anims) + [a]
    {
      a.Start();
      Add(a);
    }

    /** `clear()`: removing each element while iterating over the same list. For a list
        without repetitions, only the elements at odd positions remain. */
    method Clear()
      modifies this`anims, this`warnings
      ensures Lists.Distinct(old(anims)) ==> anims == Lists.OddPositions(old(anims))
      ensures warnings == old(warnings)
    {
      ghost var o := anims;
      ghost var distinct := Lists.Distinct(o);
      var i := 0;
      while i < |anims|
        invariant |anims| == |o| - i && 2 * i <= |o| + 1
        invariant distinct ==> Lists.ClearedUpTo(o, anims, i)
        invariant warnings == old(warnings)
        decreases |anims| - i
      {
        if distinct {
          Lists.ClearStep(o, anims, i);
          Lists.RemoveFirstAt(anims, i);
        }
        Remove(anims[i]);
        i := i + 1;
      }
      if distinct {
        Lists.ClearDone(o, anims, i);
      }
    }

    /** `update(dt)`: every animation is updated once with the manager's step; with
        `removeFinished` the finished ones are then dropped, the others keeping their
        order. */
    method Update(dt: Option<real>, now: real)
      requires Lists.Distinct(anims)
      requires forall k :: 0 <= k < |anims| ==> anims[k].Valid()
      modifies this, anims
      ensures var d := Clock(dt, old(lastUpdate), now);
        lastUpdate == d.1 &&
        forall k :: 0 <= k < |old(anims)| ==>
          old(anims[k].Valid()) && old(anims)[k].Valid() && old(anims)[k].State() == Advance(old(anims[k].State()), old(anims)[k].duration, Some(d.0), now)
      ensures removeFinished ==> anims == Lists.Keep(old(anims), set a | a in old(anims) && a.finished)
      ensures !removeFinished ==> anims == old(anims)
      ensures warnings == old(warnings)
    {
      var d := Clock(dt, lastUpdate, now);
      lastUpdate := d.1;
      var o := anims;
      var toRemove := CollectFinished(o, d.0, now);
      ghost var fin := set a | a in o && a.finished;
      RemoveEach(toRemove);
      assert fin == set a | a in o && a.finished;
      if removeFinished {
        Lists.RemoveCollected(o, fin);
      }
    }

    /** The second loop of `update`: `remove` each collected animation in turn. */
    method RemoveEach(xs: seq<Anim>)
      modifies this`anims, this`warnings
      ensures anims == Lists.RemoveAll(old(anims), xs)
      ensures multiset(xs) <= multiset(old(anims)) ==> warnings == old(warnings)
    {
      var j := 0;
      while j < |xs|
        invariant 0 <= j <= |xs|
        invariant Lists.RemoveAll(anims, xs[j..]) == Lists.RemoveAll(old(anims), xs)
        invariant multiset(xs) <= multiset(old(anims)) ==>
          multiset(xs[j..]) <= multiset(anims) && warnings == old(warnings)
      {
        assert xs[j..] == [xs[j]] + xs[j + 1..];
        assert xs[j..][1..] == xs[j + 1..];
        if xs[j] in anims {
          Lists.RemoveFirstMultiset(anims, xs[j]);
        }
        Remove(xs[j]);
        j := j + 1;
      }
      assert xs[j..] == [];
    }

    /** The first loop of `update`: update each animation, collecting the finished ones
        when `removeFinished` is set. */
    method CollectFinished(o: seq<Anim>, step: real, now: real) returns (toRemove: seq<Anim>)
      requires Lists.Distinct(o)
      requires forall k :: 0 <= k < |o| ==> o[k].Valid()
      modifies o
      ensures forall k :: 0 <= k < |o| ==>
        old(o[k].Valid()) && o[k].Valid() && o[k].State() == Advance(old(o[k].State()), o[k].duration, Some(step), now)
      ensures toRemove == if removeFinished then Lists.Only(o, set a | a in o && a.finished) else []
      ensures multiset(toRemove) <= multiset(o)
    {
      toRemove := [];
      ghost var fin := set a | a in o && Advance(a.State(), a.duration, Some(step), now).finished;
      var i := 0;
      while i < |o|
        invariant 0 <= i <= |o|
        invariant forall k :: 0 <= k < i ==> o[k].Valid() && o[k].State() == Advance(old(o[k].State()), o[k].duration, Some(step), now)
        invariant forall k :: i <= k < |o| ==> o[k].Valid() && o[k].State() == old(o[k].State())
        invariant toRemove == if removeFinished then Lists.Only(o[..i], fin) else []
      {
        Lists.DistinctAt(o, i);
        o[i].Update(Some(step), now);
        Lists.OnlySnoc(o[..i], o[i], fin);
        assert o[..i + 1] == o[..i] + [o[i]];
        if o[i].finished && removeFinished {
          toRemove := toRemove + [o[i]];
        }
        i := i + 1;
      }
      assert o[..i] == o;
      assert fin == set a | a in o && a.finished by {
        forall a | a in o ensures a.finished == Advance(old(a.State()), a.duration, Some(step), now).finished {
          var k :| 0 <= k < |o| && o[k] == a;
        }
      }
      Lists.OnlyMultiset(o, fin);
    }
  }
}
