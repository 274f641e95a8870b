/** The light-start test's animation timers: an animation counts the given steps up to its
    duration, and a manager updates its list, removing each finished animation while it
    iterates over that same list. The wall clock is an input (`now`). */
module LightStartAnim {
  import opened Common
  import Lists

  /** The fields of an `Anim` besides its duration. */
  datatype AnimState = AnimState(t: Option<real>, active: bool, progress: real, finished: bool)

  /** It has a time once active, and is never active and finished. */
  predicate Consistent(s: AnimState)
  {
    (s.active ==> s.t.Some?) && !(s.active && s.finished)
  }

  /** `Anim.update(dt)`: an inactive animation is left alone; an active one adds dt to t,
      sets progress to t / duration and finishes once t reaches the duration. */
  function Advance(s: AnimState, duration: real, dt: real): (r: AnimState)
    requires duration != 0.0 && Consistent(s)
    ensures Consistent(r)
    ensures !s.active ==> r == s
    ensures s.active ==> r.t == Some(s.t.value + dt) && r.progress == r.t.value / duration
    ensures s.active ==> (r.finished <==> r.t.value >= duration) && r.active == !r.finished
  {
    if !s.active then s
    else
      var t := s.t.value + dt;
      if t >= duration then AnimState(Some(t), false, t / duration, true)
      else AnimState(Some(t), true, t / duration, s.finished)
  }

  /** The manager's step: a truthy dt as given, else the time since its last wall-clock
      update, 0.0 the first time. */
  function Clock(dt: Option<real>, last: Option<real>, now: real): (real, Option<real>)
  {
    if dt.Some? && dt.value != 0.0 then (dt.value, last)
    else if last.None? || last.value == 0.0 then (0.0, Some(now))
    else (now - last.value, Some(now))
  }

  class Anim {
    const duration: real
    var t: Option<real>
    var active: bool
    var progress: real
    var finished: bool

    function State(): AnimState
      reads this
    {
      AnimState(t, active, progress, finished)
    }

    ghost predicate Valid()
      reads this
    {
      duration != 0.0 && Consistent(State())
    }

    constructor (duration: real)
      requires duration != 0.0
      ensures this.duration == duration && Valid() && State() == AnimState(None, false, 0.0, false)
    {
      this.duration := duration;
      t, active, progress, finished := None, false, 0.0, false;
    }

    /** `start()`: t and progress 0, active, not finished. */
    method Start()
      requires duration != 0.0
      modifies this
      ensures Valid() && State() == AnimState(Some(0.0), true, 0.0, false)
    {
      t := Some(0.0);
      active := true;
      progress := 0.0;
      finished := false;
    }

    /** `update(dt)`. */
    method Update(dt: real)
      requires Valid()
      modifies this
      ensures Valid() && State() == Advance(old(State()), duration, dt)
    {
      if !active {
        return;
      }
      t := Some(t.value + dt);
      progress := t.value / duration;
      if t.value >= duration {
        active := false;
        finished := true;
      }
    }
  }

  /** Whether an animation is finished once `update(dt)` has run on it. */
  predicate FinishesWith(s: AnimState, duration: real, dt: real)
  {
    s.finished || (s.active && s.t.Some? && s.t.value + dt >= duration)
  }

  lemma FinishesWithAdvance(s: AnimState, duration: real, dt: real)
    requires duration != 0.0 && Consistent(s)
    ensures FinishesWith(s, duration, dt) <==> Advance(s, duration, dt).finished
  {
  }

  /** What one `Manager.update` pass does to the animation at a position: it is updated and
      kept, updated and removed because it is finished, or passed over without an update
      because the one before it was removed and it slid into that place. */
  datatype Fate = Kept | Removed | Skipped

  /** The fate of each position, given each animation's state and duration before the pass. */
  function Fates(ss: seq<AnimState>, ds: seq<real>, dt: real): (r: seq<Fate>)
    requires |ss| == |ds|
    ensures |r| == |ss|
    decreases |ss|
  {
    if |ss| == 0 then []
    else
      var n := |ss| - 1;
      var p := Fates(ss[..n], ds[..n], dt);
      p + [if n > 0 && p[n - 1] == Removed then Skipped
           else if FinishesWith(ss[n], ds[n], dt) then Removed
           else Kept]
  }

  /** Fates depend only on what comes before. */
  lemma {:induction false} FatesPrefix(ss: seq<AnimState>, ds: seq<real>, dt: real, j: nat)
    requires |ss| == |ds| && j <= |ss|
    ensures Fates(ss, ds, dt)[..j] == Fates(ss[..j], ds[..j], dt)
    decreases |ss|
  {
    if j < |ss| {
      var n := |ss| - 1;
      assert ss[..n][..j] == ss[..j] && ds[..n][..j] == ds[..j];
      FatesPrefix(ss[..n], ds[..n], dt, j);
    } else {
      assert ss[..j] == ss && ds[..j] == ds;
    }
  }

  /** The fate at a position, from the fate before it: a position right after a removed
      animation is skipped; any other is removed exactly when its animation finishes. */
  lemma FateAt(ss: seq<AnimState>, ds: seq<real>, dt: real, j: nat)
    requires |ss| == |ds| && j < |ss|
    ensures var F := Fates(ss, ds, dt);
      (F[j] == Skipped <==> j > 0 && F[j - 1] == Removed) &&
      (F[j] != Skipped ==> (F[j] == Removed <==> FinishesWith(ss[j], ds[j], dt)))
  {
    FatesPrefix(ss, ds, dt, j + 1);
    assert ss[..j + 1][..j] == ss[..j] && ds[..j + 1][..j] == ds[..j];
    if j > 0 {
      FatesPrefix(ss, ds, dt, j);
      assert Fates(ss, ds, dt)[..j][j - 1] == Fates(ss, ds, dt)[j - 1];
    }
  }

  /** Two animations are never removed in a row: the one after a removed one is skipped. */
  lemma NextIsSkipped(ss: seq<AnimState>, ds: seq<real>, dt: real, j: nat)
    requires |ss| == |ds| && j + 1 < |ss| && Fates(ss, ds, dt)[j] == Removed
    ensures Fates(ss, ds, dt)[j + 1] == Skipped
  {
    FateAt(ss, ds, dt, j + 1);
  }

  /** When nothing finishes, every animation is updated and kept. */
  lemma NoneFinishAllKept(ss: seq<AnimState>, ds: seq<real>, dt: real)
    requires |ss| == |ds|
    requires forall k :: 0 <= k < |ss| ==> !FinishesWith(ss[k], ds[k], dt)
    ensures forall k :: 0 <= k < |ss| ==> Fates(ss, ds, dt)[k] == Kept
  {
    forall k | 0 <= k < |ss|
      ensures Fates(ss, ds, dt)[k] == Kept
    {
      FateAt(ss, ds, dt, k);
      if k > 0 {
        FateAt(ss, ds, dt, k - 1);
      }
    }
  }

  /** The animations a pass leaves of the first `n` positions: those not removed, in their
      order. */
  function Survivors<T>(xs: seq<T>, fs: seq<Fate>, n: nat): (r: seq<T>)
    requires |xs| == |fs| && n <= |xs|
    ensures |r| <= n
  {
    if n == 0 then []
    else Survivors(xs, fs, n - 1) + (if fs[n - 1] == Removed then [] else [xs[n - 1]])
  }

  /** The pass leaves only animations of the positions it has been over, and keeps every one
      of them it does not remove. */
  lemma {:induction false} SurvivorsSubset<T>(xs: seq<T>, fs: seq<Fate>, n: nat)
    requires |xs| == |fs| && n <= |xs|
    ensures forall a :: a in Survivors(xs, fs, n) ==> a in xs[..n]
    ensures forall k :: 0 <= k < n && fs[k] != Removed ==> xs[k] in Survivors(xs, fs, n)
  {
    if n > 0 {
      SurvivorsSubset(xs, fs, n - 1);
      assert forall k :: 0 <= k < n - 1 ==> xs[..n - 1][k] == xs[..n][k];
    }
  }

  /** An animation the pass removes is never left in the list, for a list without
      repetitions. */
  lemma {:induction false} RemovedAreGone<T>(xs: seq<T>, fs: seq<Fate>, k: nat, n: nat)
    requires |xs| == |fs| && Lists.Distinct(xs) && k < n <= |xs| && fs[k] == Removed
    ensures xs[k] !in Survivors(xs, fs, n)
  {
    if k == n - 1 {
      SurvivorsSubset(xs, fs, n - 1);
      Lists.DistinctAt(xs, k);
    } else {
      RemovedAreGone(xs, fs, k, n - 1);
      Lists.DistinctAt(xs, k);
    }
  }

  /** Where a pass over `o` stands once the positions before `j` are behind it: the list
      `l` holds what it keeps of them followed by the positions not reached, and `i` is the
      iteration index, one past the end once the last animation was removed. */
  predicate Progress<T(==)>(o: seq<T>, F: seq<Fate>, l: seq<T>, i: nat, j: nat)
    requires |o| == |F|
  {
    j <= |o| && (j > 0 && F[j - 1] == Removed ==> j == |o|) &&
    l == Survivors(o, F, j) + o[j..] &&
    i == |Survivors(o, F, j)| + (if j > 0 && F[j - 1] == Removed then 1 else 0)
  }

  /** The iteration goes on exactly while positions remain, and it looks at position `j`. */
  lemma ProgressAt<T>(o: seq<T>, F: seq<Fate>, l: seq<T>, i: nat, j: nat)
    requires |o| == |F| && Progress(o, F, l, i, j)
    ensures i < |l| <==> j < |o|
    ensures j < |o| ==> l[i] == o[j] && l[..i] == Survivors(o, F, j)
  {
  }

  /** Once the iteration stops, every position has been visited and the list is what the
      pass keeps. */
  lemma ProgressDone<T>(o: seq<T>, F: seq<Fate>, l: seq<T>, i: nat, j: nat)
    requires |o| == |F| && Progress(o, F, l, i, j) && i >= |l|
    ensures j == |o| && l == Survivors(o, F, |o|)
  {
  }

  /** Visiting a position that stays moves the pass on by one. */
  lemma ProgressKept<T>(o: seq<T>, F: seq<Fate>, l: seq<T>, i: nat, j: nat)
    requires |o| == |F| && Progress(o, F, l, i, j) && j < |o| && F[j] != Removed
    ensures Progress(o, F, l, i + 1, j + 1)
  {
    assert o[j..] == [o[j]] + o[j + 1..];
  }

  /** Removing the animation at the iteration index: it is the one at position `j`, and it
      appears nowhere before. */
  lemma RemovedAt<T>(o: seq<T>, F: seq<Fate>, l: seq<T>, i: nat, j: nat)
    requires |o| == |F| && Lists.Distinct(o) && Progress(o, F, l, i, j) && j < |o| && F[j] == Removed
    ensures i < |l| && l[i] == o[j] && i == |Survivors(o, F, j + 1)|
    ensures Lists.RemoveFirst(l, l[i]) == Survivors(o, F, j + 1) + o[j + 1..]
  {
    assert l[i] == o[j] && l[..i] == Survivors(o, F, j) && l[i + 1..] == o[j + 1..];
    Lists.DistinctAt(o, j);
    SurvivorsSubset(o, F, j);
    Lists.RemoveFirstAt(l, i);
  }

  /** Removing the last animation ends the pass with the iteration index past the end. */
  lemma ProgressRemovedLast<T>(o: seq<T>, F: seq<Fate>, l: seq<T>, i: nat, j: nat)
    requires |o| == |F| && Lists.Distinct(o) && Progress(o, F, l, i, j) && j + 1 == |o| && F[j] == Removed
    ensures i < |l| && l[i] == o[j]
    ensures Progress(o, F, Lists.RemoveFirst(l, l[i]), i + 1, j + 1)
  {
    RemovedAt(o, F, l, i, j);
    assert Survivors(o, F, j + 1) + o[j + 1..] == Survivors(o, F, j + 1);
  }

  /** Removing any other animation passes over the one that slides into its place. */
  lemma ProgressRemovedSkip<T>(o: seq<T>, F: seq<Fate>, l: seq<T>, i: nat, j: nat)
    requires |o| == |F| && Lists.Distinct(o) && Progress(o, F, l, i, j) && j + 1 < |o|
    requires F[j] == Removed && F[j + 1] == Skipped
    ensures i < |l| && l[i] == o[j]
    ensures Progress(o, F, Lists.RemoveFirst(l, l[i]), i + 1, j + 2)
  {
    RemovedAt(o, F, l, i, j);
    Lists.DropCons(o, j + 1);
    Lists.AppendAssoc(Survivors(o, F, j + 1), [o[j + 1]], o[j + 2..]);
  }

  /** Every animation of the list has a duration and a consistent state. */
  ghost predicate ValidList(l: seq<Anim>)
    reads l
  {
    forall k :: 0 <= k < |l| ==> l[k].duration != 0.0 && Consistent(l[k].State())
  }

  /** The same, for states and durations taken out of a list. */
  predicate ValidStates(ss: seq<AnimState>, ds: seq<real>)
  {
    |ss| == |ds| && forall k :: 0 <= k < |ss| ==> ds[k] != 0.0 && Consistent(ss[k])
  }

  /** The durations of a list of animations. */
  function Durations(l: seq<Anim>): (r: seq<real>)
    ensures |r| == |l| && forall k :: 0 <= k < |l| ==> r[k] == l[k].duration
  {
    seq(|l|, k requires 0 <= k < |l| => l[k].duration)
  }

  /** The states of a list of animations. */
  ghost function States(l: seq<Anim>): (r: seq<AnimState>)
    reads l
    ensures |r| == |l| && forall k :: 0 <= k < |l| ==> r[k] == l[k].State()
    ensures ValidList(l) ==> ValidStates(r, Durations(l))
  {
    seq(|l|, k requires 0 <= k < |l| reads l => l[k].State())
  }

  /** A list whose states and durations are valid is valid. */
  lemma ValidFromStates(l: seq<Anim>)
    requires ValidStates(States(l), Durations(l))
    ensures ValidList(l)
  {
    assert forall k :: 0 <= k < |l| ==> States(l)[k] == l[k].State() && Durations(l)[k] == l[k].duration;
  }

  /** The states once the pass has been over the positions before `j`: each of those that
      was not skipped has been updated, the others are as they were. */
  function AfterVisits(ss: seq<AnimState>, ds: seq<real>, dt: real, j: nat): (r: seq<AnimState>)
    requires ValidStates(ss, ds)
    ensures ValidStates(r, ds)
  {
    var F := Fates(ss, ds, dt);
    seq(|ss|, k requires 0 <= k < |ss| => if k < j && F[k] != Skipped then Advance(ss[k], ds[k], dt) else ss[k])
  }

  /** Visiting a position updates that one state; passing over a skipped one changes
      nothing. */
  lemma AfterVisitsStep(ss: seq<AnimState>, ds: seq<real>, dt: real, j: nat)
    requires ValidStates(ss, ds) && j < |ss|
    ensures Fates(ss, ds, dt)[j] != Skipped ==>
      AfterVisits(ss, ds, dt, j + 1) == AfterVisits(ss, ds, dt, j)[j := Advance(ss[j], ds[j], dt)]
    ensures Fates(ss, ds, dt)[j] == Skipped ==> AfterVisits(ss, ds, dt, j + 1) == AfterVisits(ss, ds, dt, j)
  {
  }

  /** What visiting position `j` finds, when the position before it was not removed: the
      animation there is updated, removed exactly when it then is finished, and when it is
      removed the next position is passed over. */
  lemma Visit(ss: seq<AnimState>, ds: seq<real>, dt: real, j: nat)
    requires ValidStates(ss, ds) && j < |ss| && (j > 0 ==> Fates(ss, ds, dt)[j - 1] != Removed)
    ensures var F := Fates(ss, ds, dt);
      F[j] != Skipped && (F[j] == Removed <==> Advance(ss[j], ds[j], dt).finished) &&
      AfterVisits(ss, ds, dt, j + 1) == AfterVisits(ss, ds, dt, j)[j := Advance(ss[j], ds[j], dt)] &&
      (F[j] == Removed && j + 1 < |ss| ==>
        F[j + 1] == Skipped && AfterVisits(ss, ds, dt, j + 2) == AfterVisits(ss, ds, dt, j + 1))
  {
    FateAt(ss, ds, dt, j);
    FinishesWithAdvance(ss[j], ds[j], dt);
    AfterVisitsStep(ss, ds, dt, j);
    if j + 1 < |ss| {
      FateAt(ss, ds, dt, j + 1);
      AfterVisitsStep(ss, ds, dt, j + 1);
    }
  }

  /** `anim.update(dt)` for the animation at position `j` of a list without repetitions:
      only its state changes. */
  method UpdateAt(a: Anim, ghost o: seq<Anim>, ghost j: nat, dt: real)
    requires Lists.Distinct(o) && j < |o| && a == o[j] && ValidList(o)
    modifies a
    ensures a.State() == Advance(old(a.State()), a.duration, dt)
    ensures States(o) == old(States(o))[j := a.State()]
  {
    ghost var before := States(o);
    Lists.DistinctAt(o, j);
    a.Update(dt);
    assert forall k :: 0 <= k < |o| && k != j ==> o[k].State() == before[k];
  }

  /** `Manager`: the list of animations and the manager's wall clock. */
  class Manager {
    var anims: seq<Anim>
    var lastUpdate: Option<real>
    var warnings: nat

    constructor ()
      ensures anims == [] && lastUpdate == None && warnings == 0
    {
      anims := [];
      lastUpdate := None;
      warnings := 0;
    }

    /** `remove(anim)`: the first occurrence goes; an unknown animation only logs. */
    method Remove(a: Anim)
      modifies this`anims, this`warnings
      ensures anims == Lists.RemoveFirst(old(anims), a)
      ensures a !in old(anims) ==> anims == old(anims) && warnings == old(warnings) + 1
      ensures a in old(anims) ==> warnings == old(warnings)
    {
      if a in anims {
        anims := Lists.RemoveFirst(anims, a);
      } else {
        warnings := warnings + 1;
      }
    }

    /** `add(anim)`: appended at the end. */
    method Add(a: Anim)
      modifies this`anims
      ensures anims == old(anims) + [a]
    {
      anims := anims + [a];
    }

    /** `start(anim)`: reset, then append. */
    method Start(a: Anim)
      requires a.duration != 0.0
      modifies a, this`anims
      ensures a.Valid() && a.State() == AnimState(Some(0.0), true, 0.0, false)
      ensures anims == old(anims) + [a]
    {
      a.Start();
      Add(a);
    }

    /** `clear()`: each `remove` while iterating the same list; for a list without
        repetitions the elements at odd positions remain. */
    method Clear()
      modifies this`anims, this`warnings
      ensures Lists.Distinct(old(anims)) ==> anims == Lists.OddPositions(old(anims))
      ensures warnings == old(warnings)
    {
      ghost var o := anims;
      ghost var distinct := Lists.Distinct(o);
      var i := 0;
      while i < |anims|
        invariant |anims| == |o| - i && 2 * i <= |o| + 1
        invariant distinct ==> Lists.ClearedUpTo(o, anims, i)
        invariant warnings == old(warnings)
        decreases |anims| - i
      {
        if distinct {
          Lists.ClearStep(o, anims, i);
          Lists.RemoveFirstAt(anims, i);
        }
        Remove(anims[i]);
        i := i + 1;
      }
      if distinct {
        Lists.ClearDone(o, anims, i);
      }
    }

    /** `update(dt)`: one pass over the list, updating the animation at the iteration index
        and removing it at once when it is finished. */
    method Update(dt: Option<real>, now: real)
      requires Lists.Distinct(anims) && ValidList(anims)
      modifies this, anims
      ensures var d := Clock(dt, old(lastUpdate), now);
        var o := old(anims);
        var ss := old(States(anims));
        lastUpdate == d.1 && anims == Survivors(o, Fates(ss, Durations(o), d.0), |o|) &&
        ValidList(o) && States(o) == AfterVisits(ss, Durations(o), d.0, |o|)
      ensures warnings == old(warnings)
    {
      var d := Clock(dt, lastUpdate, now);
      SweepList(d.0);
      lastUpdate := d.1;
    }

    /** `remove(anim)` inside the loop of `update`: the animations keep their states. */
    method RemoveVisited(a: Anim, ghost o: seq<Anim>)
      modifies this`anims, this`warnings
      ensures anims == Lists.RemoveFirst(old(anims), a)
      ensures States(o) == old(States(o))
      ensures a in old(anims) ==> warnings == old(warnings)
    {
      Remove(a);
    }

    /** The loop of `update`. */
    method SweepList(step: real)
      requires Lists.Distinct(anims) && ValidList(anims)
      modifies this`anims, this`warnings, anims
      ensures var o := old(anims);
        var ss := old(States(anims));
        anims == Survivors(o, Fates(ss, Durations(o), step), |o|) &&
        ValidList(o) && States(o) == AfterVisits(ss, Durations(o), step, |o|)
      ensures warnings == old(warnings)
    {
      ghost var o := anims;
      ghost var s0 := States(o);
      ghost var ds := Durations(o);
      ghost var F := Fates(s0, ds, step);
      ghost var j: nat := 0;
      var i: nat := 0;
      assert AfterVisits(s0, ds, step, 0) == s0;
      while i < |anims|
        invariant Progress(o, F, anims, i, j)
        invariant States(o) == AfterVisits(s0, ds, step, j)
        invariant warnings == old(warnings)
        decreases |o| - j
      {
        ProgressAt(o, F, anims, i, j);
        i, j := VisitAt(i, step, o, s0, ds, F, j);
      }
      ProgressDone(o, F, anims, i, j);
      ValidFromStates(o);
    }

    /** One iteration of the loop of `update`: update the animation at the iteration index,
        and remove it if it is finished. */
    method VisitAt(i: nat, step: real, ghost o: seq<Anim>, ghost s0: seq<AnimState>, ghost ds: seq<real>,
                   ghost F: seq<Fate>, ghost j: nat) returns (i': nat, ghost j': nat)
      requires Lists.Distinct(o) && ValidStates(s0, ds) && ds == Durations(o) && F == Fates(s0, ds, step)
      requires Progress(o, F, anims, i, j) && j < |o|
      requires States(o) == AfterVisits(s0, ds, step, j)
      modifies this`anims, this`warnings, o
      ensures Progress(o, F, anims, i', j') && States(o) == AfterVisits(s0, ds, step, j') && j < j' <= |o|
      ensures warnings == old(warnings)
    {
      ProgressAt(o, F, anims, i, j);
      var a := anims[i];
      Visit(s0, ds, step, j);
      ValidFromStates(o);
      UpdateAt(a, o, j, step);
      if a.finished {
        if j + 1 < |o| {
          ProgressRemovedSkip(o, F, anims, i, j);
          j' := j + 2;
        } else {
          ProgressRemovedLast(o, F, anims, i, j);
          j' := j + 1;
        }
        RemoveVisited(a, o);
      } else {
        ProgressKept(o, F, anims, i, j);
        j' := j + 1;
      }
      i' := i + 1;
    }
  }
}
