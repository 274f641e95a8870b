/** Python list operations used by the scripts: `list.remove` (first occurrence), removing
    a batch of elements one `remove` at a time, and filtering while keeping order. */
module Lists {

  predicate Distinct<T(==)>(s: seq<T>)
  {
    forall i, j :: 0 <= i < j < |s| ==> s[i] != s[j]
  }

  lemma DistinctAt<T>(s: seq<T>, i: int)
    requires Distinct(s) && 0 <= i < |s|
    ensures forall j :: 0 <= j < |s| && j != i ==> s[j] != s[i]
  {
  }

  /** `s.remove(x)`, where an absent `x` leaves the list as it was (the callers catch the
      ValueError or never pass an absent element). */
  function RemoveFirst<T(==)>(s: seq<T>, x: T): (r: seq<T>)
    ensures x in s ==> |r| == |s| - 1
    ensures x !in s ==> r == s
  {
    if |s| == 0 then []
    else if s[0] == x then s[1..]
    else [s[0]] + RemoveFirst(s[1..], x)
  }

  /** `for x in xs: s.remove(x)`. */
  function RemoveAll<T(==)>(s: seq<T>, xs: seq<T>): seq<T>
    decreases |xs|
  {
    if |xs| == 0 then s else RemoveAll(RemoveFirst(s, xs[0]), xs[1..])
  }

  /** The elements of `s` outside `drop`, in order. */
  function Keep<T>(s: seq<T>, drop: set<T>): (r: seq<T>)
    ensures |r| <= |s|
    ensures forall x :: x in r ==> x in s && x !in drop
  {
    if |s| == 0 then []
    else if s[0] in drop then Keep(s[1..], drop)
    else [s[0]] + Keep(s[1..], drop)
  }

  /** The elements of `s` inside `pick`, in order. */
  function Only<T>(s: seq<T>, pick: set<T>): (r: seq<T>)
    ensures |r| <= |s|
    ensures forall x :: x in r ==> x in s && x in pick
  {
    if |s| == 0 then []
    else if s[0] in pick then [s[0]] + Only(s[1..], pick)
    else Only(s[1..], pick)
  }

  /** Keeping distributes over concatenation: the kept elements stay in their order. */
  lemma {:induction false} KeepAppend<T>(a: seq<T>, b: seq<T>, drop: set<T>)
    ensures Keep(a + b, drop) == Keep(a, drop) + Keep(b, drop)
    decreases |a|
  {
    if |a| == 0 {
      assert a + b == b;
    } else {
      assert (a + b)[1..] == a[1..] + b;
      KeepAppend(a[1..], b, drop);
    }
  }

  /** Picking distributes over concatenation: the picked elements stay in their order. */
  lemma {:induction false} OnlyAppend<T>(a: seq<T>, b: seq<T>, pick: set<T>)
    ensures Only(a + b, pick) == Only(a, pick) + Only(b, pick)
    decreases |a|
  {
    if |a| == 0 {
      assert a + b == b;
    } else {
      assert (a + b)[1..] == a[1..] + b;
      OnlyAppend(a[1..], b, pick);
    }
  }

  /** Removing one more element after a batch is removing the longer batch. */
  lemma {:induction false} RemoveAllSnoc<T>(s: seq<T>, xs: seq<T>, x: T)
    ensures RemoveAll(s, xs + [x]) == RemoveFirst(RemoveAll(s, xs), x)
    decreases |xs|
  {
    if |xs| == 0 {
      assert xs + [x] == [x];
    } else {
      assert (xs + [x])[1..] == xs[1..] + [x];
      RemoveAllSnoc(RemoveFirst(s, xs[0]), xs[1..], x);
    }
  }

  lemma {:induction false} RemoveAllSkipsHead<T>(a: T, t: seq<T>, xs: seq<T>)
    requires a !in xs
    ensures RemoveAll([a] + t, xs) == [a] + RemoveAll(t, xs)
    decreases |xs|
  {
    if |xs| > 0 {
      assert ([a] + t)[1..] == t;
      assert RemoveFirst([a] + t, xs[0]) == [a] + RemoveFirst(t, xs[0]);
      RemoveAllSkipsHead(a, RemoveFirst(t, xs[0]), xs[1..]);
    }
  }

  /** Collecting the elements to drop in a first pass and then removing them one by one
      (the "ended" lists of the spawners, the "to_remove" list of the animation manager)
      leaves exactly the other elements, in their original order. This holds with
      repeated elements too. */
  lemma {:induction false} RemoveCollected<T>(s: seq<T>, drop: set<T>)
    ensures RemoveAll(s, Only(s, drop)) == Keep(s, drop)
    decreases |s|
  {
    if |s| > 0 {
      RemoveCollected(s[1..], drop);
      if s[0] in drop {
        assert RemoveFirst(s, s[0]) == s[1..];
      } else {
        assert s == [s[0]] + s[1..];
        RemoveAllSkipsHead(s[0], s[1..], Only(s[1..], drop));
      }
    }
  }

  lemma {:induction false} OnlySnoc<T>(s: seq<T>, x: T, pick: set<T>)
    ensures Only(s + [x], pick) == Only(s, pick) + (if x in pick then [x] else [])
    decreases |s|
  {
    if |s| > 0 {
      assert (s + [x])[1..] == s[1..] + [x];
      OnlySnoc(s[1..], x, pick);
    } else {
      assert s + [x] == [x];
    }
  }

  /** A prefix is the shorter prefix and the element after it. */
  lemma TakeSnoc<T>(s: seq<T>, n: nat)
    requires 0 < n <= |s|
    ensures s[..n] == s[..n - 1] + [s[n - 1]]
  {
  }

  /** A suffix is its first element and the suffix after it. */
  lemma DropCons<T>(s: seq<T>, n: nat)
    requires n < |s|
    ensures s[n..] == [s[n]] + s[n + 1..]
  {
  }

  lemma AppendAssoc<T>(a: seq<T>, b: seq<T>, c: seq<T>)
    ensures (a + b) + c == a + (b + c)
  {
  }

  /** Removing an element whose first occurrence is at i takes out position i. */
  lemma {:induction false} RemoveFirstAt<T>(s: seq<T>, i: nat)
    requires i < |s| && s[i] !in s[..i]
    ensures RemoveFirst(s, s[i]) == s[..i] + s[i + 1..]
    decreases i
  {
    if i > 0 {
      assert s[1..][i - 1] == s[i] && s[1..][..i - 1] == s[1..i];
      RemoveFirstAt(s[1..], i - 1);
      assert s[..i] == [s[0]] + s[1..i];
    }
  }

  /** Dropping one position keeps a list without repetitions. */
  lemma DistinctDrop<T>(s: seq<T>, i: nat)
    requires Distinct(s) && i < |s|
    ensures Distinct(s[..i] + s[i + 1..])
  {
    var r := s[..i] + s[i + 1..];
    forall a, b | 0 <= a < b < |r| ensures r[a] != r[b] {
      var a', b' := if a < i then a else a + 1, if b < i then b else b + 1;
      assert r[a] == s[a'] && r[b] == s[b'];
    }
  }

  /** The elements at odd positions, which is what removing each element while iterating over the same list leaves. */
  function OddPositions<T>(s: seq<T>): (r: seq<T>)
    ensures |r| == |s| / 2
    ensures forall k :: 0 <= k < |r| ==> r[k] == s[2 * k + 1]
  {
    seq(|s| / 2, k requires 0 <= k < |s| / 2 => s[2 * k + 1])
  }

  /** Where `clear` stands on a list o without repetitions after i iterations: the
      elements at odd positions of o before the index, the untouched rest after it. */
  predicate ClearedUpTo<T(==)>(o: seq<T>, s: seq<T>, i: nat)
  {
    Distinct(s) && |s| == |o| - i &&
    (forall k :: 0 <= k < |s| && k < i ==> s[k] == o[2 * k + 1]) &&
    (forall k :: i <= k < |s| ==> s[k] == o[k + i])
  }

  /** One step of `clear`: the element at the iteration index goes, and the next one moves
      into its place, where the iteration skips it. */
  lemma ClearStep<T>(o: seq<T>, s: seq<T>, i: nat)
    requires ClearedUpTo(o, s, i) && i < |s|
    ensures s[i] !in s[..i]
    ensures ClearedUpTo(o, s[..i] + s[i + 1..], i + 1)
  {
    DistinctDrop(s, i);
    var r := s[..i] + s[i + 1..];
    forall k | 0 <= k < |r| && k < i + 1 ensures r[k] == o[2 * k + 1] {
      if k == i {
        assert r[k] == s[i + 1] == o[i + 1 + i];
      }
    }
  }

  lemma ClearDone<T>(o: seq<T>, s: seq<T>, i: nat)
    requires ClearedUpTo(o, s, i) && |s| <= i && 2 * i <= |o| + 1
    ensures s == OddPositions(o)
  {
  }

  /** Appending an element that is not there yet keeps a list without repetitions. */
  lemma DistinctSnoc<T>(s: seq<T>, x: T)
    requires Distinct(s) && x !in s
    ensures Distinct(s + [x])
  {
    forall i, j | 0 <= i < j < |s + [x]| ensures (s + [x])[i] != (s + [x])[j] {
      if j == |s| {
        assert s[i] in s;
      }
    }
  }

  /** `remove` takes out exactly one copy of an element that is present. */
  lemma {:induction false} RemoveFirstMultiset<T>(s: seq<T>, x: T)
    requires x in s
    ensures multiset(RemoveFirst(s, x)) == multiset(s) - multiset{x}
    decreases |s|
  {
    assert s == [s[0]] + s[1..];
    if s[0] != x {
      RemoveFirstMultiset(s[1..], x);
    }
  }

  /** Picking takes each element at most as often as it occurs. */
  lemma {:induction false} OnlyMultiset<T>(s: seq<T>, pick: set<T>)
    ensures multiset(Only(s, pick)) <= multiset(s)
    decreases |s|
  {
    if |s| > 0 {
      OnlyMultiset(s[1..], pick);
      assert s == [s[0]] + s[1..];
    }
  }

  /** Every element of `s` inside `pick` is picked. */
  lemma {:induction false} OnlyComplete<T>(s: seq<T>, pick: set<T>, x: T)
    requires x in s && x in pick
    ensures x in Only(s, pick)
    decreases |s|
  {
    if s[0] != x {
      OnlyComplete(s[1..], pick, x);
    }
  }

  /** Every element of `s` outside `drop` is kept. */
  lemma {:induction false} KeepComplete<T>(s: seq<T>, drop: set<T>, x: T)
    requires x in s && x !in drop
    ensures x in Keep(s, drop)
    decreases |s|
  {
    if s[0] != x {
      KeepComplete(s[1..], drop, x);
    }
  }

  /** Picking from a list without repetitions gives a list without repetitions. */
  lemma {:induction false} OnlyDistinct<T>(s: seq<T>, pick: set<T>)
    requires Distinct(s)
    ensures Distinct(Only(s, pick))
    decreases |s|
  {
    if |s| > 0 {
      OnlyDistinct(s[1..], pick);
      if s[0] in pick {
        assert s[0] !in s[1..];
      }
    }
  }
}
