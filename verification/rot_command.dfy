/** The rotation command the cylinders test scripts read from request paths: the regular
    expression `^\/rot/(.+)\/(.+)\/(.+)$` with Python's greedy matching, each group parsed
    as a float (0.0 when it does not parse), and the three angles turned into a rotation
    with the order reversed and the middle one negated. Parsing and degrees-to-radians are
    inputs (`parse`, `radians`). */
module RotCommand {
  import opened Common
  import Strings
  import Lists

  type Groups = (string, string, string)

  const PREFIX: string := "/rot/"

  /** What `$` can end at: the whole path, or the path without one final newline. */
  function Body(path: string): (s: string)
    ensures s == path || s + "\n" == path
  {
    if |path| > 0 && path[|path| - 1] == '\n' then path[..|path| - 1] else path
  }

  /** Where the greedy groups of `(.+)/(.+)/(.+)` split a newline-free text: the second
      '/' is the last one that leaves a non-empty third group, the first '/' the last one
      that leaves non-empty first and second groups. */
  function Cuts(rest: string): (r: Option<(nat, nat)>)
    ensures r.Some? ==> 1 <= r.value.0 && r.value.0 + 2 <= r.value.1 && r.value.1 + 2 <= |rest|
    ensures r.Some? ==> rest[r.value.0] == '/' && rest[r.value.1] == '/'
    ensures r.Some? ==> forall k :: r.value.1 < k < |rest| - 1 ==> rest[k] != '/'
    ensures r.Some? ==> forall k :: r.value.0 < k < r.value.1 - 1 ==> rest[k] != '/'
  {
    if |rest| == 0 then None
    else
      var q := Strings.LastIndex(rest[..|rest| - 1], '/');
      if q < 3 then None
      else
        var p := Strings.LastIndex(rest[..q - 1], '/');
        if p < 1 then None else Some((p, q))
  }

  /** With a '/' after a non-empty first group, a second group without '/' and a
      non-empty third group without '/', the cuts fall after the first and second groups. */
  lemma CutsOfSegments(a: string, b: string, c: string)
    requires |a| > 0 && |b| > 0 && |c| > 0
    requires '/' !in b && '/' !in c
    ensures Cuts(a + "/" + b + "/" + c) == Some((|a|, |a| + 1 + |b|))
  {
    var rest := a + "/" + b + "/" + c;
    var c' := c[..|c| - 1];
    assert '/' !in c' by {
      forall k | 0 <= k < |c'| ensures c'[k] != '/' {
        assert c'[k] == c[k];
      }
    }
    assert rest[..|rest| - 1] == (a + "/" + b) + ['/'] + c';
    Strings.LastIndexBeforeFree(a + "/" + b, '/', c');
    var q := |a| + 1 + |b|;
    var b' := b[..|b| - 1];
    assert '/' !in b' by {
      forall k | 0 <= k < |b'| ensures b'[k] != '/' {
        assert b'[k] == b[k];
      }
    }
    assert rest[..q - 1] == a + ['/'] + b';
    Strings.LastIndexBeforeFree(a, '/', b');
  }

  /** The groups of the one match, if any. `.` matches anything but a newline, so a path
      with a newline before its end does not match. */
  function RotGroups(path: string): Option<Groups>
  {
    var s := Body(path);
    if !Strings.StartsWith(s, PREFIX) || '\n' in s then None
    else
      var rest := s[|PREFIX|..];
      match Cuts(rest)
      case None => None
      case Some((p, q)) => Some((rest[..p], rest[p + 1..q], rest[q + 1..]))
  }

  /** A '/' occurs in `s` at most as its last character. */
  predicate SlashOnlyLast(s: string)
  {
    forall k :: 0 <= k < |s| - 1 ==> s[k] != '/'
  }

  lemma Reassemble(s: string, p: nat, q: nat)
    requires p < q < |s| && s[p] == '/' && s[q] == '/'
    ensures s == s[..p] + "/" + s[p + 1..q] + "/" + s[q + 1..]
  {
  }

  lemma CharFreeSlice(s: string, ch: char, i: nat, j: nat)
    requires ch !in s && i <= j <= |s|
    ensures ch !in s[i..j]
  {
    assert forall k :: 0 <= k < j - i ==> s[i..j][k] == s[i + k];
  }

  /** The three groups the cuts leave in a newline-free text. */
  lemma GroupsOfCuts(rest: string, p: nat, q: nat)
    requires Cuts(rest) == Some((p, q)) && '\n' !in rest
    ensures rest == rest[..p] + "/" + rest[p + 1..q] + "/" + rest[q + 1..]
    ensures p > 0 && q > p + 1 && |rest| > q + 1
    ensures '\n' !in rest[..p] && '\n' !in rest[p + 1..q] && '\n' !in rest[q + 1..]
    ensures SlashOnlyLast(rest[p + 1..q]) && SlashOnlyLast(rest[q + 1..])
  {
    Reassemble(rest, p, q);
    CharFreeSlice(rest, '\n', 0, p);
    CharFreeSlice(rest, '\n', p + 1, q);
    CharFreeSlice(rest, '\n', q + 1, |rest|);
    var mid, last := rest[p + 1..q], rest[q + 1..];
    forall k | 0 <= k < |mid| - 1 ensures mid[k] != '/' {
      assert mid[k] == rest[p + 1 + k];
    }
    forall k | 0 <= k < |last| - 1 ensures last[k] != '/' {
      assert last[k] == rest[q + 1 + k];
    }
  }

  /** Regrouping a prefix and three '/'-separated parts. */
  lemma Reassociate(x: string, a: string, b: string, c: string)
    ensures x + (a + "/" + b + "/" + c) == x + a + "/" + b + "/" + c
  {
    Lists.AppendAssoc(x, a + "/" + b, "/" + c);
  }

  /** Every match spells the path back: `/rot/`, the three non-empty groups separated by
      '/', and nothing but an optional final newline; the last two groups hold a '/' at
      most at their end. */
  lemma RotGroupsShape(path: string)
    requires RotGroups(path).Some?
    ensures var g := RotGroups(path).value;
      Body(path) == PREFIX + g.0 + "/" + g.1 + "/" + g.2 &&
      |g.0| > 0 && |g.1| > 0 && |g.2| > 0 &&
      '\n' !in g.0 && '\n' !in g.1 && '\n' !in g.2 &&
      SlashOnlyLast(g.1) && SlashOnlyLast(g.2)
  {
    var s := Body(path);
    var rest := s[|PREFIX|..];
    var (p, q) := Cuts(rest).value;
    CharFreeSlice(s, '\n', |PREFIX|, |s|);
    GroupsOfCuts(rest, p, q);
    var g := (rest[..p], rest[p + 1..q], rest[q + 1..]);
    assert RotGroups(path).value == g;
    assert s == PREFIX + rest;
    Reassociate(PREFIX, g.0, g.1, g.2);
  }

  lemma NoNewline(a: string, b: string, c: string)
    requires '\n' !in a && '\n' !in b && '\n' !in c
    ensures '\n' !in PREFIX + a + "/" + b + "/" + c
  {
    var path := PREFIX + a + "/" + b + "/" + c;
    forall k | 0 <= k < |path| ensures path[k] != '\n' {
      if k < |PREFIX| {
      } else if k < |PREFIX| + |a| {
        assert path[k] == a[k - |PREFIX|];
      } else if k == |PREFIX| + |a| {
      } else if k < |PREFIX| + |a| + 1 + |b| {
        assert path[k] == b[k - |PREFIX| - |a| - 1];
      } else if k == |PREFIX| + |a| + 1 + |b| {
      } else {
        assert path[k] == c[k - |PREFIX| - |a| - 2 - |b|];
      }
    }
  }

  /** A newline-free `/rot/` path whose rest has cuts matches with the groups they leave. */
  lemma RotGroupsOfCuts(path: string, rest: string, p: nat, q: nat)
    requires path == PREFIX + rest && '\n' !in path && Cuts(rest) == Some((p, q))
    ensures RotGroups(path) == Some((rest[..p], rest[p + 1..q], rest[q + 1..]))
  {
    assert Body(path) == path by {
      assert path[|path| - 1] in path;
    }
    assert Strings.StartsWith(path, PREFIX) by {
      assert path[..|PREFIX|] == PREFIX;
    }
    assert path[|PREFIX|..] == rest;
  }

  lemma SegmentSlices(a: string, b: string, c: string)
    ensures var rest := a + "/" + b + "/" + c;
      rest[..|a|] == a && rest[|a| + 1..|a| + 1 + |b|] == b && rest[|a| + 2 + |b|..] == c
  {
  }

  /** `/rot/a/b/c` with three non-empty segments, the last two without '/', matches with
      exactly those groups; the first may itself contain '/'. */
  lemma RotGroupsOfSegments(a: string, b: string, c: string)
    requires |a| > 0 && |b| > 0 && |c| > 0
    requires '/' !in b && '/' !in c
    requires '\n' !in a && '\n' !in b && '\n' !in c
    ensures RotGroups(PREFIX + a + "/" + b + "/" + c) == Some((a, b, c))
  {
    var rest := a + "/" + b + "/" + c;
    Reassociate(PREFIX, a, b, c);
    NoNewline(a, b, c);
    CutsOfSegments(a, b, c);
    RotGroupsOfCuts(PREFIX + rest, rest, |a|, |a| + 1 + |b|);
    SegmentSlices(a, b, c);
  }

  /** Python's `float(x)` with the scripts' fallback: 0.0 when it raises. */
  function OrZero(v: Option<real>): real
  {
    if v.Some? then v.value else 0.0
  }

  /** The rotation a match sets: `[radians(c), radians(-b), radians(a)]`. */
  function Rotation(g: Groups, parse: string -> Option<real>, radians: real -> real): Vec3
  {
    var a, b, c := OrZero(parse(g.0)), OrZero(parse(g.1)), OrZero(parse(g.2));
    Vec3(radians(c), radians(-b), radians(a))
  }

  /** The rotation a request path commands, or None when the path does not match. */
  function Command(path: string, parse: string -> Option<real>, radians: real -> real): Option<Vec3>
  {
    match RotGroups(path)
    case None => None
    case Some(g) => Some(Rotation(g, parse, radians))
  }

  /** The rotation of matched groups, axis by axis. */
  lemma CommandOfGroups(path: string, g: Groups, parse: string -> Option<real>, radians: real -> real)
    requires RotGroups(path) == Some(g)
    ensures Command(path, parse, radians)
      == Some(Vec3(radians(OrZero(parse(g.2))), radians(-OrZero(parse(g.1))), radians(OrZero(parse(g.0)))))
    ensures parse(g.2).None? ==> Command(path, parse, radians).value.x == radians(0.0)
    ensures parse(g.1).None? ==> Command(path, parse, radians).value.y == radians(0.0)
    ensures parse(g.0).None? ==> Command(path, parse, radians).value.z == radians(0.0)
  {
    assert -OrZero(None) == 0.0;
  }

  /** `/rot/a/b/c` turns about x by c, about y by minus b and about z by a, each segment
      that does not parse counting as 0 on its own axis only. */
  lemma CommandOfSegments(path: string, a: string, b: string, c: string, parse: string -> Option<real>, radians: real -> real)
    requires path == PREFIX + a + "/" + b + "/" + c
    requires |a| > 0 && |b| > 0 && |c| > 0
    requires '/' !in b && '/' !in c
    requires '\n' !in a && '\n' !in b && '\n' !in c
    ensures Command(path, parse, radians)
      == Some(Vec3(radians(OrZero(parse(c))), radians(-OrZero(parse(b))), radians(OrZero(parse(a)))))
    ensures parse(c).None? ==> Command(path, parse, radians).value.x == radians(0.0)
    ensures parse(b).None? ==> Command(path, parse, radians).value.y == radians(0.0)
    ensures parse(a).None? ==> Command(path, parse, radians).value.z == radians(0.0)
  {
    RotGroupsOfSegments(a, b, c);
    CommandOfGroups(path, (a, b, c), parse, radians);
  }

  /** A path outside `/rot/` commands nothing, and neither does one with fewer than three
      segments after it. */
  lemma NoCommand(path: string, a: string, b: string, parse: string -> Option<real>, radians: real -> real)
    requires '/' !in a && '/' !in b
    ensures !Strings.StartsWith(Body(path), PREFIX) ==> Command(path, parse, radians) == None
    ensures Command(PREFIX + a + "/" + b, parse, radians) == None
  {
  }
}
