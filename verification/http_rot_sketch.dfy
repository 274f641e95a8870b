/** The cylinders sketch's HTTP rotation control: a request to `/rot/<z>/<y>/<x>` queues
    three angles in degrees, and each frame update turns the queued command into a
    0.1-second animation from the current rotation to the new one. Parsing a number and
    converting degrees to radians are inputs (`parse`, `radians`), as is the wall clock
    (`now`). */
module CylindersHttpRot {
  import opened Common
  import Strings
  import WebServer
  import CylindersAnim

  /** The three path segments a command queues, in the order the update reads them. */
  type Args = (string, string, string)

  /** The length of every rotation animation, in seconds. */
  const DURATION: real := 0.1
  /** The port the sketch's web server listens on when none is given. */
  const PORT: int := 2031
  /** The route the rotation handler is registered for. */
  const ROT_PATTERN: string := "^/rot/.+$"
  /** The number by which the rotation handler is known to the web server. */
  const ON_ROT: nat := 0

  const ORIGIN: Vec3 := Vec3(0.0, 0.0, 0.0)

  /** What `anim.start()` leaves. */
  const STARTED: CylindersAnim.AnimState := CylindersAnim.AnimState(Some(0.0), true, 0.0, false, None)

  /** `_onRot`'s reading of a path: the third, fourth and fifth '/'-separated parts, in
      reverse order, when there are at least five parts. */
  function Queued(path: string): Option<Args>
  {
    var parts := Strings.Split(path, '/');
    if |parts| >= 5 then Some((parts[4], parts[3], parts[2])) else None
  }

  /** The parts of a rotation path with three plain segments. */
  lemma RotSplit(a: string, b: string, c: string, tail: string)
    requires '/' !in a && '/' !in b && '/' !in c
    ensures Strings.Split("/rot/" + a + "/" + b + "/" + c + tail, '/') == ["", "rot", a, b] + Strings.Split(c + tail, '/')
  {
    var p := "/rot/" + a + "/" + b + "/" + c + tail;
    assert p == "" + ['/'] + ("rot" + ['/'] + (a + ['/'] + (b + ['/'] + (c + tail))));
    Strings.SplitCons("", "rot" + ['/'] + (a + ['/'] + (b + ['/'] + (c + tail))), '/');
    Strings.SplitCons("rot", a + ['/'] + (b + ['/'] + (c + tail)), '/');
    Strings.SplitCons(a, b + ['/'] + (c + tail), '/');
    Strings.SplitCons(b, c + tail, '/');
  }

  /** `/rot/a/b/c` queues the segments last first. */
  lemma QueuedOfRotPath(a: string, b: string, c: string)
    requires '/' !in a && '/' !in b && '/' !in c
    ensures Queued("/rot/" + a + "/" + b + "/" + c) == Some((c, b, a))
  {
    RotSplit(a, b, c, "");
    assert "/rot/" + a + "/" + b + "/" + c + "" == "/rot/" + a + "/" + b + "/" + c;
    assert c + "" == c;
    Strings.SplitOfFree(c, '/');
  }

  /** Segments after the third are ignored. */
  lemma QueuedIgnoresTail(a: string, b: string, c: string, rest: string)
    requires '/' !in a && '/' !in b && '/' !in c
    ensures Queued("/rot/" + a + "/" + b + "/" + c + "/" + rest) == Some((c, b, a))
  {
    RotSplit(a, b, c, "/" + rest);
    assert "/rot/" + a + "/" + b + "/" + c + "/" + rest == "/rot/" + a + "/" + b + "/" + c + ("/" + rest);
    Strings.SplitCons(c, rest, '/');
    assert c + ("/" + rest) == c + ['/'] + rest;
  }

  /** A path with fewer than three segments after `/rot/` queues nothing. */
  lemma QueuedShortPath(a: string, b: string)
    requires '/' !in a && '/' !in b
    ensures Queued("/rot/" + a + "/" + b) == None
  {
    var p := "/rot/" + a + "/" + b;
    assert p == "" + ['/'] + ("rot" + ['/'] + (a + ['/'] + b));
    Strings.SplitCons("", "rot" + ['/'] + (a + ['/'] + b), '/');
    Strings.SplitCons("rot", a + ['/'] + b, '/');
    Strings.SplitCons(a, b, '/');
    Strings.SplitOfFree(b, '/');
  }

  /** `update`'s conversion of queued arguments: each parsed and turned into radians, the
      middle one negated; all zero (and a warning) when any of them does not parse. */
  function Targets(q: Args, parse: string -> Option<real>, radians: real -> real): (Vec3, bool)
  {
    var v0, v1, v2 := parse(q.0), parse(q.1), parse(q.2);
    if v0.Some? && v1.Some? && v2.Some? then (Vec3(radians(v0.value), -radians(v1.value), radians(v2.value)), true)
    else (ORIGIN, false)
  }

  /** From a request to the target: the last path segment turns about x, the middle one
      about y with its sign flipped, the first about z. */
  lemma RotPathTargets(a: string, b: string, c: string, parse: string -> Option<real>, radians: real -> real)
    requires '/' !in a && '/' !in b && '/' !in c
    requires parse(a).Some? && parse(b).Some? && parse(c).Some?
    ensures Queued("/rot/" + a + "/" + b + "/" + c).Some?
    ensures Targets(Queued("/rot/" + a + "/" + b + "/" + c).value, parse, radians)
      == (Vec3(radians(parse(c).value), -radians(parse(b).value), radians(parse(a).value)), true)
  {
    QueuedOfRotPath(a, b, c);
  }

  /** One segment that does not parse sends the target to the origin. */
  lemma UnparsableTargetsOrigin(q: Args, parse: string -> Option<real>, radians: real -> real)
    requires parse(q.0).None? || parse(q.1).None? || parse(q.2).None?
    ensures Targets(q, parse, radians) == (ORIGIN, false)
  {
  }

  /** The per-axis interpolation `from + (to - from) * progress`. */
  function Lerp(a: Vec3, b: Vec3, p: real): Vec3
  {
    Vec3(a.x + (b.x - a.x) * p, a.y + (b.y - a.y) * p, a.z + (b.z - a.z) * p)
  }

  predicate Between(lo: real, hi: real, v: real)
  {
    (lo <= v <= hi) || (hi <= v <= lo)
  }

  /** Progress 0 is the start, progress 1 the target, and in between every axis lies
      between its start and its target. */
  lemma LerpBounds(a: Vec3, b: Vec3, p: real)
    ensures Lerp(a, b, 0.0) == a && Lerp(a, b, 1.0) == b
    ensures 0.0 <= p <= 1.0 ==> Between(a.x, b.x, Lerp(a, b, p).x) && Between(a.y, b.y, Lerp(a, b, p).y) && Between(a.z, b.z, Lerp(a, b, p).z)
  {
    if 0.0 <= p <= 1.0 {
      AxisBetween(a.x, b.x, p);
      AxisBetween(a.y, b.y, p);
      AxisBetween(a.z, b.z, p);
    }
  }

  lemma AxisBetween(lo: real, hi: real, p: real)
    requires 0.0 <= p <= 1.0
    ensures Between(lo, hi, lo + (hi - lo) * p)
  {
    if lo <= hi {
      ScaleDown(hi - lo, p);
    } else {
      ScaleDown(lo - hi, p);
      var d := (lo - hi) * p;
      assert (hi - lo) * p == -d;
      assert hi <= lo - d <= lo;
    }
  }

  lemma ScaleDown(d: real, p: real)
    requires d >= 0.0 && 0.0 <= p <= 1.0
    ensures 0.0 <= d * p <= d
  {
    assert d - d * p == d * (1.0 - p);
  }

  /** Everything `update` reads and writes. */
  datatype RotState = RotState(rotation: Vec3, from: Vec3, to: Vec3, queued: Option<Args>, warnings: nat, anim: CylindersAnim.AnimState)

  /** `update()`: a queued command starts a new animation from the current rotation to its
      target; then, while the animation runs, it advances on the wall clock and the rotation
      follows. */
  function Tick(s: RotState, now: real, parse: string -> Option<real>, radians: real -> real): (r: RotState)
    requires CylindersAnim.Consistent(s.anim)
    ensures CylindersAnim.Consistent(r.anim) && r.queued == None
  {
    var s1 :=
      if s.queued.Some? then
        var (target, ok) := Targets(s.queued.value, parse, radians);
        s.(from := s.rotation, to := target, queued := None, warnings := if ok then s.warnings else s.warnings + 1, anim := STARTED)
      else s;
    if s1.anim.active then
      var a := CylindersAnim.Advance(s1.anim, DURATION, None, now);
      s1.(anim := a, rotation := Lerp(s1.from, s1.to, a.progress))
    else s1
  }

  /** With nothing queued and nothing running, an update changes nothing. */
  lemma TickIdle(s: RotState, now: real, parse: string -> Option<real>, radians: real -> real)
    requires CylindersAnim.Consistent(s.anim)
    requires s.queued == None && !s.anim.active
    ensures Tick(s, now, parse, radians) == s
  {
  }

  /** The update that takes a command starts from where the rotation is and does not move
      it yet: the new animation's first step reads the clock and advances by nothing. */
  lemma TickCommand(s: RotState, now: real, parse: string -> Option<real>, radians: real -> real)
    requires CylindersAnim.Consistent(s.anim) && s.queued.Some?
    ensures var r := Tick(s, now, parse, radians);
      r.rotation == s.rotation && r.from == s.rotation &&
      r.to == Targets(s.queued.value, parse, radians).0 &&
      r.anim == CylindersAnim.AnimState(Some(0.0), true, 0.0, false, Some(now)) &&
      (r.warnings == s.warnings <==> Targets(s.queued.value, parse, radians).1)
  {
    LerpBounds(s.rotation, Targets(s.queued.value, parse, radians).0, 0.0);
  }

  /** Between commands the rotation follows the animation: at time t the per-axis blend
      with progress t / 0.1, and the animation stops once t reaches 0.1. */
  lemma TickFollows(s: RotState, now: real, parse: string -> Option<real>, radians: real -> real)
    requires CylindersAnim.Consistent(s.anim) && s.queued == None && s.anim.active
    requires CylindersAnim.Truthy(s.anim.lastUpdate)
    ensures var r := Tick(s, now, parse, radians);
      var t := s.anim.t.value + (now - s.anim.lastUpdate.value);
      r.from == s.from && r.to == s.to && r.anim.t == Some(t) &&
      r.rotation == Lerp(s.from, s.to, t / DURATION) &&
      (r.anim.active <==> t < DURATION)
  {
  }

  /** Progress is not capped at 1: a frame that arrives late carries the rotation past its
      target, and since the animation then stops, it stays there. */
  lemma LateFrameOvershoots()
    ensures var s := RotState(ORIGIN, ORIGIN, Vec3(1.0, 0.0, 0.0), None, 0, CylindersAnim.AnimState(Some(0.0), true, 0.0, false, Some(1.0)));
      var parse: string -> Option<real> := _ => None;
      var radians: real -> real := x => x;
      var r := Tick(s, 1.2, parse, radians);
      r.rotation == Vec3(2.0, 0.0, 0.0) && !r.anim.active &&
      Tick(r, 5.0, parse, radians) == r
  {
    var s := RotState(ORIGIN, ORIGIN, Vec3(1.0, 0.0, 0.0), None, 0, CylindersAnim.AnimState(Some(0.0), true, 0.0, false, Some(1.0)));
    var parse: string -> Option<real> := _ => None;
    var radians: real -> real := x => x;
    TickFollows(s, 1.2, parse, radians);
    var r := Tick(s, 1.2, parse, radians);
    assert r.anim.t == Some(0.2 as real);
    TickIdle(r, 5.0, parse, radians);
  }

  /** `HttpRot`: its web server, its animation and the rotation it drives. The animation's
      start and target (`anim._from`, `anim._to`) are kept here as `from` and `to`. */
  class HttpRot {
    const server: WebServer.Server
    const anim: CylindersAnim.Anim
    var rotation: Vec3
    var from: Vec3
    var to: Vec3
    var queued: Option<Args>
    /** "Invalid rotation value(s)" warnings logged. */
    var warnings: nat

    function State(): RotState
      reads this, anim
    {
      RotState(rotation, from, to, queued, warnings, anim.State())
    }

    ghost predicate Valid()
      reads this, anim
    {
      anim.Valid() && anim.duration == DURATION
    }

    /** A server on the given folder and the default port, no handlers yet, the rotation
        at the origin and an idle 0.1-second animation. */
    constructor (folder: string)
      ensures fresh(server) && fresh(anim) && Valid()
      ensures server.folder == folder && server.port == PORT && server.handlers == [] && !server.alive && server.log == []
      ensures State() == RotState(ORIGIN, ORIGIN, ORIGIN, None, 0, CylindersAnim.AnimState(None, false, 0.0, false, None))
    {
      server := new WebServer.Server(folder, PORT);
      anim := new CylindersAnim.Anim(DURATION);
      rotation, from, to := ORIGIN, ORIGIN, ORIGIN;
      queued := None;
      warnings := 0;
    }

    /** `setup()`: register the rotation handler for every `/rot/` path, then start the
        server. */
    method Setup()
      modifies server`handlers, server`alive, server`serving, server`log
      ensures server.handlers == old(server.handlers) + [WebServer.Handler(ROT_PATTERN, ON_ROT)]
      ensures server.alive && server.serving && server.log == old(server.log) + [WebServer.Starting(server.port)]
    {
      server.AddHandler(ROT_PATTERN, ON_ROT);
      server.Setup();
    }

    /** `destroy()`: drop every handler, then stop the server. */
    method Destroy(end: WebServer.ServeEnd)
      modifies server`handlers, server`alive, server`serving, server`log
      ensures server.handlers == [] && !server.alive
      ensures old(server.alive) ==> server.log == old(server.log) + WebServer.EndLog(end) + [WebServer.Closing(server.port)]
      ensures !old(server.alive) ==> server.log == old(server.log)
    {
      server.ClearHandlers();
      server.Destroy(end);
    }

    /** `_onRot(handler)`: queue the path's segments when it has enough of them, replacing
        any earlier command not yet taken; always answer 200. */
    method OnRot(handler: WebServer.RequestHandler)
      modifies this`queued, handler`statuses, handler`handled
      ensures Queued(handler.path).Some? ==> queued == Queued(handler.path)
      ensures Queued(handler.path).None? ==> queued == old(queued)
      ensures handler.statuses == old(handler.statuses) + [200] && handler.handled
    {
      var parts := Strings.Split(handler.path, '/');
      if |parts| >= 5 {
        queued := Some((parts[4], parts[3], parts[2]));
      }
      handler.RespondOk();
    }

    /** `update()`. */
    method Update(now: real, parse: string -> Option<real>, radians: real -> real)
      requires Valid()
      modifies this`rotation, this`from, this`to, this`queued, this`warnings, anim
      ensures Valid() && State() == Tick(old(State()), now, parse, radians)
    {
      if queued.Some? {
        from := rotation;
        var q := queued.value;
        var v0, v1, v2 := parse(q.0), parse(q.1), parse(q.2);
        var values: Vec3;
        if v0.Some? && v1.Some? && v2.Some? {
          values := Vec3(radians(v0.value), radians(v1.value), radians(v2.value));
        } else {
          warnings := warnings + 1;
          values := ORIGIN;
        }
        values := values.(y := -values.y);
        to := values;
        anim.Start();
        queued := None;
      }
      if anim.active {
        anim.Update(None, now);
        rotation := Lerp(from, to, anim.progress);
      }
    }
  }
}
