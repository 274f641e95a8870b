/** The cylinders test scripts' game object: one per owner object, it queues the HTTP
    requests the server hands it, and on every frame tries to fire a ring, takes the
    queued rotation commands and drops the rings whose action stopped. The engine calls
    and the keyboard are not part of this model. */
module TestGame {
  import opened Common
  import Lists
  import Rings
  import RotCommand
  import RequestEvent

  const ORIGIN: Vec3 := Vec3(0.0, 0.0, 0.0)
  /** The number by which `_onRequest` is known to the request event. */
  const ON_REQUEST: nat := 0

  /** The rotation after applying the commands in order: each one present sets it. */
  function Latest(rot: Vec3, cmds: seq<Option<Vec3>>): Vec3
    decreases |cmds|
  {
    if |cmds| == 0 then rot
    else
      match cmds[|cmds| - 1]
      case None => Latest(rot, cmds[..|cmds| - 1])
      case Some(v) => v
  }

  /** The command each queued request path carries. */
  function Commands(paths: seq<string>, parse: string -> Option<real>, radians: real -> real): (r: seq<Option<Vec3>>)
    ensures |r| == |paths|
    ensures forall k :: 0 <= k < |paths| ==> r[k] == RotCommand.Command(paths[k], parse, radians)
  {
    seq(|paths|, k requires 0 <= k < |paths| => RotCommand.Command(paths[k], parse, radians))
  }

  /** Without any command the rotation stays. */
  lemma {:induction false} LatestNone(rot: Vec3, cmds: seq<Option<Vec3>>)
    requires forall k :: 0 <= k < |cmds| ==> cmds[k].None?
    ensures Latest(rot, cmds) == rot
    decreases |cmds|
  {
    if |cmds| > 0 {
      LatestNone(rot, cmds[..|cmds| - 1]);
    }
  }

  /** A command followed only by requests without one decides the rotation. */
  lemma {:induction false} LatestLast(rot: Vec3, cmds: seq<Option<Vec3>>, k: nat)
    requires k < |cmds| && cmds[k].Some?
    requires forall j :: k < j < |cmds| ==> cmds[j].None?
    ensures Latest(rot, cmds) == cmds[k].value
    decreases |cmds|
  {
    if k < |cmds| - 1 {
      LatestLast(rot, cmds[..|cmds| - 1], k);
    }
  }

  /** The last command present decides the rotation; without one it stays. */
  lemma LatestSpec(rot: Vec3, cmds: seq<Option<Vec3>>)
    ensures (forall k :: 0 <= k < |cmds| ==> cmds[k].None?) ==> Latest(rot, cmds) == rot
    ensures forall k :: 0 <= k < |cmds| && cmds[k].Some? && (forall j :: k < j < |cmds| ==> cmds[j].None?) ==>
      Latest(rot, cmds) == cmds[k].value
  {
    if forall k :: 0 <= k < |cmds| ==> cmds[k].None? {
      LatestNone(rot, cmds);
    }
    forall k | 0 <= k < |cmds| && cmds[k].Some? && (forall j :: k < j < |cmds| ==> cmds[j].None?)
      ensures Latest(rot, cmds) == cmds[k].value
    {
      LatestLast(rot, cmds, k);
    }
  }

  class Game {
    const owner: GameObject
    const server: RequestEvent.Server
    var rings: seq<GameObject>
    /** The paths of the requests queued by `_onRequest`. */
    var httpRequests: seq<string>
    var rot: Vec3
    var config: Rings.SpawnConfig
    var warnings: nat
    var errors: nat

    constructor (owner: GameObject)
      ensures this.owner == owner && fresh(server) && fresh(server.requestEvent)
      ensures server.calls == [] && server.requestEvent.listeners == []
      ensures rings == [] && httpRequests == [] && warnings == 0 && errors == 0
    {
      this.owner := owner;
      server := new RequestEvent.Server();
      rings := [];
      httpRequests := [];
      rot := ORIGIN;
      config := Rings.ConfigOf(map[]);
      warnings, errors := 0, 0;
    }

    /** `setup()`: start the server, subscribe `_onRequest`, read the spawn settings from
        the owner's properties and start the rotation at the origin. */
    method Setup(props: map<string, Value>)
      modifies server`calls, server.requestEvent, this`config, this`rot
      ensures server.calls == old(server.calls) + [RequestEvent.SetupCall]
      ensures server.requestEvent.listeners == old(server.requestEvent.listeners) + [ON_REQUEST]
      ensures config == Rings.ConfigOf(props) && rot == ORIGIN
    {
      server.Setup();
      server.requestEvent.Subscribe(ON_REQUEST);
      config := Rings.ConfigOf(props);
      rot := ORIGIN;
    }

    /** `destroy()`: unsubscribe `_onRequest` if it is subscribed, then stop the server. */
    method Destroy()
      modifies server`calls, server.requestEvent
      ensures server.calls == old(server.calls) + [RequestEvent.DestroyCall]
      ensures ON_REQUEST in old(server.requestEvent.listeners) ==>
        server.requestEvent.listeners == Lists.RemoveFirst(old(server.requestEvent.listeners), ON_REQUEST)
      ensures ON_REQUEST !in old(server.requestEvent.listeners) ==>
        server.requestEvent.listeners == old(server.requestEvent.listeners)
    {
      if ON_REQUEST in server.requestEvent.listeners {
        server.requestEvent.Unsubscribe(ON_REQUEST);
      }
      server.Destroy();
    }

    /** `_onRequest(handler)`: queue the request. */
    method OnRequest(path: string)
      modifies this`httpRequests
      ensures httpRequests == old(httpRequests) + [path]
    {
      httpRequests := httpRequests + [path];
    }

    /** `fire()` with the owner's current properties: without ring names it only warns and
        spawns nothing; otherwise it picks one of them and records the new ring once the
        engine has added and parented it. */
    method Fire(props: map<string, Value>, outcome: Rings.SpawnOutcome) returns (chosen: Option<Value>)
      modifies this`rings, this`warnings, this`errors
      ensures Rings.RingNames(props) == [] ==>
        chosen == None && rings == old(rings) && warnings == old(warnings) + 1 && errors == old(errors)
      ensures Rings.RingNames(props) != [] ==>
        chosen.Some? && chosen.value in Rings.RingNames(props) &&
        rings == old(rings) + Rings.Appended(outcome) && warnings == old(warnings) &&
        errors == old(errors) + (if outcome.Spawned? then 0 else 1)
    {
      var names := Rings.GetRingNames(props);
      if |names| < 1 {
        warnings := warnings + 1;
        return None;
      }
      var k :| 0 <= k < |names|;
      chosen := Some(names[k]);
      if !outcome.AddFailed? {
        rings := rings + [outcome.obj];
      }
      if !outcome.Spawned? {
        errors := errors + 1;
      }
    }

    /** The request loop of `update`: each queued path that matches sets the rotation; the
        queue is then emptied. */
    method TakeRequests(parse: string -> Option<real>, radians: real -> real)
      modifies this`rot, this`httpRequests
      ensures rot == Latest(old(rot), Commands(old(httpRequests), parse, radians)) && httpRequests == []
    {
      var cmds := Commands(httpRequests, parse, radians);
      var i := 0;
      while i < |cmds|
        invariant 0 <= i <= |cmds|
        invariant rot == Latest(old(rot), cmds[..i])
      {
        assert cmds[..i + 1][..i] == cmds[..i];
        if cmds[i].Some? {
          rot := cmds[i].value;
        }
        i := i + 1;
      }
      assert cmds[..i] == cmds;
      httpRequests := [];
    }

    /** `update()`: fire, take the queued requests, then drop the rings whose action
        stopped (a ring fired in this frame included). */
    method Update(props: map<string, Value>, outcome: Rings.SpawnOutcome, playing: GameObject -> bool,
                  parse: string -> Option<real>, radians: real -> real) returns (chosen: Option<Value>)
      modifies this`rings, this`warnings, this`errors, this`rot, this`httpRequests
      ensures httpRequests == [] && rot == Latest(old(rot), Commands(old(httpRequests), parse, radians))
      ensures chosen.Some? <==> Rings.RingNames(props) != []
      ensures chosen.Some? ==> chosen.value in Rings.RingNames(props)
      ensures var fired := if Rings.RingNames(props) == [] then old(rings) else old(rings) + Rings.Appended(outcome);
        rings == Lists.Keep(fired, Rings.Stopped(fired, playing))
    {
      chosen := Fire(props, outcome);
      TakeRequests(parse, radians);
      rings := Rings.Sweep(rings, playing);
    }
  }

  /** The class-level `_instances_by_owner` dictionary. */
  class Registry {
    var instances: map<GameObject, Game>

    ghost predicate Valid()
      reads this
    {
      forall o :: o in instances ==> instances[o].owner == o
    }

    constructor ()
      ensures Valid() && instances == map[]
    {
      instances := map[];
    }

    /** `for_owner(owner)`: the registered game if there is one, otherwise a new one,
        registered. */
    method ForOwner(owner: GameObject) returns (g: Game)
      requires Valid()
      modifies this
      ensures Valid() && g.owner == owner && owner in instances && instances[owner] == g
      ensures owner in old(instances) ==> g == old(instances)[owner] && instances == old(instances)
      ensures owner !in old(instances) ==>
        fresh(g) && g.rings == [] && g.httpRequests == [] && instances == old(instances)[owner := g]
    {
      if owner in instances {
        g := instances[owner];
        return;
      }
      g := new Game(owner);
      instances := instances[owner := g];
    }
  }
}
