/** The cylinders test scripts' HTTP rotation control: a request to `/rot/<a>/<b>/<c>`
    sets the rotation at once, to `[radians(c), radians(-b), radians(a)]`. */
module TestHttpRot {
  import opened Common
  import Lists
  import RotCommand
  import RequestEvent

  const ORIGIN: Vec3 := Vec3(0.0, 0.0, 0.0)
  /** The number by which `_onRequest` is known to the request event. */
  const ON_REQUEST: nat := 0

  class HttpRot {
    const server: RequestEvent.Server
    var rotation: Vec3

    /** A server that is not set up yet and the rotation at the origin. */
    constructor ()
      ensures fresh(server) && fresh(server.requestEvent)
      ensures server.calls == [] && server.requestEvent.listeners == [] && rotation == ORIGIN
    {
      server := new RequestEvent.Server();
      rotation := ORIGIN;
    }

    /** `setup()`: start the server, then subscribe `_onRequest`. */
    method Setup()
      modifies server`calls, server.requestEvent
      ensures server.calls == old(server.calls) + [RequestEvent.SetupCall]
      ensures server.requestEvent.listeners == old(server.requestEvent.listeners) + [ON_REQUEST]
    {
      server.Setup();
      server.requestEvent.Subscribe(ON_REQUEST);
    }

    /** `destroy()`: stop the server, then unsubscribe `_onRequest` if it is subscribed. */
    method Destroy()
      modifies server`calls, server.requestEvent
      ensures server.calls == old(server.calls) + [RequestEvent.DestroyCall]
      ensures ON_REQUEST in old(server.requestEvent.listeners) ==>
        server.requestEvent.listeners == Lists.RemoveFirst(old(server.requestEvent.listeners), ON_REQUEST)
      ensures ON_REQUEST !in old(server.requestEvent.listeners) ==>
        server.requestEvent.listeners == old(server.requestEvent.listeners)
    {
      server.Destroy();
      if ON_REQUEST in server.requestEvent.listeners {
        server.requestEvent.Unsubscribe(ON_REQUEST);
      }
    }

    /** `_onRequest(handler)`: a path that matches the rotation pattern sets the rotation it
        commands, each component that does not parse counting as 0; any other path leaves
        the rotation as it was. */
    method OnRequest(path: string, parse: string -> Option<real>, radians: real -> real)
      modifies this`rotation
      ensures RotCommand.Command(path, parse, radians).None? ==> rotation == old(rotation)
      ensures RotCommand.Command(path, parse, radians).Some? ==> rotation == RotCommand.Command(path, parse, radians).value
    {
      var groups := RotCommand.RotGroups(path);
      if groups.None? {
        return;
      }
      var g := groups.value;
      var a, b, c := 0.0, 0.0, 0.0;
      var pa, pb, pc := parse(g.0), parse(g.1), parse(g.2);
      if pa.Some? {
        a := pa.value;
      }
      if pb.Some? {
        b := pb.value;
      }
      if pc.Some? {
        c := pc.value;
      }
      rotation := Vec3(radians(c), radians(-b), radians(a));
    }
  }
}
