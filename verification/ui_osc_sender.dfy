/** The ui-editor add-on's OSC sender: one sender per "host:port" key in a shared
    registry, a client created by `_connect` and dropped by `_disconnect`, a `send` that
    re-raises transmit failures, and the `isConnected`/`setVerbose` accessors. */
module UiOscSender {
  import opened Common
  import Numerals
  import Strings

  datatype Endpoint = Endpoint(host: string, port: int)

  datatype SendOutcome = Sent(to: Endpoint, msg: Message) | Raised(error: PyError)

  datatype LogLevel = Debug | Info | Warning

  /** The registry key `str(host) + ':' + str(port)`. */
  function InstanceKey(host: string, port: int): string
  {
    host + ":" + Numerals.IntToString(port)
  }

  /** Two (host, port) pairs share a registry entry only when they are the same pair:
      the printed port holds no ':', so the last ':' of the key separates the two. */
  lemma InstanceKeyInjective(h1: string, p1: int, h2: string, p2: int)
    requires InstanceKey(h1, p1) == InstanceKey(h2, p2)
    ensures h1 == h2 && p1 == p2
  {
    var s1, s2 := Numerals.IntToString(p1), Numerals.IntToString(p2);
    var k := InstanceKey(h1, p1);
    Numerals.IntToStringChars(p1);
    Numerals.IntToStringChars(p2);
    Strings.LastIndexBeforeFree(h1, ':', s1);
    Strings.LastIndexBeforeFree(h2, ':', s2);
    assert h1 == k[..|h1|] == h2;
    assert s1 == k[|h1| + 1..] == s2;
    Numerals.IntToStringInjective(p1, p2);
  }

  class OscSender {
    const host: string
    const port: int
    /** The registry key for this sender's host and port. */
    ghost const key: string := InstanceKey(host, port)
    var client: Option<Endpoint>
    var connected: bool
    var level: LogLevel
    /** Every datagram handed to a UDP client, in order. */
    var sent: seq<(Endpoint, Message)>

    ghost predicate Valid()
      reads this
    {
      connected <==> client.Some?
    }

    /** `OscSender(host, port)`: no client, not connected. */
    constructor (host: string, port: int)
      ensures Valid()
      ensures this.host == host && this.port == port
      ensures client == None && !connected && sent == []
    {
      this.host := host;
      this.port := port;
      client := None;
      connected := false;
      level := Warning;
      sent := [];
    }

    /** `setup()` is `_connect()` with its result ignored. */
    method Setup(canOpen: bool)
      modifies this`client, this`connected
      ensures canOpen ==> client == Some(Endpoint(host, port)) && connected
      ensures !canOpen ==> client == old(client) && connected == old(connected)
    {
      var _ := Connect(canOpen);
    }

    /** `destroy()` is `_disconnect()`. */
    method Destroy()
      requires Valid()
      modifies this`client, this`connected
      ensures Valid()
      ensures client == None && !connected
    {
      Disconnect();
    }

    /** `_connect()`: a client for (host, port) and `connected` set on success; on failure
        (caught and logged) nothing changes and the result is false. */
    method Connect(canOpen: bool) returns (ok: bool)
      modifies this`client, this`connected
      ensures ok == canOpen
      ensures ok ==> client == Some(Endpoint(host, port)) && connected
      ensures !ok ==> client == old(client) && connected == old(connected)
    {
      if !canOpen {
        return false;
      }
      client := Some(Endpoint(host, port));
      connected := true;
      return true;
    }

    /** `_disconnect()`: acts only when a client exists, so `destroy` is idempotent. */
    method Disconnect()
      requires Valid()
      modifies this`client, this`connected
      ensures Valid()
      ensures client == None && !connected
    {
      if client.Some? {
        client := None;
        connected := false;
      }
    }

    /** `send(addr, params)`: one message with address `addr` and the arguments in order;
        a missing client (AttributeError) or a failing transmit is logged and re-raised. */
    method Send(addr: string, params: seq<Value>, transmitOk: bool) returns (outcome: SendOutcome)
      modifies this`sent
      ensures client.Some? && transmitOk ==>
        outcome == Sent(client.value, Message(addr, params)) && sent == old(sent) + [(client.value, Message(addr, params))]
      ensures client.None? ==> outcome == Raised(AttributeError) && sent == old(sent)
      ensures client.Some? && !transmitOk ==> outcome.Raised? && sent == old(sent)
    {
      var msg := Message(addr, params);
      if client.None? {
        return Raised(AttributeError);
      }
      if !transmitOk {
        return Raised(OSError(0));
      }
      sent := sent + [(client.value, msg)];
      outcome := Sent(client.value, msg);
    }

    /** `isConnected()` evaluates `self.connected` but has no return statement: it always
        yields None, whatever the connection state. */
    function IsConnected(): Option<bool>
    {
      None
    }

    /** `setVerbose(v)`: DEBUG when v is truthy, else WARNING. */
    method SetVerbose(verbose: bool)
      modifies this`level
      ensures level == (if verbose then Debug else Warning)
    {
      if verbose {
        level := Debug;
      } else {
        level := Warning;
      }
    }
  }

  /** The class-level `_instances` dictionary of `OscSender.instance_for`. */
  class Registry {
    var instances: map<string, OscSender>

    /** Every entry is the sender for the host and port its key spells. */
    ghost predicate Valid()
      reads this
    {
      forall k :: k in instances ==> instances[k].key == k
    }

    constructor ()
      ensures Valid() && instances == map[]
    {
      instances := map[];
    }

    /** `instance_for(host, port)`: the registered sender for the key if present, else a
        new one registered under that key. Either way it targets exactly (host, port). */
    method InstanceFor(host: string, port: int) returns (s: OscSender)
      requires Valid()
      modifies this
      ensures Valid()
      ensures s.host == host && s.port == port
      ensures InstanceKey(host, port) in instances && instances[InstanceKey(host, port)] == s
      ensures InstanceKey(host, port) in old(instances) ==>
        s == old(instances)[InstanceKey(host, port)] && instances == old(instances)
      ensures InstanceKey(host, port) !in old(instances) ==>
        fresh(s) && s.Valid() && s.client == None && !s.connected && s.sent == [] &&
        instances == old(instances)[InstanceKey(host, port) := s]
    {
      var key := InstanceKey(host, port);
      if key in instances {
        s := instances[key];
        InstanceKeyInjective(s.host, s.port, host, port);
        return;
      }
      s := new OscSender(host, port);
      instances := instances[key := s];
    }
  }
}
