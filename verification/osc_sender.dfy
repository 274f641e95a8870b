/** The generic OSC sender of the add-ons: an options dictionary with host/port defaults,
    a lazily created UDP client, and `running`/`connected` flags driven by
    `configure`, `setup` and `destroy`. The UDP client is external; whether the operating
    system lets it open, and whether a transmit succeeds, are inputs of the operations. */
module ModulesOscSender {
  import opened Common
  import Numerals

  /** The destination an opened client sends to. */
  datatype Endpoint = Endpoint(host: Value, port: int)

  /** What a call to `send` ends in: one datagram handed to the client, or an exception
      that escapes to the caller. */
  datatype SendOutcome = Sent(to: Endpoint, msg: Message) | Raised(error: PyError)

  const DefaultHost: Value := Str("127.0.0.1")
  const DefaultPort: int := 8080

  /** Python's `int(v)`; None stands for the ValueError it raises. */
  function IntOf(v: Value): (r: Option<int>)
    ensures v.Int? ==> r == Some(v.i)
    ensures v.Str? ==> r == Numerals.ParseInt(v.s)
  {
    match v
    case Int(i) => Some(i)
    case Bool(b) => Some(if b then 1 else 0)
    case Real(x) => Some(Trunc(x))
    case Str(s) => Numerals.ParseInt(s)
  }

  /** `port()`: the integer of the `port` option, else 8080; None when `int()` raises. */
  function PortOf(options: map<string, Value>): (r: Option<int>)
    ensures "port" !in options ==> r == Some(DefaultPort)
    ensures "port" in options ==> r == IntOf(options["port"])
  {
    if "port" in options then IntOf(options["port"]) else Some(DefaultPort)
  }

  /** `host()`: the `host` option, else '127.0.0.1'. */
  function HostOf(options: map<string, Value>): (r: Value)
    ensures "host" in options ==> r == options["host"]
    ensures "host" !in options ==> r == DefaultHost
  {
    if "host" in options then options["host"] else DefaultHost
  }

  /** A port written out as a string (the bl2030 runner configures port '2031') is read
      back as that integer, whatever the integer is. */
  lemma PrintedPortReadsBack(options: map<string, Value>, n: int)
    requires "port" in options && options["port"] == Str(Numerals.IntToString(n))
    ensures PortOf(options) == Some(n)
  {
    Numerals.ParseIntRoundTrip(n);
  }

  /** The client for these options can be created: `port()` does not raise and the socket
      opens. */
  predicate Opens(options: map<string, Value>, canOpen: bool)
  {
    canOpen && PortOf(options).Some?
  }

  /** `_connect()` returns True: the client opens and the connection log line, which
      concatenates `host()` onto a string, does not raise. */
  predicate Connects(options: map<string, Value>, canOpen: bool)
  {
    Opens(options, canOpen) && HostOf(options).Str?
  }

  class OscSender {
    var options: map<string, Value>
    var client: Option<Endpoint>
    var running: bool
    var connected: bool
    /** Every datagram handed to a UDP client, in order. */
    var sent: seq<(Endpoint, Message)>

    /** The flags agree with the client: `connected` exactly when a client exists, and
        the sender only runs while connected. */
    ghost predicate Valid()
      reads this
    {
      ClientAgrees() && (running ==> connected)
    }

    ghost predicate ClientAgrees()
      reads this
    {
      connected <==> client.Some?
    }

    /** `OscSender(options)`: nothing is connected; the options are merged over an
        empty dictionary, and since the sender is not running no reconnect happens. */
    constructor (given: map<string, Value>)
      ensures Valid()
      ensures options == given
      ensures client == None && !running && !connected && sent == []
    {
      options := map[];
      client := None;
      running := false;
      connected := false;
      sent := [];
      new;
      var _ := Configure(given, false);
    }

    /** `configure(options)`: merge the given keys over the existing ones; when a host or
        port is given while running, reconnect with `destroy` then `setup`, whose exception
        escapes. */
    method Configure(given: map<string, Value>, canOpen: bool) returns (err: Option<PyError>)
      requires Valid()
      modifies this
      ensures Valid()
      ensures options == old(options) + given
      ensures forall k :: k in old(options) && k !in given ==> k in options && options[k] == old(options)[k]
      ensures sent == old(sent)
      ensures !(("host" in given || "port" in given) && old(running)) ==>
        err == None && client == old(client) && running == old(running) && connected == old(connected)
      ensures ("host" in given || "port" in given) && old(running) ==>
        && running == Connects(options, canOpen)
        && (err.Some? <==> Opens(options, canOpen) && !HostOf(options).Str?)
        && (err.Some? ==> err == Some(TypeError))
        && connected == Opens(options, canOpen)
        && client == (if Opens(options, canOpen) then Some(Endpoint(HostOf(options), PortOf(options).value)) else None)
    {
      options := options + given;
      err := None;
      if ("host" in given || "port" in given) && running {
        Destroy();
        err := Setup(canOpen);
      }
    }

    /** `setup()`: run exactly when the connect attempt returns True; an exception from
        the attempt escapes and leaves `running` as it was. */
    method Setup(canOpen: bool) returns (err: Option<PyError>)
      requires Valid()
      modifies this
      ensures Valid()
      ensures options == old(options) && sent == old(sent)
      ensures running == (old(running) || Connects(options, canOpen))
      ensures err.Some? <==> Opens(options, canOpen) && !HostOf(options).Str?
      ensures err.Some? ==> err == Some(TypeError)
      ensures Opens(options, canOpen) ==>
        client == Some(Endpoint(HostOf(options), PortOf(options).value)) && connected
      ensures !Opens(options, canOpen) ==> client == old(client) && connected == old(connected)
    {
      var ok;
      ok, err := Connect(canOpen);
      if ok {
        running := true;
      }
    }

    /** `destroy()`: always stops running; drops the client only if there is one, so it is
        safe to call when never connected, and idempotent. */
    method Destroy()
      requires Valid()
      modifies this
      ensures Valid()
      ensures !running && !connected && client == None
      ensures options == old(options) && sent == old(sent)
    {
      Disconnect();
      running := false;
    }

    /** `_connect()`: create the client for `host()`/`port()`. `port()` raising ValueError or
        the client failing to open are both caught: the result is false and neither the
        client nor `connected` changes. Once the client exists, the log line concatenates
        `host()` onto a string, which raises TypeError for a host that is not a string:
        the client is kept and `connected` set, but no result is returned. */
    method Connect(canOpen: bool) returns (ok: bool, err: Option<PyError>)
      requires Valid()
      modifies this`client, this`connected
      ensures Valid()
      ensures ok == Connects(options, canOpen)
      ensures err.Some? <==> Opens(options, canOpen) && !HostOf(options).Str?
      ensures err.Some? ==> err == Some(TypeError)
      ensures Opens(options, canOpen) ==> client == Some(Endpoint(HostOf(options), PortOf(options).value)) && connected
      ensures !Opens(options, canOpen) ==> client == old(client) && connected == old(connected)
    {
      var port := PortOf(options);
      if port.None? || !canOpen {
        return false, None;
      }
      client := Some(Endpoint(HostOf(options), port.value));
      connected := true;
      if !HostOf(options).Str? {
        return false, Some(TypeError);
      }
      return true, None;
    }

    /** `_disconnect()`: only acts when a client exists. */
    method Disconnect()
      requires ClientAgrees()
      modifies this`client, this`connected
      ensures ClientAgrees()
      ensures client == None && !connected
    {
      if client.Some? {
        client := None;
        connected := false;
      }
    }

    /** `send(addr, params)`: one message with address `addr` and the arguments in order.
        Without a client the attribute lookup fails, and a failing transmit raises too;
        the handler then concatenates the exception onto a string, which itself raises
        TypeError, so every failure escapes to the caller. */
    method Send(addr: string, params: seq<Value>, transmitOk: bool) returns (outcome: SendOutcome)
      modifies this`sent
      ensures client.Some? && transmitOk ==>
        outcome == Sent(client.value, Message(addr, params)) && sent == old(sent) + [(client.value, Message(addr, params))]
      ensures !(client.Some? && transmitOk) ==> outcome == Raised(TypeError) && sent == old(sent)
    {
      var msg := BuildMessage(addr, params);
      if client.None? || !transmitOk {
        return Raised(TypeError);
      }
      sent := sent + [(client.value, msg)];
      outcome := Sent(client.value, msg);
    }
  }

  /** The message builder loop of `send`: the address, then one `add_arg` per parameter. */
  method BuildMessage(addr: string, params: seq<Value>) returns (msg: Message)
    ensures msg.address == addr && msg.args == params
  {
    var args: seq<Value> := [];
    for i := 0 to |params|
      invariant args == params[..i]
    {
      args := args + [params[i]];
    }
    msg := Message(addr, args);
  }
}
