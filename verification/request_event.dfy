/** The web server the cylinders test scripts talk to, as far as they use it: `setup()`,
    `destroy()` and a request event that callbacks join with `+=`, leave with `-=` and are
    looked up in with `in`. The server's own behaviour is not part of this model; its
    `setup` and `destroy` calls are recorded in order, and a callback is known by a
    number. */
module RequestEvent {
  import Lists

  datatype ServerCall = SetupCall | DestroyCall

  /** `requestEvent`: the subscribed callbacks, in subscription order. */
  class Event {
    var listeners: seq<nat>

    constructor ()
      ensures listeners == []
    {
      listeners := [];
    }

    /** `event += callback`. */
    method Subscribe(l: nat)
      modifies this
      ensures listeners == old(listeners) + [l]
    {
      listeners := listeners + [l];
    }

    /** `event -= callback`, which the scripts only do for a subscribed callback. */
    method Unsubscribe(l: nat)
      requires l in listeners
      modifies this
      ensures listeners == Lists.RemoveFirst(old(listeners), l)
      ensures multiset(listeners) == multiset(old(listeners)) - multiset{l}
    {
      Lists.RemoveFirstMultiset(listeners, l);
      listeners := Lists.RemoveFirst(listeners, l);
    }
  }

  class Server {
    const requestEvent: Event
    var calls: seq<ServerCall>

    constructor ()
      ensures fresh(requestEvent) && requestEvent.listeners == [] && calls == []
    {
      requestEvent := new Event();
      calls := [];
    }

    method Setup()
      modifies this`calls
      ensures calls == old(calls) + [SetupCall]
    {
      calls := calls + [SetupCall];
    }

    method Destroy()
      modifies this`calls
      ensures calls == old(calls) + [DestroyCall]
    {
      calls := calls + [DestroyCall];
    }
  }

  /** Subscribing and then unsubscribing the same callback leaves the same callbacks
      subscribed as many times as before, and the very same list when it was not
      subscribed before. */
  lemma {:induction false} SubscribeThenUnsubscribe(l: seq<nat>, x: nat)
    ensures multiset(Lists.RemoveFirst(l + [x], x)) == multiset(l)
    ensures x !in l ==> Lists.RemoveFirst(l + [x], x) == l
    decreases |l|
  {
    Lists.RemoveFirstMultiset(l + [x], x);
    assert multiset(l + [x]) == multiset(l) + multiset{x};
    if x !in l && |l| > 0 {
      assert (l + [x])[1..] == l[1..] + [x];
      SubscribeThenUnsubscribe(l[1..], x);
      assert l == [l[0]] + l[1..];
    } else if |l| == 0 {
      assert l + [x] == [x];
    }
  }
}
