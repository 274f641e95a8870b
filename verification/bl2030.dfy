/** The bl2030 add-on: on every frame change a per-scene runner sends the name of every
    timeline marker on the current frame that looks like an OSC address, then, for every
    object with custom properties whose names look like OSC addresses, sends each such
    property whose value changed since it was last sent.

    The host's objects are given per frame as values keyed by their identity: their
    current name, their custom-property keys in key order and the current values of those
    properties. Object wrappers hold the identity of their object and read its name and
    properties when they need them; reading an object deleted since it was wrapped raises
    ReferenceError. */
module Bl2030 {
  import opened Common
  import Strings
  import Lists
  import Numerals
  import ModulesOscSender

  /** One object as the runner reads it during a frame. */
  datatype HostObject = HostObject(name: string, keys: seq<string>, values: map<string, Value>)

  /** What the runner reads from the host during a frame: the objects still alive, by
      identity, and the objects of the current scene, in scene order. */
  datatype Host = Host(objects: map<BlenderRef, HostObject>, scene: seq<BlenderRef>)

  /** Every object in `refs` is still alive. */
  predicate Alive(refs: seq<BlenderRef>, objects: map<BlenderRef, HostObject>)
  {
    forall i :: 0 <= i < |refs| ==> refs[i] in objects
  }

  /** No two live objects share a name, as Blender keeps object names unique. */
  predicate NamesUnique(objects: map<BlenderRef, HostObject>)
  {
    forall a, b :: a in objects && b in objects && objects[a].name == objects[b].name ==> a == b
  }

  /** A timeline marker. */
  datatype Marker = Marker(name: string, frame: int)

  /** A name the add-on treats as an OSC address: it starts with '/'. */
  predicate IsAddress(name: string)
  {
    Strings.StartsWith(name, "/")
  }

  // ---------------------------------------------------------------- relevant names

  /** The keys that are OSC addresses, in key order. */
  function RelevantNames(keys: seq<string>): (names: seq<string>)
    ensures |names| <= |keys|
    ensures forall i :: 0 <= i < |names| ==> IsAddress(names[i])
  {
    if |keys| == 0 then []
    else if IsAddress(keys[0]) then [keys[0]] + RelevantNames(keys[1..])
    else RelevantNames(keys[1..])
  }

  /** Exactly the address-like keys are kept. */
  lemma {:induction false} RelevantNamesMembers(keys: seq<string>)
    ensures forall n :: n in RelevantNames(keys) <==> n in keys && IsAddress(n)
    decreases |keys|
  {
    if |keys| > 0 {
      RelevantNamesMembers(keys[1..]);
      assert keys == [keys[0]] + keys[1..];
    }
  }

  /** An object is relevant exactly when one of its keys is an OSC address. */
  lemma RelevantIffAddressKey(keys: seq<string>)
    ensures |RelevantNames(keys)| > 0 <==> exists k :: k in keys && IsAddress(k)
  {
    RelevantNamesMembers(keys);
    if |RelevantNames(keys)| > 0 {
      assert RelevantNames(keys)[0] in RelevantNames(keys);
    }
  }

  /** The relevant objects of a scene, in scene order. */
  function RelevantRefs(objects: map<BlenderRef, HostObject>, scene: seq<BlenderRef>): (rs: seq<BlenderRef>)
    requires Alive(scene, objects)
    ensures |rs| <= |scene|
    ensures forall r :: r in rs <==> r in scene && RelevantNames(objects[r].keys) != []
  {
    if |scene| == 0 then []
    else if |RelevantNames(objects[scene[0]].keys)| > 0 then [scene[0]] + RelevantRefs(objects, scene[1..])
    else RelevantRefs(objects, scene[1..])
  }

  // ---------------------------------------------------------------- registration

  /** Appending every candidate that is not yet registered, checking against the list as
      it grows (the `_update_prop_wrappers` and `_update_object_wrappers` loops). */
  function Register<T(==)>(existing: seq<T>, candidates: seq<T>): seq<T>
    decreases |candidates|
  {
    if |candidates| == 0 then existing
    else if candidates[0] in existing then Register(existing, candidates[1..])
    else Register(existing + [candidates[0]], candidates[1..])
  }

  /** Registration keeps what was there in place, registers every candidate, adds
      nothing else, and never registers anything twice. */
  lemma {:induction false} RegisterSpec<T>(existing: seq<T>, candidates: seq<T>)
    ensures |Register(existing, candidates)| >= |existing|
    ensures Register(existing, candidates)[..|existing|] == existing
    ensures forall n :: n in Register(existing, candidates) <==> n in existing || n in candidates
    ensures Lists.Distinct(existing) ==> Lists.Distinct(Register(existing, candidates))
    decreases |candidates|
  {
    if |candidates| > 0 {
      var c := candidates[0];
      assert candidates == [c] + candidates[1..];
      if c in existing {
        RegisterSpec(existing, candidates[1..]);
      } else {
        var grown := existing + [c];
        RegisterSpec(grown, candidates[1..]);
        assert grown[..|existing|] == existing;
        assert Register(existing, candidates)[..|existing|] == grown[..|grown|][..|existing|];
      }
    }
  }

  /** Registering one more candidate appends it exactly when it is not registered yet. */
  lemma {:induction false} RegisterSnoc<T>(existing: seq<T>, candidates: seq<T>, c: T)
    ensures Register(existing, candidates + [c]) ==
      if c in Register(existing, candidates) then Register(existing, candidates) else Register(existing, candidates) + [c]
    decreases |candidates|
  {
    if |candidates| == 0 {
      assert candidates + [c] == [c];
    } else {
      assert (candidates + [c])[1..] == candidates[1..] + [c];
      if candidates[0] in existing {
        RegisterSnoc(existing, candidates[1..], c);
      } else {
        RegisterSnoc(existing + [candidates[0]], candidates[1..], c);
      }
    }
  }

  // ---------------------------------------------------------------- markers

  /** The messages for the markers on `frame` whose names are OSC addresses: the marker
      name as address and no arguments, in marker order. */
  function MarkerMessages(markers: seq<Marker>, frame: int): (msgs: seq<Message>)
    ensures |msgs| <= |markers|
    ensures forall i :: 0 <= i < |msgs| ==> IsAddress(msgs[i].address) && msgs[i].args == []
  {
    if |markers| == 0 then []
    else if markers[0].frame == frame && IsAddress(markers[0].name) then
      [Message(markers[0].name, [])] + MarkerMessages(markers[1..], frame)
    else MarkerMessages(markers[1..], frame)
  }

  /** Marker `k` sits on `frame`, its name is an address, and `m` is its message. */
  predicate MarkerFires(markers: seq<Marker>, frame: int, k: int, m: Message)
  {
    0 <= k < |markers| && markers[k].frame == frame && IsAddress(markers[k].name) &&
    m == Message(markers[k].name, [])
  }

  /** A message is sent for a marker exactly when the marker sits on the current frame
      and its name is an address; such messages carry no arguments. */
  lemma {:induction false} MarkerMessagesSpec(markers: seq<Marker>, frame: int)
    ensures forall m :: m in MarkerMessages(markers, frame) <==> exists k :: MarkerFires(markers, frame, k, m)
    decreases |markers|
  {
    if |markers| > 0 {
      MarkerMessagesSpec(markers[1..], frame);
      forall m | m in MarkerMessages(markers, frame)
        ensures exists k :: MarkerFires(markers, frame, k, m)
      {
        if m in MarkerMessages(markers[1..], frame) {
          var k :| MarkerFires(markers[1..], frame, k, m);
          assert MarkerFires(markers, frame, k + 1, m);
        } else {
          assert MarkerFires(markers, frame, 0, m);
        }
      }
      forall m, k | MarkerFires(markers, frame, k, m)
        ensures m in MarkerMessages(markers, frame)
      {
        if k > 0 {
          assert MarkerFires(markers[1..], frame, k - 1, m);
        }
      }
    }
  }

  /** The markers of a concatenation fire in order: those of the first part, then those
      of the second. */
  lemma {:induction false} MarkerMessagesAppend(a: seq<Marker>, b: seq<Marker>, frame: int)
    ensures MarkerMessages(a + b, frame) == MarkerMessages(a, frame) + MarkerMessages(b, frame)
    decreases |a|
  {
    if |a| == 0 {
      assert a + b == b;
    } else {
      assert (a + b)[1..] == a[1..] + b;
      MarkerMessagesAppend(a[1..], b, frame);
    }
  }

  /** Marker `k` adds its message, if it fires, after those of the markers before it. */
  lemma MarkerMessagesStep(markers: seq<Marker>, frame: int, k: int)
    requires 0 <= k < |markers|
    ensures MarkerMessages(markers[..k + 1], frame) == MarkerMessages(markers[..k], frame) +
      (if markers[k].frame == frame && IsAddress(markers[k].name) then [Message(markers[k].name, [])] else [])
    ensures MarkerMessages(markers, frame) == MarkerMessages(markers[..k + 1], frame) + MarkerMessages(markers[k + 1..], frame)
  {
    assert markers[..k + 1] == markers[..k] + [markers[k]];
    MarkerMessagesAppend(markers[..k], [markers[k]], frame);
    assert markers == markers[..k + 1] + markers[k + 1..];
    MarkerMessagesAppend(markers[..k + 1], markers[k + 1..], frame);
  }

  // ---------------------------------------------------------------- change detection

  /** `changed_value()`: the current value when it differs (Python `!=`) from the last
      one sent, or when nothing was sent yet; None otherwise. */
  function ChangedValue(prev: Option<Value>, cur: Value): (r: Option<Value>)
    ensures r.Some? <==> prev.None? || !PyEq(cur, prev.value)
    ensures r.Some? ==> r.value == cur
  {
    if prev.None? || !PyEq(cur, prev.value) then Some(cur) else None
  }

  /** The value a property wrapper remembers after `update()`. */
  function Stored(prev: Option<Value>, cur: Value): (p: Option<Value>)
    ensures p.Some?
    ensures PyEq(cur, p.value)
  {
    var c := ChangedValue(prev, cur);
    if c.Some? then c else prev
  }

  /** An unchanged value is reported once: a second update with the same (or a
      Python-equal) value reports nothing. */
  lemma SecondUpdateIsSilent(prev: Option<Value>, cur: Value, again: Value)
    requires PyEq(again, cur)
    ensures ChangedValue(Stored(prev, cur), again) == None
  {
    PyEqIsEquivalence(again, cur, Stored(prev, cur).value);
  }

  /** What a pass over an object's property wrappers has done so far: the remembered
      values, the messages sent, and the exception that ended the pass, if any. */
  datatype Sweep = Sweep(prevs: seq<Option<Value>>, msgs: seq<Message>, error: Option<PyError>)

  /** One iteration of the inner loop of `Runner.update`, for wrapper `i`. Once an
      exception has been raised nothing more happens. A property missing from the object
      raises KeyError before anything is stored; a changed value is stored and then
      sent, and when sending is impossible the send raises after the store. */
  function SweepStep(s: Sweep, names: seq<string>, values: map<string, Value>, canSend: bool, i: int): Sweep
    requires 0 <= i < |names| == |s.prevs|
  {
    if s.error.Some? then s
    else if names[i] !in values then Sweep(s.prevs, s.msgs, Some(KeyError))
    else
      var cur := values[names[i]];
      var c := ChangedValue(s.prevs[i], cur);
      var ps := s.prevs[i := Stored(s.prevs[i], cur)];
      if c.Some? && !canSend then Sweep(ps, s.msgs, Some(TypeError))
      else Sweep(ps, s.msgs + (if c.Some? then [Message(names[i], [cur])] else []), None)
  }

  /** The pass after its first `k` iterations. */
  function SweepUpTo(names: seq<string>, prevs: seq<Option<Value>>, values: map<string, Value>, canSend: bool, k: int): (r: Sweep)
    requires |names| == |prevs| && 0 <= k <= |names|
    ensures |r.prevs| == |prevs|
    decreases k
  {
    if k == 0 then Sweep(prevs, [], None)
    else SweepStep(SweepUpTo(names, prevs, values, canSend, k - 1), names, values, canSend, k - 1)
  }

  /** The whole pass over an object's property wrappers. */
  function SweepAll(names: seq<string>, prevs: seq<Option<Value>>, values: map<string, Value>, canSend: bool): (r: Sweep)
    requires |names| == |prevs|
  {
    SweepUpTo(names, prevs, values, canSend, |names|)
  }

  /** The first `k` iterations leave the wrappers from `k` on untouched. */
  lemma {:induction false} SweepUpToFrame(names: seq<string>, prevs: seq<Option<Value>>, values: map<string, Value>, canSend: bool, k: int)
    requires |names| == |prevs| && 0 <= k <= |names|
    ensures forall j :: k <= j < |prevs| ==> SweepUpTo(names, prevs, values, canSend, k).prevs[j] == prevs[j]
    decreases k
  {
    if k > 0 {
      SweepUpToFrame(names, prevs, values, canSend, k - 1);
    }
  }

  /** The message a property contributes to a pass: one, named after the property and
      carrying the current value, exactly when the value is present and changed. */
  function Emitted(name: string, prev: Option<Value>, values: map<string, Value>): (ms: seq<Message>)
    ensures |ms| <= 1
    ensures ms != [] <==> name in values && (prev.None? || !PyEq(values[name], prev.value))
    ensures ms != [] ==> ms[0] == Message(name, [values[name]])
  {
    if name in values && ChangedValue(prev, values[name]).Some? then [Message(name, [values[name]])] else []
  }

  /** What one `PropertyWrapper.Report` call does to the pass: given the value it stores
      and the outcome it ends with, either the whole pass ends with that exception, or
      iteration `i` completes with the property's message (if any) appended. */
  lemma ReportAdvances(names: seq<string>, prevs: seq<Option<Value>>, values: map<string, Value>, canSend: bool,
                       i: int, ps: seq<Option<Value>>, msgs: seq<Message>, stored: Option<Value>, err: Option<PyError>)
    requires |names| == |prevs| == |ps| && 0 <= i < |names|
    requires SweepUpTo(names, prevs, values, canSend, i) == Sweep(ps, msgs, None)
    requires names[i] !in values ==> err == Some(KeyError) && stored == ps[i]
    requires names[i] in values ==>
      var cur := values[names[i]];
      var c := ChangedValue(ps[i], cur);
      && stored == Stored(ps[i], cur)
      && (c.None? ==> err == None)
      && (c.Some? && canSend ==> err == None)
      && (c.Some? && !canSend ==> err == Some(TypeError))
    ensures err.Some? ==> SweepAll(names, prevs, values, canSend) == Sweep(ps[i := stored], msgs, err)
    ensures err.None? ==>
      SweepUpTo(names, prevs, values, canSend, i + 1) == Sweep(ps[i := stored], msgs + Emitted(names[i], ps[i], values), None)
  {
    if names[i] !in values {
      assert ps[i := stored] == ps;
    }
    if err.Some? {
      SweepHalts(names, prevs, values, canSend, i + 1, |names|);
    }
  }

  /** Once an exception is raised, the rest of the pass changes nothing. */
  lemma {:induction false} SweepHalts(names: seq<string>, prevs: seq<Option<Value>>, values: map<string, Value>, canSend: bool, j: int, k: int)
    requires |names| == |prevs| && 0 <= j <= k <= |names|
    requires SweepUpTo(names, prevs, values, canSend, j).error.Some?
    ensures SweepUpTo(names, prevs, values, canSend, k) == SweepUpTo(names, prevs, values, canSend, j)
    decreases k
  {
    if k > j {
      SweepHalts(names, prevs, values, canSend, j, k - 1);
    }
  }

  /** Properties `0..k` are present on the object. */
  predicate PresentBefore(names: seq<string>, values: map<string, Value>, k: int)
    requires 0 <= k <= |names|
  {
    forall j :: 0 <= j < k ==> names[j] in values
  }

  /** Some wrapper among the first `k` holds a value different from the current one. */
  predicate ChangeBefore(names: seq<string>, prevs: seq<Option<Value>>, values: map<string, Value>, k: int)
    requires |names| == |prevs| && 0 <= k <= |names|
    requires PresentBefore(names, values, k)
  {
    exists j :: 0 <= j < k && ChangedValue(prevs[j], values[names[j]]).Some?
  }

  /** The message a changed property `j` (one of the first `k`) is sent as: its name and
      its new value. */
  predicate SentFor(names: seq<string>, prevs: seq<Option<Value>>, values: map<string, Value>, k: int, j: int, m: Message)
    requires |names| == |prevs| && 0 <= k <= |names|
  {
    0 <= j < k && names[j] in values && ChangedValue(prevs[j], values[names[j]]).Some? &&
    m == Message(names[j], [values[names[j]]])
  }

  /** The first `k` iterations complete exactly when those properties are all present and
      either sending works or none of them changed; they then remember every current
      value and send one message per changed property and no other. */
  lemma {:induction false} SweepUpToSpec(names: seq<string>, prevs: seq<Option<Value>>, values: map<string, Value>, canSend: bool, k: int)
    requires |names| == |prevs| && 0 <= k <= |names|
    ensures var r := SweepUpTo(names, prevs, values, canSend, k);
      r.error.None? <==> PresentBefore(names, values, k) && (canSend || !ChangeBefore(names, prevs, values, k))
    ensures var r := SweepUpTo(names, prevs, values, canSend, k);
      r.error.None? ==>
        && (forall j :: 0 <= j < k ==> r.prevs[j] == Stored(prevs[j], values[names[j]]))
        && (forall m :: m in r.msgs <==> exists j :: SentFor(names, prevs, values, k, j, m))
    decreases k
  {
    if k > 0 {
      SweepUpToSpec(names, prevs, values, canSend, k - 1);
      SweepUpToFrame(names, prevs, values, canSend, k - 1);
      var s := SweepUpTo(names, prevs, values, canSend, k - 1);
      var r := SweepUpTo(names, prevs, values, canSend, k);
      if PresentBefore(names, values, k) {
        assert PresentBefore(names, values, k - 1);
        var c := ChangedValue(prevs[k - 1], values[names[k - 1]]);
        if ChangeBefore(names, prevs, values, k) && c.None? {
          var j :| 0 <= j < k && ChangedValue(prevs[j], values[names[j]]).Some?;
          assert ChangeBefore(names, prevs, values, k - 1);
        }
        if ChangeBefore(names, prevs, values, k - 1) {
          var j :| 0 <= j < k - 1 && ChangedValue(prevs[j], values[names[j]]).Some?;
          assert ChangeBefore(names, prevs, values, k);
        }
        if c.Some? {
          assert ChangeBefore(names, prevs, values, k);
        }
      }
      if r.error.None? {
        forall m | m in r.msgs
          ensures exists j :: SentFor(names, prevs, values, k, j, m)
        {
          if m in s.msgs {
            var j :| SentFor(names, prevs, values, k - 1, j, m);
            assert SentFor(names, prevs, values, k, j, m);
          } else {
            assert SentFor(names, prevs, values, k, k - 1, m);
          }
        }
        forall m, j | SentFor(names, prevs, values, k, j, m)
          ensures m in r.msgs
        {
          if j < k - 1 {
            assert SentFor(names, prevs, values, k - 1, j, m);
          }
        }
      }
    }
  }

  /** A whole pass completes exactly when every property is still present and either
      sending works or nothing changed; it then remembers every current value and sends
      one message per changed property, carrying its name and value, and no other. */
  lemma SweepAllSpec(names: seq<string>, prevs: seq<Option<Value>>, values: map<string, Value>, canSend: bool)
    requires |names| == |prevs|
    ensures var r := SweepAll(names, prevs, values, canSend);
      r.error.None? <==> PresentBefore(names, values, |names|) && (canSend || !ChangeBefore(names, prevs, values, |names|))
    ensures var r := SweepAll(names, prevs, values, canSend);
      r.error.None? ==>
        && (forall j :: 0 <= j < |names| ==> r.prevs[j] == Stored(prevs[j], values[names[j]]))
        && (forall m :: m in r.msgs <==> exists j :: SentFor(names, prevs, values, |names|, j, m))
  {
    SweepUpToSpec(names, prevs, values, canSend, |names|);
  }

  /** After a completed pass, a second pass over the same values sends nothing and
      remembers the same values: every change is sent exactly once. */
  lemma {:induction false} SweepTwiceIsSilent(names: seq<string>, prevs: seq<Option<Value>>, values: map<string, Value>, canSend: bool)
    requires |names| == |prevs|
    requires SweepAll(names, prevs, values, canSend).error.None?
    ensures var after := SweepAll(names, prevs, values, canSend).prevs;
      SweepAll(names, after, values, canSend) == Sweep(after, [], None)
  {
    var after := SweepAll(names, prevs, values, canSend).prevs;
    SweepUpToSpec(names, prevs, values, canSend, |names|);
    SilentUpTo(names, prevs, after, values, canSend, |names|);
  }

  lemma {:induction false} SilentUpTo(names: seq<string>, prevs: seq<Option<Value>>, after: seq<Option<Value>>, values: map<string, Value>, canSend: bool, k: int)
    requires |names| == |prevs| == |after| && 0 <= k <= |names|
    requires PresentBefore(names, values, |names|)
    requires forall j :: 0 <= j < |names| ==> after[j] == Stored(prevs[j], values[names[j]])
    ensures SweepUpTo(names, after, values, canSend, k) == Sweep(after, [], None)
    decreases k
  {
    if k > 0 {
      SilentUpTo(names, prevs, after, values, canSend, k - 1);
      var cur := values[names[k - 1]];
      SecondUpdateIsSilent(prevs[k - 1], cur, cur);
      assert after[k - 1 := Stored(after[k - 1], cur)] == after;
      var none: seq<Message> := [];
      assert none + none == none;
    }
  }

  /** Every message of a pass carries one argument and is addressed to one of the
      property names. */
  lemma {:induction false} SweepMessagesNamed(names: seq<string>, prevs: seq<Option<Value>>, values: map<string, Value>, canSend: bool, k: int)
    requires |names| == |prevs| && 0 <= k <= |names|
    ensures forall m :: m in SweepUpTo(names, prevs, values, canSend, k).msgs ==> m.address in names && |m.args| == 1
    decreases k
  {
    if k > 0 {
      SweepMessagesNamed(names, prevs, values, canSend, k - 1);
    }
  }

  /** The datagrams an opened sender hands to its client for a batch of messages. */
  function Deliveries(to: ModulesOscSender.Endpoint, msgs: seq<Message>): (d: seq<(ModulesOscSender.Endpoint, Message)>)
    ensures |d| == |msgs|
    ensures forall i :: 0 <= i < |msgs| ==> d[i] == (to, msgs[i])
  {
    seq(|msgs|, i requires 0 <= i < |msgs| => (to, msgs[i]))
  }

  lemma {:induction false} DeliveriesAppend(to: ModulesOscSender.Endpoint, a: seq<Message>, b: seq<Message>)
    ensures Deliveries(to, a + b) == Deliveries(to, a) + Deliveries(to, b)
  {
    assert Deliveries(to, a + b) == Deliveries(to, a) + Deliveries(to, b);
  }

  /** The datagrams a sender with this client hands over for a batch of messages: none
      without a client. */
  ghost function Sent(client: Option<ModulesOscSender.Endpoint>, msgs: seq<Message>): seq<(ModulesOscSender.Endpoint, Message)>
  {
    if client.Some? then Deliveries(client.value, msgs) else []
  }

  lemma SentAfter(sent0: seq<(ModulesOscSender.Endpoint, Message)>, client: Option<ModulesOscSender.Endpoint>, msgs: seq<Message>)
    ensures client.Some? ==> sent0 + Sent(client, msgs) == sent0 + Deliveries(client.value, msgs)
    ensures client.None? ==> sent0 + Sent(client, msgs) == sent0
  {
    if client.None? {
      assert sent0 + [] == sent0;
    }
  }

  // ---------------------------------------------------------------- wrappers

  /** `PropertyWrapper`: one OSC-address property of one object and the value last sent. */
  class PropertyWrapper {
    const propertyName: string
    var prevValue: Option<Value>

    constructor (propertyName: string)
      ensures this.propertyName == propertyName && prevValue == None
    {
      this.propertyName := propertyName;
      prevValue := None;
    }

    /** `update()`: report the changed value, if any, and remember it. */
    method Update(current: Value) returns (changed: Option<Value>)
      modifies this
      ensures changed == ChangedValue(old(prevValue), current)
      ensures prevValue == Stored(old(prevValue), current)
    {
      if prevValue.None? || !PyEq(current, prevValue.value) {
        changed := Some(current);
      } else {
        changed := None;
      }
      if changed.Some? {
        prevValue := changed;
      }
    }

    /** One iteration of the inner loop of `Runner.update`: `update()` reads the current
        value (KeyError when the property is gone), and a changed value is sent as a
        one-argument message named after the property. */
    method Report(values: map<string, Value>, sender: ModulesOscSender.OscSender, networkUp: bool)
      returns (error: Option<PyError>)
      modifies this, sender`sent
      ensures propertyName !in values ==>
        error == Some(KeyError) && prevValue == old(prevValue) && sender.sent == old(sender.sent)
      ensures propertyName in values ==>
        var cur := values[propertyName];
        var c := ChangedValue(old(prevValue), cur);
        && prevValue == Stored(old(prevValue), cur)
        && (c.None? ==> error == None && sender.sent == old(sender.sent))
        && (c.Some? && sender.client.Some? && networkUp ==>
              error == None && sender.sent == old(sender.sent) + [(sender.client.value, Message(propertyName, [cur]))])
        && (c.Some? && !(sender.client.Some? && networkUp) ==>
              error == Some(TypeError) && sender.sent == old(sender.sent))
    {
      if propertyName !in values {
        return Some(KeyError);
      }
      var changed := Update(values[propertyName]);
      if changed.Some? {
        var outcome := sender.Send(propertyName, [changed.value], networkUp);
        if outcome.Raised? {
          return Some(outcome.error);
        }
      }
      error := None;
    }
  }

  function PropertyNames(ws: seq<PropertyWrapper>): (ns: seq<string>)
    ensures |ns| == |ws|
    ensures forall i :: 0 <= i < |ws| ==> ns[i] == ws[i].propertyName
  {
    if |ws| == 0 then [] else [ws[0].propertyName] + PropertyNames(ws[1..])
  }

  ghost function PrevValues(ws: seq<PropertyWrapper>): (ps: seq<Option<Value>>)
    reads ws
    ensures |ps| == |ws|
    ensures forall i :: 0 <= i < |ws| ==> ps[i] == ws[i].prevValue
  {
    if |ws| == 0 then [] else [ws[0].prevValue] + PrevValues(ws[1..])
  }

  /** The remembered values are determined by the wrappers, one by one. */
  lemma PrevValuesAre(ws: seq<PropertyWrapper>, ps: seq<Option<Value>>)
    requires |ps| == |ws| && forall j :: 0 <= j < |ws| ==> ws[j].prevValue == ps[j]
    ensures PrevValues(ws) == ps
  {
  }

  /** `ObjectWrapper`: an object with OSC-address properties, the cached list of those
      names, and one property wrapper per registered name. */
  class ObjectWrapper {
    /** The wrapped object itself, not its name. */
    const obj: BlenderRef
    /** `_prop_names`; empty means not cached (Python tests the list's truth). */
    var propNames: seq<string>
    var propWrappers: seq<PropertyWrapper>
    ghost var Repr: set<object>

    /** The wrappers are distinct objects, all in the footprint. Only this object's own
        fields are read, so updating a property wrapper's value keeps it. */
    ghost predicate Valid()
      reads this
    {
      && this in Repr && Lists.Distinct(propWrappers)
      && (forall i :: 0 <= i < |propWrappers| ==> propWrappers[i] in Repr && IsAddress(propWrappers[i].propertyName))
      && (forall i :: 0 <= i < |propNames| ==> IsAddress(propNames[i]))
    }

    /** As made: valid, its own footprint, and without property wrappers. */
    ghost predicate Blank()
      reads this
    {
      Repr == {this} && Valid() && propWrappers == []
    }

    /** The registered property names, in registration order. */
    function Names(): (ns: seq<string>)
      reads this
      ensures |ns| == |propWrappers|
      ensures forall i :: 0 <= i < |propWrappers| ==> ns[i] == propWrappers[i].propertyName
    {
      PropertyNames(propWrappers)
    }

    /** The values the property wrappers remember, in registration order. */
    ghost function Prevs(): (ps: seq<Option<Value>>)
      reads this, propWrappers
      ensures |ps| == |propWrappers|
      ensures forall i :: 0 <= i < |propWrappers| ==> ps[i] == propWrappers[i].prevValue
    {
      PrevValues(propWrappers)
    }

    constructor (obj: BlenderRef)
      ensures Valid() && Repr == {this}
      ensures this.obj == obj && propNames == [] && propWrappers == []
    {
      this.obj := obj;
      propNames := [];
      propWrappers := [];
      Repr := {this};
    }

    /** `_get_relevant_property_names()` over the object's current keys. */
    method GetRelevantPropertyNames(keys: seq<string>) returns (names: seq<string>)
      ensures names == RelevantNames(keys)
    {
      names := [];
      var i := |keys|;
      while i > 0
        invariant 0 <= i <= |keys|
        invariant names == RelevantNames(keys[i..])
      {
        i := i - 1;
        assert keys[i..][1..] == keys[i + 1..];
        if IsAddress(keys[i]) {
          names := [keys[i]] + names;
        }
      }
      assert keys[0..] == keys;
    }

    /** `prop_names()`: the cached names when the cache is non-empty, else the relevant
        names of the current keys, which are cached. */
    method PropNames(keys: seq<string>) returns (names: seq<string>)
      modifies this`propNames
      ensures names == (if old(propNames) != [] then old(propNames) else RelevantNames(keys))
      ensures propNames == names
    {
      if propNames != [] {
        return propNames;
      }
      propNames := GetRelevantPropertyNames(keys);
      names := propNames;
    }

    /** `is_relevant()`: some property name is an OSC address (after filling the cache). */
    method IsRelevant(keys: seq<string>) returns (b: bool)
      modifies this`propNames
      ensures propNames == (if old(propNames) != [] then old(propNames) else RelevantNames(keys))
      ensures b == (propNames != [])
    {
      var names := PropNames(keys);
      b := |names| > 0;
    }

    /** `_already_registered(name)`. */
    method AlreadyRegistered(name: string) returns (b: bool)
      ensures b == (name in Names())
    {
      for i := 0 to |propWrappers|
        invariant name !in Names()[..i]
      {
        if propWrappers[i].propertyName == name {
          return true;
        }
      }
      assert Names()[..|propWrappers|] == Names();
      return false;
    }

    /** `_get_prop_wrappers()`: a fresh wrapper, with nothing sent yet, per name of
        `prop_names()`. */
    method GetPropWrappers(keys: seq<string>) returns (ws: seq<PropertyWrapper>)
      modifies this`propNames
      ensures propNames == (if old(propNames) != [] then old(propNames) else RelevantNames(keys))
      ensures |ws| == |propNames|
      ensures forall i :: 0 <= i < |ws| ==> fresh(ws[i]) && ws[i].propertyName == propNames[i] && ws[i].prevValue == None
      ensures Lists.Distinct(ws)
    {
      var names := PropNames(keys);
      ws := [];
      for i := 0 to |names|
        invariant propNames == names && |ws| == i
        invariant forall j :: 0 <= j < i ==> fresh(ws[j]) && ws[j].propertyName == names[j] && ws[j].prevValue == None
        invariant Lists.Distinct(ws)
      {
        var w := new PropertyWrapper(names[i]);
        ws := ws + [w];
      }
    }

    /** `_update_prop_wrappers()`: register a fresh wrapper for every relevant name of the
        current keys that is not registered yet; registered wrappers stay as they are. */
    method UpdatePropWrappers(keys: seq<string>)
      requires Valid()
      modifies this`propWrappers, this`Repr
      ensures Valid() && fresh(Repr - old(Repr))
      ensures Names() == Register(old(Names()), RelevantNames(keys))
      ensures |propWrappers| >= |old(propWrappers)| && propWrappers[..|old(propWrappers)|] == old(propWrappers)
      ensures forall i :: |old(propWrappers)| <= i < |propWrappers| ==> fresh(propWrappers[i]) && propWrappers[i].prevValue == None
    {
      var names := GetRelevantPropertyNames(keys);
      ghost var oldWrappers := propWrappers;
      ghost var added: seq<PropertyWrapper> := [];
      for k := 0 to |names|
        invariant Valid() && fresh(Repr - old(Repr))
        invariant Register(old(Names()), names) == Register(Names(), names[k..])
        invariant propWrappers == oldWrappers + added
        invariant forall i :: 0 <= i < |added| ==> fresh(added[i]) && added[i].prevValue == None
      {
        assert names[k..][1..] == names[k + 1..];
        var known := AlreadyRegistered(names[k]);
        if !known {
          ghost var w := AddWrapper(names[k]);
          added := added + [w];
        }
      }
      assert names[|names|..] == [];
      assert propWrappers[..|oldWrappers|] == oldWrappers;
    }

    /** The registration step of `_update_prop_wrappers()`: a new wrapper for the name,
        appended to the list. */
    method AddWrapper(name: string) returns (ghost w: PropertyWrapper)
      requires Valid() && IsAddress(name)
      modifies this`propWrappers, this`Repr
      ensures Valid() && fresh(Repr - old(Repr))
      ensures Names() == old(Names()) + [name]
      ensures propWrappers == old(propWrappers) + [w] && fresh(w) && w.prevValue == None
    {
      var p := new PropertyWrapper(name);
      propWrappers := propWrappers + [p];
      Repr := Repr + {p};
      w := p;
    }

    /** `property_wrappers()`: with wrappers registered, pick up new properties and keep the
        list; with none, build the list from `prop_names()`. */
    method PropertyWrappers(keys: seq<string>)
      requires Valid()
      modifies this`propWrappers, this`Repr, this`propNames
      ensures Valid() && fresh(Repr - old(Repr))
      ensures old(propWrappers) != [] ==>
        Names() == Register(old(Names()), RelevantNames(keys)) && propNames == old(propNames)
      ensures old(propWrappers) == [] ==>
        Names() == propNames && propNames == (if old(propNames) != [] then old(propNames) else RelevantNames(keys))
      ensures |propWrappers| >= |old(propWrappers)| && propWrappers[..|old(propWrappers)|] == old(propWrappers)
      ensures forall i :: |old(propWrappers)| <= i < |propWrappers| ==> fresh(propWrappers[i]) && propWrappers[i].prevValue == None
    {
      if propWrappers != [] {
        UpdatePropWrappers(keys);
        return;
      }
      var ws := GetPropWrappers(keys);
      propWrappers := ws;
      Repr := Repr + set w | w in ws;
    }

    /** The inner loop of `Runner.update` for this object: update every property wrapper
        in order and send each changed value as a one-argument message named after the
        property. The pass is the one `SweepAll` describes. */
    method UpdateValues(values: map<string, Value>, sender: ModulesOscSender.OscSender, networkUp: bool)
      returns (error: Option<PyError>)
      requires Lists.Distinct(propWrappers)
      modifies propWrappers, sender`sent
      ensures var r := SweepAll(Names(), old(Prevs()), values, sender.client.Some? && networkUp);
        && Prevs() == r.prevs
        && error == r.error
        && (sender.client.Some? ==> sender.sent == old(sender.sent) + Deliveries(sender.client.value, r.msgs))
        && (sender.client.None? ==> sender.sent == old(sender.sent))
    {
      error := ReportAll(propWrappers, values, sender, networkUp);
      SentAfter(old(sender.sent), sender.client,
                SweepAll(Names(), old(Prevs()), values, sender.client.Some? && networkUp).msgs);
    }
  }

  /** The remembered values of wrappers extended to `n` wrappers by new ones, which
      remember nothing. */
  function Padded(ps: seq<Option<Value>>, n: nat): (r: seq<Option<Value>>)
    ensures |r| == n
    ensures forall i :: 0 <= i < n ==> r[i] == if i < |ps| then ps[i] else None
  {
    if |ps| >= n then ps[..n] else ps + seq(n - |ps|, i => None)
  }

  /** The property names `property_wrappers()` leaves registered, from the old cache and
      list and the object's current keys. */
  function WrappedNames(oldNames: seq<string>, oldPropNames: seq<string>, keys: seq<string>): seq<string>
  {
    if oldNames != [] then Register(oldNames, RelevantNames(keys))
    else if oldPropNames != [] then oldPropNames
    else RelevantNames(keys)
  }

  /** The property part of `update()` for one wrapped object that is still alive: pick up
      new address properties, then run the pass `SweepAll` describes over the registered
      wrappers, the new ones remembering nothing yet. Each message sent is addressed to one
      of the object's OSC-address properties and carries one value. */
  method UpdateWrapper(ow: ObjectWrapper, host: HostObject, sender: ModulesOscSender.OscSender, networkUp: bool)
    returns (error: Option<PyError>)
    requires ow.Valid()
    modifies ow`propWrappers, ow`Repr, ow`propNames, ow.propWrappers, sender`sent
    ensures ow.Valid() && fresh(ow.Repr - old(ow.Repr))
    ensures ow.Names() == WrappedNames(old(ow.Names()), old(ow.propNames), host.keys)
    ensures var r := SweepAll(ow.Names(), Padded(old(ow.Prevs()), |ow.Names()|), host.values, sender.client.Some? && networkUp);
      && ow.Prevs() == r.prevs
      && error == r.error
      && sender.sent == old(sender.sent) + Sent(sender.client, r.msgs)
    ensures old(sender.sent) <= sender.sent && AddressedTo(sender.sent, |old(sender.sent)|, sender.client)
    ensures forall j :: |old(sender.sent)| <= j < |sender.sent| ==> |sender.sent[j].1.args| == 1
  {
    ghost var w0, p0 := ow.propWrappers, ow.Prevs();
    ow.PropertyWrappers(host.keys);
    var names := ow.Names();
    ghost var prevs := ow.Prevs();
    assert prevs == Padded(p0, |names|) by {
      forall i | 0 <= i < |names| ensures prevs[i] == Padded(p0, |names|)[i] {
        if i < |w0| {
          assert ow.propWrappers[i] == w0[i];
        }
      }
    }
    error := ow.UpdateValues(host.values, sender, networkUp);
    SentAfter(old(sender.sent), sender.client, SweepAll(names, prevs, host.values, sender.client.Some? && networkUp).msgs);
    SweepMessagesNamed(names, prevs, host.values, sender.client.Some? && networkUp, |names|);
  }

  /** The property loop of `Runner.update` for a wrapper whose object was deleted: the
      first read of the object raises ReferenceError, before anything is sent. A wrapper
      without property wrappers builds them from its cached names first, which reads
      nothing; without cached names the key lookup is that first read. */
  method TouchDeleted(ow: ObjectWrapper) returns (error: Option<PyError>)
    requires ow.Valid()
    modifies ow`propWrappers, ow`Repr, ow`propNames
    ensures ow.Valid() && fresh(ow.Repr - old(ow.Repr))
    ensures error == Some(ReferenceError)
    ensures ow.Names() == if old(ow.propWrappers) == [] then old(ow.propNames) else old(ow.Names())
  {
    if ow.propWrappers == [] && ow.propNames != [] {
      ow.PropertyWrappers([]);
    }
    return Some(ReferenceError);
  }

  /** The inner loop of `Runner.update` over a list of distinct property wrappers. */
  method ReportAll(ws: seq<PropertyWrapper>, values: map<string, Value>, sender: ModulesOscSender.OscSender, networkUp: bool)
    returns (error: Option<PyError>)
    requires Lists.Distinct(ws)
    modifies ws, sender`sent
    ensures var r := SweepAll(PropertyNames(ws), old(PrevValues(ws)), values, sender.client.Some? && networkUp);
      && PrevValues(ws) == r.prevs
      && error == r.error
      && sender.sent == old(sender.sent) + Sent(sender.client, r.msgs)
  {
    var canSend := sender.client.Some? && networkUp;
    ghost var names := PropertyNames(ws);
    ghost var prevs0 := PrevValues(ws);
    ghost var ps := prevs0;
    ghost var msgs: seq<Message> := [];
    ghost var sent0 := sender.sent;
    assert sent0 + Sent(sender.client, msgs) == sent0;
    var i := 0;
    while i < |ws|
      invariant 0 <= i <= |ws| && |ps| == |ws|
      invariant forall j :: 0 <= j < |ws| ==> ws[j].prevValue == ps[j]
      invariant SweepUpTo(names, prevs0, values, canSend, i) == Sweep(ps, msgs, None)
      invariant sender.sent == sent0 + Sent(sender.client, msgs)
    {
      var err;
      ghost var emitted;
      Lists.DistinctAt(ws, i);
      err, ps, emitted := ReportAt(ws, i, values, sender, networkUp, canSend, names, prevs0, ps, msgs, sent0);
      if err.Some? {
        PrevValuesAre(ws, ps);
        return err;
      }
      msgs := msgs + emitted;
      i := i + 1;
    }
    PrevValuesAre(ws, ps);
    error := None;
  }

  /** Iteration `i` of `ObjectWrapper.UpdateValues`: wrapper `i` reports, and the pass
      either ends with the exception it raised or completes iteration `i` with its message
      (if any) handed to the client. */
  method ReportAt(ws: seq<PropertyWrapper>, i: int, values: map<string, Value>, sender: ModulesOscSender.OscSender,
                  networkUp: bool, ghost canSend: bool, ghost names: seq<string>, ghost prevs0: seq<Option<Value>>,
                  ghost ps: seq<Option<Value>>, ghost msgs: seq<Message>, ghost sent0: seq<(ModulesOscSender.Endpoint, Message)>)
    returns (err: Option<PyError>, ghost ps': seq<Option<Value>>, ghost emitted: seq<Message>)
    requires 0 <= i < |ws| && canSend == (sender.client.Some? && networkUp)
    requires forall j :: 0 <= j < |ws| && j != i ==> ws[j] != ws[i]
    requires names == PropertyNames(ws) && |ps| == |ws| && |prevs0| == |names|
    requires forall j :: 0 <= j < |ws| ==> ws[j].prevValue == ps[j]
    requires SweepUpTo(names, prevs0, values, canSend, i) == Sweep(ps, msgs, None)
    requires sender.sent == sent0 + Sent(sender.client, msgs)
    modifies ws[i], sender`sent
    ensures |ps'| == |ws| && forall j :: 0 <= j < |ws| ==> ws[j].prevValue == ps'[j]
    ensures err.Some? ==>
      && SweepAll(names, prevs0, values, canSend) == Sweep(ps', msgs, err)
      && sender.sent == sent0 + Sent(sender.client, msgs)
    ensures err.None? ==>
      && SweepUpTo(names, prevs0, values, canSend, i + 1) == Sweep(ps', msgs + emitted, None)
      && sender.sent == sent0 + Sent(sender.client, msgs + emitted)
  {
    var w := ws[i];
    err := w.Report(values, sender, networkUp);
    ReportAdvances(names, prevs0, values, canSend, i, ps, msgs, w.prevValue, err);
    emitted := Emitted(names[i], ps[i], values);
    ps' := ps[i := w.prevValue];
    if err.None? && sender.client.Some? {
      if emitted != [] {
        assert emitted == [emitted[0]];
      }
      DeliveriesAppend(sender.client.value, msgs, emitted);
      Lists.AppendAssoc(sent0, Deliveries(sender.client.value, msgs), Deliveries(sender.client.value, emitted));
    }
  }

  // ---------------------------------------------------------------- object registration

  /** `_already_registered(name)` over the wrappers of the objects `refs`, in order: reading
      the name of a deleted object raises ReferenceError (None here); otherwise whether a
      wrapped object currently has the name. */
  function RegisteredIn(refs: seq<BlenderRef>, objects: map<BlenderRef, HostObject>, name: string): Option<bool>
    decreases |refs|
  {
    if |refs| == 0 then Some(false)
    else if refs[0] !in objects then None
    else if objects[refs[0]].name == name then Some(true)
    else RegisteredIn(refs[1..], objects, name)
  }

  /** Wrapper `j` is the first one whose object is deleted, and none before it has the name. */
  predicate DeadFirst(refs: seq<BlenderRef>, objects: map<BlenderRef, HostObject>, name: string, j: int)
  {
    0 <= j < |refs| && refs[j] !in objects &&
    forall i :: 0 <= i < j ==> refs[i] in objects && objects[refs[i]].name != name
  }

  /** The lookup raises exactly when it reaches a deleted object's wrapper before one whose
      object has the name; over live objects it says whether one of them has the name. */
  lemma {:induction false} RegisteredInSpec(refs: seq<BlenderRef>, objects: map<BlenderRef, HostObject>, name: string)
    ensures RegisteredIn(refs, objects, name).None? <==> exists j :: DeadFirst(refs, objects, name, j)
    ensures Alive(refs, objects) ==>
      RegisteredIn(refs, objects, name) == Some(exists j :: 0 <= j < |refs| && refs[j] in objects && objects[refs[j]].name == name)
    decreases |refs|
  {
    if |refs| > 0 {
      var tail := refs[1..];
      RegisteredInSpec(tail, objects, name);
      if refs[0] !in objects {
        assert DeadFirst(refs, objects, name, 0);
      } else if objects[refs[0]].name == name {
        forall j | 0 <= j < |refs| ensures !DeadFirst(refs, objects, name, j) {
        }
      } else {
        forall j | DeadFirst(tail, objects, name, j) ensures DeadFirst(refs, objects, name, j + 1) {
          forall i | 0 <= i < j + 1 ensures refs[i] in objects && objects[refs[i]].name != name {
            if i > 0 {
              assert refs[i] == tail[i - 1];
            }
          }
        }
        forall j | DeadFirst(refs, objects, name, j) ensures DeadFirst(tail, objects, name, j - 1) {
          assert j > 0;
          forall i | 0 <= i < j - 1 ensures tail[i] in objects && objects[tail[i]].name != name {
            assert tail[i] == refs[i + 1];
          }
        }
        if Alive(refs, objects) {
          assert Alive(tail, objects);
          forall j | 0 <= j < |refs| && refs[j] in objects && objects[refs[j]].name == name
            ensures exists i :: 0 <= i < |tail| && tail[i] in objects && objects[tail[i]].name == name
          {
            assert tail[j - 1] == refs[j];
          }
        }
      }
    }
  }

  /** Since object names are unique, looking a live object's name up among wrappers of live
      objects finds exactly whether that very object is wrapped, whatever it was called
      when it was wrapped. */
  lemma NameLookupIsIdentity(refs: seq<BlenderRef>, objects: map<BlenderRef, HostObject>, o: BlenderRef)
    requires Alive(refs, objects) && NamesUnique(objects) && o in objects
    ensures RegisteredIn(refs, objects, objects[o].name) == Some(o in refs)
  {
    RegisteredInSpec(refs, objects, objects[o].name);
    if o in refs {
      var j :| 0 <= j < |refs| && refs[j] == o;
    }
  }

  /** What `_update_object_wrappers()` leaves: the wrapped objects and the exception that
      ended it, if any. */
  datatype Registration = Registration(refs: seq<BlenderRef>, error: Option<PyError>)

  /** `_update_object_wrappers()` over the scene objects `scene`, from the wrappers of
      `refs`: each object is looked up by its current name and, when not found and
      relevant, wrapped at the end; a lookup that raises ends the loop. */
  function RegisterScene(refs: seq<BlenderRef>, objects: map<BlenderRef, HostObject>, scene: seq<BlenderRef>): Registration
    requires Alive(scene, objects)
    decreases |scene|
  {
    if |scene| == 0 then Registration(refs, None)
    else
      var o := objects[scene[0]];
      var known := RegisteredIn(refs, objects, o.name);
      if known.None? then Registration(refs, Some(ReferenceError))
      else if known.value || RelevantNames(o.keys) == [] then RegisterScene(refs, objects, scene[1..])
      else RegisterScene(refs + [scene[0]], objects, scene[1..])
  }

  /** While every wrapped object is alive, refreshing never raises, and (names being
      unique) it registers by identity: every relevant scene object not wrapped yet is
      appended once, in scene order, and a renamed object keeps its single wrapper. */
  lemma {:induction false} RegisterSceneAlive(refs: seq<BlenderRef>, objects: map<BlenderRef, HostObject>, scene: seq<BlenderRef>)
    requires Alive(refs, objects) && Alive(scene, objects)
    ensures RegisterScene(refs, objects, scene).error == None
    ensures NamesUnique(objects) ==>
      RegisterScene(refs, objects, scene).refs == Register(refs, RelevantRefs(objects, scene))
    decreases |scene|
  {
    if |scene| > 0 {
      var s0, rest := scene[0], scene[1..];
      assert Alive(rest, objects);
      assert Alive(refs + [s0], objects);
      RegisteredInSpec(refs, objects, objects[s0].name);
      RegisterSceneAlive(refs, objects, rest);
      RegisterSceneAlive(refs + [s0], objects, rest);
      if NamesUnique(objects) {
        NameLookupIsIdentity(refs, objects, s0);
        if RelevantNames(objects[s0].keys) != [] {
          assert RelevantRefs(objects, scene) == [s0] + RelevantRefs(objects, rest);
          assert ([s0] + RelevantRefs(objects, rest))[1..] == RelevantRefs(objects, rest);
        }
      }
    }
  }

  /** A refresh only appends, and it raises only because a wrapped object was deleted;
      with a deleted object's wrapper first, any non-empty scene raises at once. */
  lemma {:induction false} RegisterSceneRaises(refs: seq<BlenderRef>, objects: map<BlenderRef, HostObject>, scene: seq<BlenderRef>)
    requires Alive(scene, objects)
    ensures refs <= RegisterScene(refs, objects, scene).refs
    ensures RegisterScene(refs, objects, scene).error.Some? ==>
      RegisterScene(refs, objects, scene).error == Some(ReferenceError) && !Alive(refs, objects)
    ensures |refs| > 0 && refs[0] !in objects && |scene| > 0 ==>
      RegisterScene(refs, objects, scene) == Registration(refs, Some(ReferenceError))
    decreases |scene|
  {
    if Alive(refs, objects) {
      RegisterSceneAlive(refs, objects, scene);
    }
    if |scene| > 0 {
      assert Alive(scene[1..], objects);
      RegisterSceneRaises(refs, objects, scene[1..]);
      RegisterSceneRaises(refs + [scene[0]], objects, scene[1..]);
    }
  }

  // ---------------------------------------------------------------- runner

  /** The OSC destination of the runner's sender: host '127.0.0.1', port '2031'. */
  const RunnerOptions: map<string, Value> := map["host" := Str("127.0.0.1"), "port" := Str("2031")]

  /** The runner's options name port 2031 (given as the string '2031'). */
  lemma RunnerPortIs2031()
    ensures ModulesOscSender.PortOf(RunnerOptions) == Some(2031)
  {
    assert Numerals.IntToString(2031) == "2031";
    ModulesOscSender.PrintedPortReadsBack(RunnerOptions, 2031);
  }

  /** `ObjectWrapper(obj)` followed by `is_relevant()`: a fresh wrapper of the object whose
      cached property names are the object's OSC-address keys; relevant when there is one. */
  method WrapObject(r: BlenderRef, objects: map<BlenderRef, HostObject>) returns (ow: ObjectWrapper, relevant: bool)
    requires r in objects
    ensures fresh(ow) && ow.Blank() && ow.obj == r && Unlisted(ow, objects)
    ensures relevant == (RelevantNames(objects[r].keys) != [])
  {
    ow := new ObjectWrapper(r);
    relevant := ow.IsRelevant(objects[r].keys);
  }

  /** One iteration of `_get_relevant_object_wrappers()`: the wrapper of scene object `r`
      is appended when the object is relevant. `made` collects the wrappers made so far. */
  method WrapNext(ws: seq<ObjectWrapper>, r: BlenderRef, objects: map<BlenderRef, HostObject>, ghost made: set<ObjectWrapper>)
    returns (ws': seq<ObjectWrapper>, ghost made': set<ObjectWrapper>)
    requires r in objects && Lists.Distinct(ws)
    requires forall w :: w in ws ==> w in made && w.Blank() && Unlisted(w, objects)
    ensures WrapperRefs(ws') == WrapperRefs(ws) + (if |RelevantNames(objects[r].keys)| > 0 then [r] else [])
    ensures made <= made' && fresh(made' - made) && Lists.Distinct(ws')
    ensures forall w :: w in ws' ==> w in made' && w.Blank() && Unlisted(w, objects)
  {
    var ow, relevant := WrapObject(r, objects);
    if relevant {
      WrapperRefsSnoc(ws, ow);
      Lists.DistinctSnoc(ws, ow);
      ws', made' := ws + [ow], made + {ow};
    } else {
      ws', made' := ws, made;
    }
  }

  /** `property_wrappers()` as the listing loop of `object_wrappers()` calls it, over the
      object's current keys. The names registered are those `WrappedNames` gives, and every
      wrapper added remembers nothing yet. For a wrapper just made, with the object's
      address keys cached and no property wrappers, that is one property wrapper per
      address key, in key order. */
  method ListPropertyWrappers(ow: ObjectWrapper, keys: seq<string>)
    requires ow.Valid()
    modifies ow`propWrappers, ow`Repr, ow`propNames
    ensures ow.Valid() && fresh(ow.Repr - old(ow.Repr))
    ensures ow.Names() == WrappedNames(old(ow.Names()), old(ow.propNames), keys)
    ensures ow.Prevs() == Padded(old(ow.Prevs()), |ow.Names()|)
    ensures old(ow.propWrappers) == [] && old(ow.propNames) == RelevantNames(keys) ==>
      && ow.Names() == RelevantNames(keys)
      && forall i :: 0 <= i < |ow.Prevs()| ==> ow.Prevs()[i] == None
  {
    ghost var w0, p0 := ow.propWrappers, ow.Prevs();
    ow.PropertyWrappers(keys);
    ghost var prevs := ow.Prevs();
    assert prevs == Padded(p0, |ow.Names()|) by {
      forall i | 0 <= i < |prevs| ensures prevs[i] == Padded(p0, |ow.Names()|)[i] {
        if i < |w0| {
          assert ow.propWrappers[i] == w0[i];
        }
      }
    }
  }

  /** The listing loop of `object_wrappers()` at wrapper `k`: the wrappers before it are
      listed, it is listed by `property_wrappers()`, and the ones after it are untouched.
      `added` collects the footprints of the listed wrappers. */
  method ListAt(ws: seq<ObjectWrapper>, k: int, objects: map<BlenderRef, HostObject>, ghost added: set<object>)
    returns (ghost added': set<object>)
    requires 0 <= k < |ws| && Lists.Distinct(ws)
    requires forall j :: 0 <= j < k ==> ws[j].Valid() && Listed(ws[j], objects) && ws[j].Repr <= added
    requires forall j :: k <= j < |ws| ==> ws[j].Blank() && Unlisted(ws[j], objects)
    modifies ws[k]
    ensures added' == added + ws[k].Repr && fresh(ws[k].Repr - {ws[k]})
    ensures forall j :: 0 <= j <= k ==> ws[j].Valid() && Listed(ws[j], objects) && ws[j].Repr <= added'
    ensures forall j :: k < j < |ws| ==> ws[j].Blank() && Unlisted(ws[j], objects)
  {
    Lists.DistinctAt(ws, k);
    ListPropertyWrappers(ws[k], objects[ws[k].obj].keys);
    added' := added + ws[k].Repr;
  }

  function WrapperRefs(ws: seq<ObjectWrapper>): (rs: seq<BlenderRef>)
    ensures |rs| == |ws|
    ensures forall i :: 0 <= i < |ws| ==> rs[i] == ws[i].obj
  {
    seq(|ws|, i requires 0 <= i < |ws| => ws[i].obj)
  }

  lemma WrapperRefsSnoc(ws: seq<ObjectWrapper>, ow: ObjectWrapper)
    ensures WrapperRefs(ws + [ow]) == WrapperRefs(ws) + [ow.obj]
  {
  }

  /** A wrapper as `_get_relevant_object_wrappers()` makes it: a live object, its
      OSC-address keys cached as property names, and no property wrappers yet. */
  ghost predicate Unlisted(ow: ObjectWrapper, objects: map<BlenderRef, HostObject>)
    reads ow
  {
    ow.obj in objects && ow.propWrappers == [] && ow.propNames == RelevantNames(objects[ow.obj].keys)
  }

  /** A wrapper as the listing loop of `object_wrappers()` leaves it: one property wrapper
      per OSC-address key of the live object, in key order, none holding a value yet. */
  ghost predicate Listed(ow: ObjectWrapper, objects: map<BlenderRef, HostObject>)
    reads ow, ow.propWrappers
  {
    && ow.obj in objects && ow.Names() == RelevantNames(objects[ow.obj].keys)
    && forall i :: 0 <= i < |ow.Prevs()| ==> ow.Prevs()[i] == None
  }

  /** `Runner`: the object wrappers of one scene and the OSC sender they report through. */
  class Runner {
    /** `_object_wrappers`; empty stands for both None and the empty list, which the
        source treats alike. */
    var objectWrappers: seq<ObjectWrapper>
    var sender: ModulesOscSender.OscSender?
    var isSetup: bool
    ghost var Repr: set<object>

    ghost predicate Valid()
      reads this, objectWrappers
    {
      && this in Repr
      && (isSetup ==> sender != null)
      && (sender != null ==> sender in Repr)
      && (forall i :: 0 <= i < |objectWrappers| ==>
            objectWrappers[i] in Repr && objectWrappers[i].Repr <= Repr && objectWrappers[i].Valid())
    }

    /** Wrappers are only collected by `setup()`, which then marks the runner set up. */
    ghost predicate Ready()
      reads this
    {
      !isSetup ==> objectWrappers == []
    }

    /** The wrapped objects, in registration order. */
    function Refs(): (rs: seq<BlenderRef>)
      reads this
      ensures |rs| == |objectWrappers|
      ensures forall i :: 0 <= i < |objectWrappers| ==> rs[i] == objectWrappers[i].obj
    {
      WrapperRefs(objectWrappers)
    }

    /** `Runner()`: no wrappers, no sender, not set up. */
    constructor ()
      ensures Valid() && Ready() && fresh(Repr)
      ensures objectWrappers == [] && sender == null && !isSetup
    {
      objectWrappers := [];
      sender := null;
      isSetup := false;
      Repr := {this};
    }

    /** `_already_registered(name)`: walk the wrappers reading each object's current name. */
    method AlreadyRegistered(name: string, objects: map<BlenderRef, HostObject>) returns (b: bool, error: Option<PyError>)
      ensures RegisteredIn(Refs(), objects, name).None? ==> error == Some(ReferenceError)
      ensures RegisteredIn(Refs(), objects, name).Some? ==> error == None && b == RegisteredIn(Refs(), objects, name).value
    {
      for i := 0 to |objectWrappers|
        invariant RegisteredIn(Refs(), objects, name) == RegisteredIn(Refs()[i..], objects, name)
      {
        assert Refs()[i..][1..] == Refs()[i + 1..];
        var r := objectWrappers[i].obj;
        if r !in objects {
          return false, Some(ReferenceError);
        }
        if objects[r].name == name {
          return true, None;
        }
      }
      assert Refs()[|objectWrappers|..] == [];
      return false, None;
    }

    /** `_get_relevant_object_wrappers()`: a fresh wrapper per relevant object of the scene,
        in scene order, none with property wrappers yet. */
    method GetRelevantObjectWrappers(host: Host) returns (ws: seq<ObjectWrapper>)
      requires Alive(host.scene, host.objects)
      ensures WrapperRefs(ws) == RelevantRefs(host.objects, host.scene)
      ensures forall i :: 0 <= i < |ws| ==>
        fresh(ws[i]) && ws[i].Repr == {ws[i]} && ws[i].Valid() && Unlisted(ws[i], host.objects)
      ensures Lists.Distinct(ws)
    {
      ws := [];
      ghost var made: set<ObjectWrapper> := {};
      for k := 0 to |host.scene|
        invariant Alive(host.scene[..k], host.objects)
        invariant WrapperRefs(ws) == RelevantRefs(host.objects, host.scene[..k])
        invariant fresh(made)
        invariant forall w :: w in ws ==> w in made && w.Blank() && Unlisted(w, host.objects)
        invariant Lists.Distinct(ws)
      {
        RelevantRefsStep(host.objects, host.scene, k);
        ws, made := WrapNext(ws, host.scene[k], host.objects, made);
      }
      assert host.scene[..|host.scene|] == host.scene;
      forall i | 0 <= i < |ws|
        ensures fresh(ws[i]) && ws[i].Repr == {ws[i]} && ws[i].Valid() && Unlisted(ws[i], host.objects)
      {
        assert ws[i] in ws;
      }
    }

    /** `_update_object_wrappers()`: wrap every relevant scene object that no wrapper's
        object is currently named like; registered wrappers stay as they are. Reading the
        name of a deleted wrapped object raises ReferenceError and ends the loop. */
    method UpdateObjectWrappers(host: Host) returns (error: Option<PyError>)
      requires Valid() && Alive(host.scene, host.objects)
      modifies this`objectWrappers, this`Repr
      ensures Valid() && fresh(Repr - old(Repr))
      ensures var r := RegisterScene(old(Refs()), host.objects, host.scene);
        Refs() == r.refs && error == r.error
      ensures old(objectWrappers) <= objectWrappers
    {
      var k := 0;
      error := None;
      while k < |host.scene|
        invariant 0 <= k <= |host.scene|
        invariant Valid() && fresh(Repr - old(Repr))
        invariant Alive(host.scene[k..], host.objects)
        invariant RegisterScene(old(Refs()), host.objects, host.scene) == RegisterScene(Refs(), host.objects, host.scene[k..])
        invariant old(objectWrappers) <= objectWrappers
        invariant error == None
      {
        assert host.scene[k..][1..] == host.scene[k + 1..];
        error := RegisterObject(host.scene[k], host.objects);
        if error.Some? {
          return;
        }
        k := k + 1;
      }
      assert host.scene[k..] == [];
    }

    /** One iteration of `_update_object_wrappers()`: an object that is not found under its
        current name and has an OSC-address property gets a fresh wrapper at the end. */
    method RegisterObject(r: BlenderRef, objects: map<BlenderRef, HostObject>) returns (error: Option<PyError>)
      requires Valid() && r in objects
      modifies this`objectWrappers, this`Repr
      ensures Valid() && fresh(Repr - old(Repr))
      ensures var known := RegisteredIn(old(Refs()), objects, objects[r].name);
        && (known.None? ==> error == Some(ReferenceError) && objectWrappers == old(objectWrappers))
        && (known.Some? ==>
              && error == None
              && Refs() == if known.value || RelevantNames(objects[r].keys) == [] then old(Refs()) else old(Refs()) + [r])
      ensures old(objectWrappers) <= objectWrappers
    {
      var known;
      known, error := AlreadyRegistered(objects[r].name, objects);
      if error.Some? || known {
        return;
      }
      var ow, relevant := WrapObject(r, objects);
      if relevant {
        objectWrappers := objectWrappers + [ow];
        Repr := Repr + ow.Repr;
        assert Refs() == old(Refs()) + [r];
      }
    }

    /** `object_wrappers()`: with wrappers registered, pick up new relevant objects; with
        none, wrap the scene's relevant objects and build their property wrappers (the
        listing loop calls `property_wrappers()` on each). */
    method ObjectWrappers(host: Host) returns (error: Option<PyError>)
      requires Valid() && Alive(host.scene, host.objects)
      modifies this`objectWrappers, this`Repr, objectWrappers
      ensures Valid() && fresh(Repr - old(Repr))
      ensures old(objectWrappers) != [] ==>
        var r := RegisterScene(old(Refs()), host.objects, host.scene);
        Refs() == r.refs && error == r.error
      ensures old(objectWrappers) == [] ==> Refs() == RelevantRefs(host.objects, host.scene) && error == None
      ensures old(objectWrappers) == [] ==> forall i :: 0 <= i < |objectWrappers| ==> Listed(objectWrappers[i], host.objects)
    {
      if objectWrappers != [] {
        error := UpdateObjectWrappers(host);
        return;
      }
      error := None;
      ListObjectWrappers(host);
    }

    /** The first call of `object_wrappers()`: wrap the scene's relevant objects, then list
        each wrapper's property wrappers. */
    method ListObjectWrappers(host: Host)
      requires Valid() && objectWrappers == [] && Alive(host.scene, host.objects)
      modifies this`objectWrappers, this`Repr
      ensures Valid() && fresh(Repr - old(Repr))
      ensures Refs() == RelevantRefs(host.objects, host.scene)
      ensures forall i :: 0 <= i < |objectWrappers| ==> Listed(objectWrappers[i], host.objects)
    {
      var ws := GetRelevantObjectWrappers(host);
      ghost var added: set<object> := {};
      for k := 0 to |ws|
        invariant unchanged(this) && fresh(added)
        invariant forall j :: 0 <= j < k ==> ws[j].Valid() && Listed(ws[j], host.objects) && ws[j].Repr <= added
        invariant forall j :: k <= j < |ws| ==> fresh(ws[j]) && ws[j].Blank() && Unlisted(ws[j], host.objects)
      {
        added := ListAt(ws, k, host.objects, added);
      }
      objectWrappers := ws;
      Repr := Repr + added;
    }

    /** `setup()`: collect the object wrappers, then create the OSC sender for
        127.0.0.1:'2031' and set it up (which connects when the client can be opened).
        Collecting raises only on a runner set up before whose wrapped object was deleted;
        it then leaves the sender and the set-up flag as they were. */
    method Setup(host: Host, canOpen: bool) returns (error: Option<PyError>)
      requires Valid() && Ready() && Alive(host.scene, host.objects)
      modifies Repr
      ensures Valid() && fresh(Repr - old(Repr)) && isSetup
      ensures old(objectWrappers) != [] ==>
        var r := RegisterScene(old(Refs()), host.objects, host.scene);
        Refs() == r.refs && error == r.error
      ensures old(objectWrappers) == [] ==> Refs() == RelevantRefs(host.objects, host.scene) && error == None
      ensures error.Some? ==> old(isSetup) && sender == old(sender)
      ensures error.None? ==>
        && fresh(sender) && sender.Valid() && sender.options == RunnerOptions && sender.sent == []
        && sender.running == canOpen
        && sender.client == if canOpen then Some(ModulesOscSender.Endpoint(Str("127.0.0.1"), 2031)) else None
    {
      error := ObjectWrappers(host);
      if error.Some? {
        return;
      }
      var s := new ModulesOscSender.OscSender(RunnerOptions);
      RunnerPortIs2031();
      var _ := s.Setup(canOpen);
      sender := s;
      isSetup := true;
      Repr := Repr + {s};
    }

    /** The marker loop of `update()`: a message with no arguments for every marker on the
        current frame whose name is an OSC address, in marker order. The first send that
        fails raises, and the rest of the update is abandoned. */
    method SendMarkers(frame: int, markers: seq<Marker>, networkUp: bool) returns (error: Option<PyError>)
      requires sender != null
      modifies sender`sent
      ensures AddressedTo(sender.sent, |old(sender.sent)|, sender.client)
      ensures sender.client.Some? && networkUp ==>
        error == None && sender.sent == old(sender.sent) + Deliveries(sender.client.value, MarkerMessages(markers, frame))
      ensures !(sender.client.Some? && networkUp) ==>
        sender.sent == old(sender.sent) && error == if MarkerMessages(markers, frame) == [] then None else Some(TypeError)
    {
      error := SendMarkersVia(sender, frame, markers, networkUp);
    }

    /** The property loop of `update()` for object wrapper `k`. For an object that is still
        alive: pick up new address properties and run the pass `SweepAll` describes over
        its current values. For a deleted object, the first read of it raises
        ReferenceError before anything is sent; a wrapper without property wrappers builds
        them from its cached names first. */
    method UpdateObject(k: int, host: Host, networkUp: bool) returns (error: Option<PyError>)
      requires Valid() && isSetup && 0 <= k < |objectWrappers|
      modifies objectWrappers[k], objectWrappers[k].Repr, this`Repr, sender`sent
      ensures sender == old(sender) && objectWrappers == old(objectWrappers) && isSetup
      ensures sender.client == old(sender.client) && sender.options == old(sender.options)
      ensures Valid() && fresh(Repr - old(Repr))
      ensures old(sender.sent) <= sender.sent && AddressedTo(sender.sent, |old(sender.sent)|, sender.client)
      ensures forall j :: |old(sender.sent)| <= j < |sender.sent| ==> |sender.sent[j].1.args| == 1
      ensures var ow := objectWrappers[k];
        ow.obj !in host.objects ==>
          && error == Some(ReferenceError) && sender.sent == old(sender.sent)
          && ow.Names() == (if old(ow.propWrappers) == [] then old(ow.propNames) else old(ow.Names()))
      ensures var ow := objectWrappers[k];
        ow.obj in host.objects ==>
          && ow.Names() == WrappedNames(old(ow.Names()), old(ow.propNames), host.objects[ow.obj].keys)
          && var r := SweepAll(ow.Names(), Padded(old(ow.Prevs()), |ow.Names()|), host.objects[ow.obj].values,
                               sender.client.Some? && networkUp);
             && ow.Prevs() == r.prevs
             && error == r.error
             && sender.sent == old(sender.sent) + Sent(sender.client, r.msgs)
    {
      var ow := objectWrappers[k];
      if ow.obj !in host.objects {
        error := TouchDeleted(ow);
        Repr := Repr + ow.Repr;
      } else {
        error := UpdateLive(k, host.objects[ow.obj], networkUp);
      }
    }

    /** `UpdateObject` for a wrapper whose object is alive, with the object's current keys
        and values. */
    method UpdateLive(k: int, o: HostObject, networkUp: bool) returns (error: Option<PyError>)
      requires Valid() && isSetup && 0 <= k < |objectWrappers|
      modifies objectWrappers[k], objectWrappers[k].Repr, this`Repr, sender`sent
      ensures sender == old(sender) && objectWrappers == old(objectWrappers) && isSetup
      ensures sender.client == old(sender.client) && sender.options == old(sender.options)
      ensures Valid() && fresh(Repr - old(Repr))
      ensures old(sender.sent) <= sender.sent && AddressedTo(sender.sent, |old(sender.sent)|, sender.client)
      ensures forall j :: |old(sender.sent)| <= j < |sender.sent| ==> |sender.sent[j].1.args| == 1
      ensures var ow := objectWrappers[k];
        && ow.Names() == WrappedNames(old(ow.Names()), old(ow.propNames), o.keys)
        && var r := SweepAll(ow.Names(), Padded(old(ow.Prevs()), |ow.Names()|), o.values, sender.client.Some? && networkUp);
           && ow.Prevs() == r.prevs
           && error == r.error
           && sender.sent == old(sender.sent) + Sent(sender.client, r.msgs)
    {
      var ow := objectWrappers[k];
      error := UpdateWrapper(ow, o, sender, networkUp);
      Repr := Repr + ow.Repr;
    }

    /** `update()`, run on every frame change: set up on first use, then `SendChanges`. */
    method Update(frame: int, markers: seq<Marker>, host: Host, canOpen: bool, networkUp: bool)
      returns (error: Option<PyError>)
      requires Valid() && Ready() && Alive(host.scene, host.objects)
      modifies Repr
      ensures Valid() && fresh(Repr - old(Repr)) && isSetup
      ensures old(isSetup) ==> sender == old(sender) && old(sender.sent) <= sender.sent
      ensures !old(isSetup) ==> fresh(sender) && sender.options == RunnerOptions
      ensures var start := if old(isSetup) then |old(sender.sent)| else 0;
        && start <= |sender.sent|
        && AddressedTo(sender.sent, start, sender.client)
        && (sender.client.Some? && networkUp ==> Deliveries(sender.client.value, MarkerMessages(markers, frame)) <= sender.sent[start..])
        && (!(sender.client.Some? && networkUp) && MarkerMessages(markers, frame) != [] ==>
              error == Some(TypeError) && |sender.sent| == start)
    {
      if !isSetup {
        error := Setup(host, canOpen);
      }
      error := SendChanges(frame, markers, host, networkUp);
    }

    /** The body of `update()` once set up: send the markers on the current frame, refresh
        the object wrappers, then send every changed address property of every wrapped
        object. An exception ends the update early. */
    method SendChanges(frame: int, markers: seq<Marker>, host: Host, networkUp: bool)
      returns (error: Option<PyError>)
      requires Valid() && isSetup && Alive(host.scene, host.objects)
      modifies Repr
      ensures Valid() && fresh(Repr - old(Repr)) && isSetup
      ensures sender == old(sender) && sender.client == old(sender.client) && sender.options == old(sender.options)
      ensures old(sender.sent) <= sender.sent && AddressedTo(sender.sent, |old(sender.sent)|, sender.client)
      ensures sender.client.Some? && networkUp ==>
        Deliveries(sender.client.value, MarkerMessages(markers, frame)) <= sender.sent[|old(sender.sent)|..]
      ensures !(sender.client.Some? && networkUp) && MarkerMessages(markers, frame) != [] ==>
        error == Some(TypeError) && sender.sent == old(sender.sent)
    {
      error := SendMarkers(frame, markers, networkUp);
      if error.Some? {
        return;
      }
      ghost var s1 := sender.sent;
      error := ObjectWrappers(host);
      if error.None? {
        error := UpdateObjects(host, networkUp);
      }
      AddressedToGrows(old(sender.sent), s1, sender.sent, sender.client);
      assert sender.sent[|old(sender.sent)|..][..|s1| - |old(sender.sent)|] == s1[|old(sender.sent)|..];
    }

    /** The object loop of `update()`: `UpdateObject` for every wrapper in order, ending at
        the first exception. */
    method UpdateObjects(host: Host, networkUp: bool) returns (error: Option<PyError>)
      requires Valid() && isSetup
      modifies Repr
      ensures Valid() && fresh(Repr - old(Repr)) && isSetup
      ensures sender == old(sender) && objectWrappers == old(objectWrappers)
      ensures sender.client == old(sender.client) && sender.options == old(sender.options)
      ensures old(sender.sent) <= sender.sent && AddressedTo(sender.sent, |old(sender.sent)|, sender.client)
      ensures forall j :: |old(sender.sent)| <= j < |sender.sent| ==> |sender.sent[j].1.args| == 1
    {
      var ws := objectWrappers;
      for k := 0 to |ws|
        invariant Valid() && fresh(Repr - old(Repr)) && isSetup && objectWrappers == ws
        invariant sender == old(sender) && sender.client == old(sender.client) && sender.options == old(sender.options)
        invariant old(sender.sent) <= sender.sent && AddressedTo(sender.sent, |old(sender.sent)|, sender.client)
        invariant forall j :: |old(sender.sent)| <= j < |sender.sent| ==> |sender.sent[j].1.args| == 1
      {
        ghost var before := sender.sent;
        error := UpdateObject(k, host, networkUp);
        AddressedToGrows(old(sender.sent), before, sender.sent, sender.client);
        if error.Some? {
          return;
        }
      }
      error := None;
    }
  }

  /** The two class-level registries of `Runner`: the singleton of `Runner.instance()`
      and the per-scene dictionary of `Runner.instance_for(target)`, keyed by the scene
      itself, with the add-on's handlers on top. The handlers use different registries:
      `setup()` prepares the singleton, while frame changes run the per-scene runners,
      which set themselves up on their first update. */
  class Runners {
    var instance: Runner?
    var instances: map<BlenderRef, Runner>

    constructor ()
      ensures instance == null && instances == map[]
    {
      instance := null;
      instances := map[];
    }

    /** `Runner.instance()`: the singleton, created on first use. */
    method Instance() returns (r: Runner)
      modifies this`instance
      ensures instance == r
      ensures old(instance) != null ==> r == old(instance)
      ensures old(instance) == null ==> fresh(r) && fresh(r.Repr) && r.Valid() && r.objectWrappers == [] && !r.isSetup
    {
      if instance != null {
        return instance;
      }
      r := new Runner();
      instance := r;
    }

    /** `Runner.instance_for(target)`: the runner registered for the target scene, or a new
        one registered under it. Other scenes keep their runners. */
    method InstanceFor(target: BlenderRef) returns (r: Runner)
      modifies this`instances
      ensures target in instances && instances[target] == r
      ensures target in old(instances) ==> r == old(instances)[target] && instances == old(instances)
      ensures target !in old(instances) ==>
        fresh(r) && fresh(r.Repr) && r.Valid() && r.objectWrappers == [] && !r.isSetup &&
        instances == old(instances)[target := r]
    {
      if target in instances {
        return instances[target];
      }
      r := new Runner();
      instances := instances[target := r];
    }

    /** The add-on's `setup()`: set up the singleton runner. The per-scene runners that
        frame changes use are not touched. */
    method SetupHandler(host: Host, canOpen: bool) returns (error: Option<PyError>)
      requires Alive(host.scene, host.objects)
      requires instance != null ==> instance.Valid() && instance.Ready() && this !in instance.Repr
      modifies this`instance, if instance == null then {} else instance.Repr
      ensures instance != null && instance.Valid() && instance.Ready() && instance.isSetup
      ensures old(instance) == null ==> error == None
      ensures instances == old(instances)
    {
      var r := Instance();
      error := r.Setup(host, canOpen);
    }

    /** The add-on's `destroy(scene)` handler calls `destroy()` on the singleton runner,
        which has no such method: it always raises AttributeError (after creating the
        singleton if there was none). */
    method DestroyHandler() returns (error: PyError)
      modifies this`instance
      ensures instance != null && error == AttributeError
      ensures old(instance) != null ==> instance == old(instance)
    {
      var _ := Instance();
      error := AttributeError;
    }

    /** The add-on's `frameHandler(scene)`: update the scene's own runner, set up on its
        first frame. */
    method FrameHandler(scene: BlenderRef, frame: int, markers: seq<Marker>, host: Host, canOpen: bool, networkUp: bool)
      returns (error: Option<PyError>)
      requires Alive(host.scene, host.objects)
      requires scene in instances ==> instances[scene].Valid() && instances[scene].Ready() && this !in instances[scene].Repr
      modifies this`instances, if scene in instances then instances[scene].Repr else {}
      ensures scene in instances && instances[scene].Valid() && instances[scene].Ready() && instances[scene].isSetup
      ensures instances.Keys == old(instances).Keys + {scene} && instance == old(instance)
      ensures forall t :: t in old(instances) && t != scene ==> instances[t] == old(instances)[t]
    {
      var r := InstanceFor(scene);
      error := r.Update(frame, markers, host, canOpen, networkUp);
    }
  }

  /** The marker loop of `update()` through the given sender, as `Runner.SendMarkers`
      states it. */
  method SendMarkersVia(sender: ModulesOscSender.OscSender, frame: int, markers: seq<Marker>, networkUp: bool)
    returns (error: Option<PyError>)
    modifies sender`sent
    ensures AddressedTo(sender.sent, |old(sender.sent)|, sender.client)
    ensures sender.client.Some? && networkUp ==>
      error == None && sender.sent == old(sender.sent) + Deliveries(sender.client.value, MarkerMessages(markers, frame))
    ensures !(sender.client.Some? && networkUp) ==>
      sender.sent == old(sender.sent) && error == if MarkerMessages(markers, frame) == [] then None else Some(TypeError)
  {
    ghost var client, s0 := sender.client, sender.sent;
    ghost var canSend := client.Some? && networkUp;
    ghost var out: seq<Message> := [];
    var k := 0;
    error := None;
    while k < |markers|
      invariant 0 <= k <= |markers| && sender.client == client && error.None?
      invariant out == MarkerMessages(markers[..k], frame)
      invariant canSend ==> sender.sent == s0 + Deliveries(client.value, out)
      invariant !canSend ==> sender.sent == s0 && out == []
    {
      error, out := SendMarkerAt(sender, frame, markers, k, networkUp, client, s0, out);
      if error.Some? {
        return;
      }
      k := k + 1;
    }
    assert markers[..k] == markers;
  }

  /** Iteration `k` of the marker loop: send marker `k` if it is on the frame and named
      with an OSC address. */
  method SendMarkerAt(sender: ModulesOscSender.OscSender, frame: int, markers: seq<Marker>, k: nat, networkUp: bool,
                      ghost client: Option<ModulesOscSender.Endpoint>,
                      ghost s0: seq<(ModulesOscSender.Endpoint, Message)>, ghost before: seq<Message>)
    returns (error: Option<PyError>, ghost after: seq<Message>)
    requires k < |markers| && sender.client == client && before == MarkerMessages(markers[..k], frame)
    requires client.Some? && networkUp ==> sender.sent == s0 + Deliveries(client.value, before)
    requires !(client.Some? && networkUp) ==> sender.sent == s0 && before == []
    modifies sender`sent
    ensures after == MarkerMessages(markers[..k + 1], frame)
    ensures error.None? ==> (client.Some? && networkUp ==> sender.sent == s0 + Deliveries(client.value, after))
    ensures error.None? ==> (!(client.Some? && networkUp) ==> sender.sent == s0 && after == [])
    ensures error.Some? ==>
      !(client.Some? && networkUp) && sender.sent == s0 && error == Some(TypeError) && MarkerMessages(markers, frame) != []
  {
    MarkerMessagesStep(markers, frame, k);
    after := MarkerMessages(markers[..k + 1], frame);
    error := None;
    if markers[k].frame == frame && IsAddress(markers[k].name) {
      var m := Message(markers[k].name, []);
      assert after == before + [m];
      var outcome := sender.Send(markers[k].name, [], networkUp);
      if outcome.Raised? {
        assert MarkerMessages(markers, frame) == after + MarkerMessages(markers[k + 1..], frame);
        return Some(outcome.error), after;
      }
      DeliveriesAppend(client.value, before, [m]);
      Lists.AppendAssoc(s0, Deliveries(client.value, before), Deliveries(client.value, [m]));
    }
  }

  ghost predicate AddressedTo(sent: seq<(ModulesOscSender.Endpoint, Message)>, from: int, client: Option<ModulesOscSender.Endpoint>)
  {
    forall j :: 0 <= j < |sent| && from <= j ==> client == Some(sent[j].0) && IsAddress(sent[j].1.address)
  }

  lemma AddressedToGrows(a: seq<(ModulesOscSender.Endpoint, Message)>, b: seq<(ModulesOscSender.Endpoint, Message)>,
                         c: seq<(ModulesOscSender.Endpoint, Message)>, client: Option<ModulesOscSender.Endpoint>)
    requires a <= b <= c && AddressedTo(b, |a|, client) && AddressedTo(c, |b|, client)
    ensures a <= c && AddressedTo(c, |a|, client)
  {
    assert forall j :: |a| <= j < |b| ==> c[j] == b[j];
  }

  /** One more scene object: the relevant objects among the first `k + 1` are those among
      the first `k`, then object `k` when it is relevant. */
  lemma RelevantRefsStep(objects: map<BlenderRef, HostObject>, scene: seq<BlenderRef>, k: int)
    requires Alive(scene, objects) && 0 <= k < |scene|
    ensures Alive(scene[..k], objects) && Alive(scene[..k + 1], objects)
    ensures RelevantRefs(objects, scene[..k + 1]) ==
      RelevantRefs(objects, scene[..k]) + (if |RelevantNames(objects[scene[k]].keys)| > 0 then [scene[k]] else [])
  {
    assert scene[..k + 1] == scene[..k] + [scene[k]];
    RelevantRefsAppend(objects, scene[..k], scene[k]);
  }

  lemma {:induction false} RelevantRefsAppend(objects: map<BlenderRef, HostObject>, scene: seq<BlenderRef>, r: BlenderRef)
    requires Alive(scene, objects) && r in objects
    ensures Alive(scene + [r], objects)
    ensures RelevantRefs(objects, scene + [r]) ==
      RelevantRefs(objects, scene) + (if |RelevantNames(objects[r].keys)| > 0 then [r] else [])
    decreases |scene|
  {
    assert Alive(scene + [r], objects);
    if |scene| > 0 {
      assert (scene + [r])[1..] == scene[1..] + [r];
      RelevantRefsAppend(objects, scene[1..], r);
    } else {
      assert scene + [r] == [r];
    }
  }
}
