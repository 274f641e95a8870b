/** The ui-editor add-on: on every frame each enabled root mesh object is walked together
    with its descendants, a snapshot of each object (location, rotation, scale and vertex
    coordinates) is compared with the one cached under its name, and an OSC message is sent
    for every field that changed. Objects are values here: the host's object tree is the
    input of each pass. The `Processor` of the source holds nothing but the object, the
    scope and references to the runner's cache and sender, so its methods are methods of
    `ObjectRunner` taking the object and the scope as parameters. */
module UiEditor {
  import opened Common
  import Strings
  import Lists
  import UiOscSender

  /** An object as the processor reads it: its name, its type ('MESH', 'EMPTY', ...),
      location, Euler rotation, scale, the coordinates of its mesh vertices (read only for a
      mesh), and its children in order. */
  datatype TreeObject = TreeObject(name: string, kind: string, location: Vec3, rotation: Vec3, scale: Vec3,
                                   vertices: seq<Vec3>, children: seq<TreeObject>)

  /** The per-object settings of the add-on's panel. */
  datatype Config = Config(enabled: bool, host: string, port: int, verbose: bool)

  /** An object of the scene as `Runner.update` sees it: its identity, whether it has a
      parent, its settings, and the object with its descendants. */
  datatype SceneObject = SceneObject(ref: BlenderRef, hasParent: bool, config: Config, tree: TreeObject)

  /** The record `data()` builds and the cache keeps per object name. */
  datatype Snapshot = Snapshot(id: string, position: Vec3, rotation: Vec3, scale: Vec3, vertices: seq<Vec3>)

  const BasePath: string := "/ui-editor/mesh/"

  /** The four snapshot fields, in the order their messages are sent. */
  const Fields: seq<string> := ["position", "rotation", "scale", "vertices"]

  function Data(o: TreeObject): Snapshot
  {
    Snapshot(o.name, o.location, o.rotation, o.scale, o.vertices)
  }

  // ---------------------------------------------------------------------------------------
  // Names and scopes

  /** `obj_id(include_scope)`: the name up to its first '.', preceded by the scope and a
      '/' when asked for and a scope is set. */
  function ObjId(name: string, scope: Option<string>, includeScope: bool): (id: string)
    ensures !(includeScope && scope.Some?) ==> id <= name && '.' !in id
    ensures !(includeScope && scope.Some?) && '.' !in name ==> id == name
    ensures includeScope && scope.Some? ==> Strings.StartsWith(id, scope.value + "/")
  {
    Strings.SplitHead(name, '.');
    var base := Strings.Split(name, '.')[0];
    if includeScope && scope.Some? then scope.value + "/" + base else base
  }

  /** `ui_type()`: the part after the '.' when the name holds exactly one '.', else ''. */
  function UiType(name: string): (t: string)
    ensures t != "" ==> Strings.Count(name, '.') == 1
    ensures '.' !in t
  {
    Strings.SplitCount(name, '.');
    Strings.SplitPartsFree(name, '.');
    var parts := Strings.Split(name, '.');
    if |parts| == 2 then parts[1] else ""
  }

  /** A name built as `id + '.' + type` from dot-free parts splits back into both. */
  lemma IdAndTypeRoundTrip(id: string, t: string)
    requires '.' !in id && '.' !in t
    ensures ObjId(id + "." + t, None, true) == id
    ensures UiType(id + "." + t) == t
  {
    Strings.SplitJoin([id, t], '.');
    assert Strings.Join([id, t], '.') == id + "." + t;
  }

  /** The id `_send_changes` puts first in every message: scope + '/' + name when the scope
      is a non-empty string, else the bare name. */
  function ScopedId(scope: Option<string>, id: string): string
  {
    if scope.Some? && scope.value != "" then scope.value + "/" + id else id
  }

  /** The scope `process` hands to the children: the name at the root, else
      scope + '/' + name (an empty scope string included). */
  function ChildScope(scope: Option<string>, id: string): string
  {
    if scope.None? then id else scope.value + "/" + id
  }

  /** The scope of an object reached through the ancestors `path` from a root. */
  function ScopeOf(path: seq<string>): Option<string>
  {
    if |path| == 0 then None else Some(Strings.Join(path, '/'))
  }

  /** Along a path of non-empty names, the id sent for an object is its ancestors' names
      and its own joined by '/', the scope handed down is that same path, and a receiver
      splitting the id on '/' gets the path back when no name holds a '/'. */
  lemma {:induction false} ScopedIdIsPath(path: seq<string>, name: string)
    requires forall k :: 0 <= k < |path| ==> path[k] != ""
    ensures ScopedId(ScopeOf(path), name) == Strings.Join(path + [name], '/')
    ensures ChildScope(ScopeOf(path), name) == Strings.Join(path + [name], '/')
    ensures ScopeOf(path + [name]) == Some(ChildScope(ScopeOf(path), name))
    ensures (forall k :: 0 <= k < |path| ==> '/' !in path[k]) && '/' !in name ==>
      Strings.Split(ScopedId(ScopeOf(path), name), '/') == path + [name]
  {
    if |path| > 0 {
      Strings.JoinSnoc(path, name, '/');
      assert Strings.Join(path, '/') != "" by {
        JoinNonEmpty(path);
      }
    }
    if (forall k :: 0 <= k < |path| ==> '/' !in path[k]) && '/' !in name {
      Strings.SplitJoin(path + [name], '/');
    }
  }

  lemma {:induction false} JoinNonEmpty(parts: seq<string>)
    requires |parts| >= 1 && parts[0] != ""
    ensures Strings.Join(parts, '/') != ""
  {
  }

  // ---------------------------------------------------------------------------------------
  // The messages of one object

  function VecField(d: Snapshot, k: nat): Vec3
    requires k < 3
  {
    if k == 0 then d.position else if k == 1 then d.rotation else d.scale
  }

  /** Field k is sent when there is no previous snapshot or it differs from the previous one. */
  predicate FieldChanged(d: Snapshot, prev: Option<Snapshot>, k: nat)
    requires k < 4
  {
    prev.None? || (if k < 3 then VecField(d, k) != VecField(prev.value, k) else d.vertices != prev.value.vertices)
  }

  function VectorMessage(k: nat, id: string, v: Vec3): Message
    requires k < 3
  {
    Message(BasePath + Fields[k], [Str(id), Real(v.x), Real(v.y), Real(v.z)])
  }

  /** The coordinates x, y, z of each vertex in turn. */
  function Coords(vs: seq<Vec3>): (r: seq<Value>)
    ensures |r| == 3 * |vs|
  {
    if |vs| == 0 then []
    else
      var v := vs[|vs| - 1];
      Coords(vs[..|vs| - 1]) + [Real(v.x), Real(v.y), Real(v.z)]
  }

  /** Reads a coordinate list back as vertices: None unless it is whole triples of floats. */
  function Vertices(args: seq<Value>): Option<seq<Vec3>>
    decreases |args|
  {
    if |args| == 0 then Some([])
    else if |args| < 3 then None
    else
      var n := |args|;
      var init := Vertices(args[..n - 3]);
      if init.None? || !args[n - 3].Real? || !args[n - 2].Real? || !args[n - 1].Real? then None
      else Some(init.value + [Vec3(args[n - 3].r, args[n - 2].r, args[n - 1].r)])
  }

  /** The vertex list sent is the vertex list read back. */
  lemma {:induction false} VerticesOfCoords(vs: seq<Vec3>)
    ensures Vertices(Coords(vs)) == Some(vs)
  {
    if |vs| > 0 {
      var init := vs[..|vs| - 1];
      VerticesOfCoords(init);
      var c := Coords(vs);
      assert c[..|c| - 3] == Coords(init);
      assert init + [vs[|vs| - 1]] == vs;
    }
  }

  function VertexMessage(id: string, vs: seq<Vec3>): Message
  {
    Message(BasePath + "vertices", [Str(id)] + Coords(vs))
  }

  /** The vertices message carries the id and then 3 coordinates per vertex, from which the
      vertices are recovered in order. */
  lemma VertexMessageReadsBack(id: string, vs: seq<Vec3>)
    ensures var m := VertexMessage(id, vs);
      |m.args| == 1 + 3 * |vs| && m.args[0] == Str(id) && Vertices(m.args[1..]) == Some(vs)
  {
    VerticesOfCoords(vs);
    assert VertexMessage(id, vs).args[1..] == Coords(vs);
  }

  /** The messages for the first n vector fields. */
  function VectorChanges(d: Snapshot, prev: Option<Snapshot>, id: string, n: nat): (msgs: seq<Message>)
    requires n <= 3
    ensures |msgs| <= n
    ensures forall i :: 0 <= i < |msgs| ==> |msgs[i].args| == 4 && msgs[i].args[0] == Str(id)
  {
    if n == 0 then []
    else
      VectorChanges(d, prev, id, n - 1) +
      (if FieldChanged(d, prev, n - 1) then [VectorMessage(n - 1, id, VecField(d, n - 1))] else [])
  }

  /** Everything `_send_changes` sends for one object, in order. */
  function Changes(d: Snapshot, prev: Option<Snapshot>, id: string): (msgs: seq<Message>)
    ensures |msgs| <= 4
    ensures forall i :: 0 <= i < |msgs| ==> |msgs[i].args| >= 1 && msgs[i].args[0] == Str(id)
  {
    VectorChanges(d, prev, id, 3) + (if FieldChanged(d, prev, 3) then [VertexMessage(id, d.vertices)] else [])
  }

  function Addresses(msgs: seq<Message>): (r: seq<string>)
    ensures |r| == |msgs|
  {
    if |msgs| == 0 then [] else Addresses(msgs[..|msgs| - 1]) + [msgs[|msgs| - 1].address]
  }

  function Prefixed(fields: seq<string>): (r: seq<string>)
    ensures |r| == |fields|
  {
    if |fields| == 0 then [] else [BasePath + fields[0]] + Prefixed(fields[1..])
  }

  /** The names of the fields of `d` that differ from `p`. */
  function Differing(d: Snapshot, p: Snapshot): set<string>
  {
    set k | 0 <= k < 4 && FieldChanged(d, Some(p), k) :: Fields[k]
  }

  /** An object seen for the first time gets all four messages, in field order, the
      vectors as (id, x, y, z) and the vertices as the id then the coordinates. */
  lemma ChangesForNewObject(d: Snapshot, id: string)
    ensures var m := Changes(d, None, id);
      && |m| == 4
      && (forall k :: 0 <= k < 4 ==> m[k].address == BasePath + Fields[k])
      && (forall k :: 0 <= k < 3 ==> m[k] == VectorMessage(k, id, VecField(d, k)))
      && m[3] == VertexMessage(id, d.vertices)
  {
    assert VectorChanges(d, None, id, 1) == [VectorMessage(0, id, d.position)];
    assert VectorChanges(d, None, id, 2) == [VectorMessage(0, id, d.position), VectorMessage(1, id, d.rotation)];
  }

  /** An object seen before gets a message for exactly the fields that changed, in field
      order. */
  lemma ChangesOfKnownObject(d: Snapshot, p: Snapshot, id: string)
    ensures Addresses(Changes(d, Some(p), id)) == Prefixed(Lists.Only(Fields, Differing(d, p)))
  {
    var S := Differing(d, p);
    VectorAddresses(d, p, id, 3);
    DifferingHas(d, p, 3);
    assert Fields == Fields[..3] + ["vertices"];
    Lists.OnlySnoc(Fields[..3], "vertices", S);
    var tail := if FieldChanged(d, Some(p), 3) then ["vertices"] else [];
    PrefixedAppend(Lists.Only(Fields[..3], S), tail);
    AddressesAppend(VectorChanges(d, Some(p), id, 3),
                    if FieldChanged(d, Some(p), 3) then [VertexMessage(id, d.vertices)] else []);
  }

  lemma DifferingHas(d: Snapshot, p: Snapshot, k: nat)
    requires k < 4
    ensures Fields[k] in Differing(d, p) <==> FieldChanged(d, Some(p), k)
  {
    if Fields[k] in Differing(d, p) {
      var j :| 0 <= j < 4 && FieldChanged(d, Some(p), j) && Fields[j] == Fields[k];
      assert Fields[j][0] == Fields[k][0];
    }
  }

  lemma {:induction false} VectorAddresses(d: Snapshot, p: Snapshot, id: string, n: nat)
    requires n <= 3
    ensures Addresses(VectorChanges(d, Some(p), id, n)) == Prefixed(Lists.Only(Fields[..n], Differing(d, p)))
  {
    if n > 0 {
      VectorAddresses(d, p, id, n - 1);
      OnlyFieldsStep(d, p, n);
      if FieldChanged(d, Some(p), n - 1) {
        VectorAddressesChanged(d, p, id, n);
      } else {
        assert VectorChanges(d, Some(p), id, n) == VectorChanges(d, Some(p), id, n - 1);
      }
    }
  }

  /** The changed fields among the first `n` are those among the first `n - 1`, then field
      `n - 1` if it changed. */
  lemma OnlyFieldsStep(d: Snapshot, p: Snapshot, n: nat)
    requires 0 < n <= 4
    ensures Lists.Only(Fields[..n], Differing(d, p)) ==
      Lists.Only(Fields[..n - 1], Differing(d, p)) + (if FieldChanged(d, Some(p), n - 1) then [Fields[n - 1]] else [])
  {
    DifferingHas(d, p, n - 1);
    Lists.TakeSnoc(Fields, n);
    Lists.OnlySnoc(Fields[..n - 1], Fields[n - 1], Differing(d, p));
  }

  /** The step of `VectorAddresses` for a vector field that changed. */
  lemma VectorAddressesChanged(d: Snapshot, p: Snapshot, id: string, n: nat)
    requires 0 < n <= 3 && FieldChanged(d, Some(p), n - 1)
    requires Addresses(VectorChanges(d, Some(p), id, n - 1)) == Prefixed(Lists.Only(Fields[..n - 1], Differing(d, p)))
    requires Lists.Only(Fields[..n], Differing(d, p)) == Lists.Only(Fields[..n - 1], Differing(d, p)) + [Fields[n - 1]]
    ensures Addresses(VectorChanges(d, Some(p), id, n)) == Prefixed(Lists.Only(Fields[..n], Differing(d, p)))
  {
    var m := VectorMessage(n - 1, id, VecField(d, n - 1));
    var before := VectorChanges(d, Some(p), id, n - 1);
    assert VectorChanges(d, Some(p), id, n) == before + [m];
    AddressesAppend(before, [m]);
    assert Addresses([m]) == [BasePath + Fields[n - 1]];
    PrefixedAppend(Lists.Only(Fields[..n - 1], Differing(d, p)), [Fields[n - 1]]);
    assert Prefixed([Fields[n - 1]]) == [BasePath + Fields[n - 1]];
  }

  lemma {:induction false} AddressesAppend(a: seq<Message>, b: seq<Message>)
    ensures Addresses(a + b) == Addresses(a) + Addresses(b)
    decreases |b|
  {
    if |b| > 0 {
      assert (a + b)[..|a + b| - 1] == a + b[..|b| - 1];
      AddressesAppend(a, b[..|b| - 1]);
    } else {
      assert a + b == a;
    }
  }

  lemma {:induction false} PrefixedAppend(a: seq<string>, b: seq<string>)
    ensures Prefixed(a + b) == Prefixed(a) + Prefixed(b)
    decreases |a|
  {
    if |a| > 0 {
      assert (a + b)[1..] == a[1..] + b;
      PrefixedAppend(a[1..], b);
    } else {
      assert a + b == b;
    }
  }

  /** An object whose snapshot equals the cached one sends nothing. */
  lemma ChangesOfUnchanged(d: Snapshot, id: string)
    ensures Changes(d, Some(d), id) == []
  {
    assert VectorChanges(d, Some(d), id, 1) == [];
    assert VectorChanges(d, Some(d), id, 2) == [];
  }

  // ---------------------------------------------------------------------------------------
  // The walk over an object tree

  /** How a pass ended: it went through, `data()` met an object that is not a mesh (whose
      `data` has no `vertices`: AttributeError), or a send raised. */
  datatype Stop = Done | NotMesh | SendRaised

  /** The outcome of processing a tree: the cache afterwards, the messages sent in order,
      and how it ended (an exception ends the pass). */
  datatype Walk = Walk(cache: map<string, Snapshot>, msgs: seq<Message>, stop: Stop)
  {
    const failed: bool := stop != Done
  }

  /** `process()` for `o` under `scope`: snapshot (which raises for an object that is not a
      mesh), cache it under its name, send its changes, then process the children in order
      under the child scope. `ok` says whether sends go through; when they do not, the first
      send raises and the pass stops there. */
  function Visit(o: TreeObject, scope: Option<string>, cache: map<string, Snapshot>, ok: bool): Walk
    decreases o
  {
    if o.kind != "MESH" then Walk(cache, [], NotMesh)
    else
      var d := Data(o);
      var prev := if o.name in cache then Some(cache[o.name]) else None;
      var out := Changes(d, prev, ScopedId(scope, o.name));
      var c1 := cache[o.name := d];
      if !ok && |out| > 0 then Walk(c1, [], SendRaised)
      else
        var rest := VisitAll(o.children, ChildScope(scope, o.name), c1, ok);
        Walk(rest.cache, out + rest.msgs, rest.stop)
  }

  /** The `for child in children` loop of `process()`. */
  function VisitAll(kids: seq<TreeObject>, scope: string, cache: map<string, Snapshot>, ok: bool): Walk
    decreases kids
  {
    if |kids| == 0 then Walk(cache, [], Done)
    else
      var w := VisitAll(kids[..|kids| - 1], scope, cache, ok);
      if w.failed then w
      else
        var v := Visit(kids[|kids| - 1], Some(scope), w.cache, ok);
        Walk(v.cache, w.msgs + v.msgs, v.stop)
  }

  /** Every object of the tree is a mesh. */
  predicate Meshes(o: TreeObject)
    decreases o
  {
    o.kind == "MESH" && MeshesAll(o.children)
  }

  predicate MeshesAll(kids: seq<TreeObject>)
    decreases kids
  {
    |kids| == 0 || (MeshesAll(kids[..|kids| - 1]) && Meshes(kids[|kids| - 1]))
  }

  /** The names of all objects of a tree. */
  function NameSet(o: TreeObject): set<string>
    decreases o
  {
    {o.name} + NameSetAll(o.children)
  }

  function NameSetAll(kids: seq<TreeObject>): set<string>
    decreases kids
  {
    if |kids| == 0 then {} else NameSetAll(kids[..|kids| - 1]) + NameSet(kids[|kids| - 1])
  }

  /** No two objects of the tree share a name. */
  predicate UniqueNames(o: TreeObject)
    decreases o
  {
    o.name !in NameSetAll(o.children) && UniqueNamesAll(o.children)
  }

  predicate UniqueNamesAll(kids: seq<TreeObject>)
    decreases kids
  {
    |kids| == 0 ||
    (UniqueNamesAll(kids[..|kids| - 1]) && UniqueNames(kids[|kids| - 1]) &&
     NameSetAll(kids[..|kids| - 1]) !! NameSet(kids[|kids| - 1]))
  }

  /** Every object of the tree is a mesh and the cache holds its current snapshot. */
  predicate Cached(c: map<string, Snapshot>, o: TreeObject)
    decreases o
  {
    o.kind == "MESH" && o.name in c && c[o.name] == Data(o) && CachedAll(c, o.children)
  }

  predicate CachedAll(c: map<string, Snapshot>, kids: seq<TreeObject>)
    decreases kids
  {
    |kids| == 0 || (CachedAll(c, kids[..|kids| - 1]) && Cached(c, kids[|kids| - 1]))
  }

  /** Key k is present in a and b alike, with the same snapshot. */
  predicate Keeps(a: map<string, Snapshot>, b: map<string, Snapshot>, k: string)
  {
    (k in a <==> k in b) && (k in a ==> a[k] == b[k])
  }

  /** A tree holding an object that is not a mesh always fails. While sends go through,
      the pass fails exactly then, and only with AttributeError; when they do not,
      nothing is sent. */
  lemma {:induction false} VisitOutcome(o: TreeObject, scope: Option<string>, c: map<string, Snapshot>, ok: bool)
    ensures !Meshes(o) ==> Visit(o, scope, c, ok).failed
    ensures ok ==> (Visit(o, scope, c, ok).failed <==> !Meshes(o))
    ensures ok ==> Visit(o, scope, c, ok).stop != SendRaised
    ensures !ok ==> Visit(o, scope, c, ok).msgs == []
    decreases o
  {
    if o.kind == "MESH" {
      VisitAllOutcome(o.children, ChildScope(scope, o.name), c[o.name := Data(o)], ok);
    }
  }

  lemma {:induction false} VisitAllOutcome(kids: seq<TreeObject>, scope: string, c: map<string, Snapshot>, ok: bool)
    ensures !MeshesAll(kids) ==> VisitAll(kids, scope, c, ok).failed
    ensures ok ==> (VisitAll(kids, scope, c, ok).failed <==> !MeshesAll(kids))
    ensures ok ==> VisitAll(kids, scope, c, ok).stop != SendRaised
    ensures !ok ==> VisitAll(kids, scope, c, ok).msgs == []
    decreases kids
  {
    if |kids| > 0 {
      var init := kids[..|kids| - 1];
      VisitAllOutcome(init, scope, c, ok);
      var w := VisitAll(init, scope, c, ok);
      VisitOutcome(kids[|kids| - 1], Some(scope), w.cache, ok);
    }
  }

  /** Processing a tree writes the cache only under the names of its objects. */
  lemma {:induction false} VisitFrame(o: TreeObject, scope: Option<string>, c: map<string, Snapshot>, ok: bool)
    ensures forall k :: k !in NameSet(o) ==> Keeps(c, Visit(o, scope, c, ok).cache, k)
    decreases o
  {
    if o.kind == "MESH" {
      var c1 := c[o.name := Data(o)];
      VisitAllFrame(o.children, ChildScope(scope, o.name), c1, ok);
    }
  }

  lemma {:induction false} VisitAllFrame(kids: seq<TreeObject>, scope: string, c: map<string, Snapshot>, ok: bool)
    ensures forall k :: k !in NameSetAll(kids) ==> Keeps(c, VisitAll(kids, scope, c, ok).cache, k)
    decreases kids
  {
    if |kids| > 0 {
      var init := kids[..|kids| - 1];
      VisitAllFrame(init, scope, c, ok);
      var w := VisitAll(init, scope, c, ok);
      VisitFrame(kids[|kids| - 1], Some(scope), w.cache, ok);
    }
  }

  /** Rewriting keys outside a tree keeps it cached. */
  lemma {:induction false} CachedFrame(c: map<string, Snapshot>, c': map<string, Snapshot>, o: TreeObject)
    requires Cached(c, o)
    requires forall k :: k in NameSet(o) ==> Keeps(c, c', k)
    ensures Cached(c', o)
    decreases o
  {
    assert Keeps(c, c', o.name);
    CachedAllFrame(c, c', o.children);
  }

  lemma {:induction false} CachedAllFrame(c: map<string, Snapshot>, c': map<string, Snapshot>, kids: seq<TreeObject>)
    requires CachedAll(c, kids)
    requires forall k :: k in NameSetAll(kids) ==> Keeps(c, c', k)
    ensures CachedAll(c', kids)
    decreases kids
  {
    if |kids| > 0 {
      CachedAllFrame(c, c', kids[..|kids| - 1]);
      CachedFrame(c, c', kids[|kids| - 1]);
    }
  }

  /** After a pass that did not fail over a tree with distinct names, the cache holds the
      fresh snapshot of every object of the tree. */
  lemma {:induction false} VisitCaches(o: TreeObject, scope: Option<string>, c: map<string, Snapshot>, ok: bool)
    requires UniqueNames(o) && !Visit(o, scope, c, ok).failed
    ensures Cached(Visit(o, scope, c, ok).cache, o)
    decreases o
  {
    if o.kind == "MESH" {
      var c1 := c[o.name := Data(o)];
      var cs := ChildScope(scope, o.name);
      var rest := VisitAll(o.children, cs, c1, ok);
      VisitAllCaches(o.children, cs, c1, ok);
      VisitAllFrame(o.children, cs, c1, ok);
      assert Keeps(c1, rest.cache, o.name);
    }
  }

  lemma {:induction false} VisitAllCaches(kids: seq<TreeObject>, scope: string, c: map<string, Snapshot>, ok: bool)
    requires UniqueNamesAll(kids) && !VisitAll(kids, scope, c, ok).failed
    ensures CachedAll(VisitAll(kids, scope, c, ok).cache, kids)
    decreases kids
  {
    if |kids| > 0 {
      var init, last := kids[..|kids| - 1], kids[|kids| - 1];
      var w := VisitAll(init, scope, c, ok);
      VisitAllCaches(init, scope, c, ok);
      VisitCaches(last, Some(scope), w.cache, ok);
      VisitFrame(last, Some(scope), w.cache, ok);
      CachedAllFrame(w.cache, Visit(last, Some(scope), w.cache, ok).cache, init);
    }
  }

  /** A tree whose every snapshot is already cached sends nothing and leaves the cache as
      it is. */
  lemma {:induction false} SilentWhenCached(o: TreeObject, scope: Option<string>, c: map<string, Snapshot>, ok: bool)
    requires Cached(c, o)
    ensures Visit(o, scope, c, ok) == Walk(c, [], Done)
    decreases o
  {
    ChangesOfUnchanged(Data(o), ScopedId(scope, o.name));
    assert c[o.name := Data(o)] == c;
    SilentAllWhenCached(o.children, ChildScope(scope, o.name), c, ok);
  }

  lemma {:induction false} SilentAllWhenCached(kids: seq<TreeObject>, scope: string, c: map<string, Snapshot>, ok: bool)
    requires CachedAll(c, kids)
    ensures VisitAll(kids, scope, c, ok) == Walk(c, [], Done)
    decreases kids
  {
    if |kids| > 0 {
      SilentAllWhenCached(kids[..|kids| - 1], scope, c, ok);
      SilentWhenCached(kids[|kids| - 1], Some(scope), c, ok);
    }
  }

  /** Processing an unchanged tree of meshes with distinct names a second time sends
      nothing and leaves the cache as the first pass left it. */
  lemma SecondPassSilent(o: TreeObject, scope: Option<string>, c: map<string, Snapshot>)
    requires UniqueNames(o)
    ensures var first := Visit(o, scope, c, true);
      Meshes(o) ==> Visit(o, scope, first.cache, true) == Walk(first.cache, [], Done)
    ensures var first := Visit(o, scope, c, true);
      !Meshes(o) ==> Visit(o, scope, first.cache, true).stop == NotMesh
  {
    if !Meshes(o) {
      VisitOutcome(o, scope, c, true);
      VisitOutcome(o, scope, Visit(o, scope, c, true).cache, true);
      return;
    }
    VisitOutcome(o, scope, c, true);
    VisitCaches(o, scope, c, true);
    SilentWhenCached(o, scope, Visit(o, scope, c, true).cache, true);
  }

  /** The datagrams a client receives for `msgs`; nothing when there is no client. */
  function Stamp(client: Option<UiOscSender.Endpoint>, msgs: seq<Message>): (r: seq<(UiOscSender.Endpoint, Message)>)
    ensures client.None? ==> r == []
    ensures client.Some? ==> |r| == |msgs| && forall i :: 0 <= i < |msgs| ==> r[i] == (client.value, msgs[i])
  {
    if client.None? || |msgs| == 0 then []
    else Stamp(client, msgs[..|msgs| - 1]) + [(client.value, msgs[|msgs| - 1])]
  }

  lemma StampOne(client: Option<UiOscSender.Endpoint>, m: Message)
    requires client.Some?
    ensures Stamp(client, [m]) == [(client.value, m)]
  {
  }

  lemma {:induction false} StampAppend(client: Option<UiOscSender.Endpoint>, a: seq<Message>, b: seq<Message>)
    ensures Stamp(client, a + b) == Stamp(client, a) + Stamp(client, b)
    decreases |b|
  {
    if client.Some? && |b| > 0 {
      assert (a + b)[..|a + b| - 1] == a + b[..|b| - 1];
      StampAppend(client, a, b[..|b| - 1]);
    } else if client.Some? {
      assert a + b == a;
    }
  }

  // ---------------------------------------------------------------------------------------
  // Runners

  /** The sender registered under the key, if there is one: the only existing sender that
      setting up a runner for that key may touch. */
  ghost function Registered(senders: UiOscSender.Registry, key: string): set<UiOscSender.OscSender>
    reads senders
  {
    if key in senders.instances then {senders.instances[key]} else {}
  }

  /** `ObjectRunner.setup()`: take the registry's sender for the configured host and port,
      and since `isConnected()` never returns True, always call its `setup()`. */
  method SetupSender(host: string, port: int, senders: UiOscSender.Registry, canOpen: bool) returns (s: UiOscSender.OscSender)
    requires senders.Valid()
    modifies senders, Registered(senders, UiOscSender.InstanceKey(host, port))
    ensures senders.Valid()
    ensures s.host == host && s.port == port
    ensures UiOscSender.InstanceKey(host, port) in senders.instances
    ensures s == senders.instances[UiOscSender.InstanceKey(host, port)]
    ensures UiOscSender.InstanceKey(host, port) in old(senders.instances) ==>
      senders.instances == old(senders.instances) && s.sent == old(s.sent)
    ensures UiOscSender.InstanceKey(host, port) !in old(senders.instances) ==>
      fresh(s) && s.sent == [] && senders.instances == old(senders.instances)[UiOscSender.InstanceKey(host, port) := s]
    ensures canOpen ==> s.client == Some(UiOscSender.Endpoint(host, port)) && s.connected
    ensures !canOpen && UiOscSender.InstanceKey(host, port) !in old(senders.instances) ==> s.client == None
    ensures !canOpen && UiOscSender.InstanceKey(host, port) in old(senders.instances) ==> s.client == old(s.client)
  {
    s := senders.InstanceFor(host, port);
    if s.IsConnected() != Some(true) {
      s.Setup(canOpen);
    }
  }

  class ObjectRunner {
    const config: Config
    var sender: UiOscSender.OscSender
    /** Snapshot per object name, shared by the whole tree of this runner's object. */
    var dataCache: map<string, Snapshot>
    /** The registry key its sender is filed under, `host:port` of its configuration. */
    ghost const key: string

    /** `ObjectRunner(obj)`: an empty cache, then `setup()`. */
    constructor (config: Config, senders: UiOscSender.Registry, canOpen: bool)
      requires senders.Valid()
      modifies senders, Registered(senders, UiOscSender.InstanceKey(config.host, config.port))
      ensures senders.Valid()
      ensures this.config == config && dataCache == map[]
      ensures sender.host == config.host && sender.port == config.port
      ensures key == UiOscSender.InstanceKey(config.host, config.port)
      ensures key in senders.instances && sender == senders.instances[key]
      ensures key in old(senders.instances) ==> senders.instances == old(senders.instances)
      ensures key !in old(senders.instances) ==>
        fresh(sender) && senders.instances == old(senders.instances)[key := sender]
      ensures canOpen ==> sender.connected
    {
      key := UiOscSender.InstanceKey(config.host, config.port);
      this.config := config;
      dataCache := map[];
      var s := SetupSender(config.host, config.port, senders, canOpen);
      sender := s;
    }

    /** `update()`: set the sender's log level from the (live) verbose setting, then process
        the object and its descendants from the root scope. */
    method Update(current: TreeObject, verbose: bool, networkUp: bool) returns (err: Option<PyError>)
      modifies this`dataCache, sender`sent, sender`level
      ensures sender.level == (if verbose then UiOscSender.Debug else UiOscSender.Warning)
      ensures var w := Visit(current, None, old(dataCache), sender.client.Some? && networkUp);
        && dataCache == w.cache
        && sender.sent == old(sender.sent) + Stamp(sender.client, w.msgs)
        && (err.Some? <==> w.failed)
        && (w.stop == NotMesh ==> err == Some(AttributeError))
    {
      sender.SetVerbose(verbose);
      err := Process(current, None, networkUp);
    }

    /** `Processor.process()`: take the snapshot (AttributeError for an object that is not
        a mesh, before anything changes), cache it (the previous one only serves the
        comparison), send the changes, then process the children under the child scope; an
        exception ends the pass. */
    method Process(o: TreeObject, scope: Option<string>, networkUp: bool) returns (err: Option<PyError>)
      modifies this`dataCache, sender`sent
      ensures var w := Visit(o, scope, old(dataCache), sender.client.Some? && networkUp);
        && dataCache == w.cache
        && sender.sent == old(sender.sent) + Stamp(sender.client, w.msgs)
        && (err.Some? <==> w.failed)
        && (w.stop == NotMesh ==> err == Some(AttributeError))
      decreases o, 1
    {
      if o.kind != "MESH" {
        return Some(AttributeError);
      }
      var d := Data(o);
      var prev := if o.name in dataCache then Some(dataCache[o.name]) else None;
      ghost var out := Changes(d, prev, ScopedId(scope, o.name));
      dataCache := dataCache[o.name := d];
      ghost var ok := sender.client.Some? && networkUp;
      ghost var c1 := dataCache;
      err := SendChanges(d, prev, ScopedId(scope, o.name), networkUp);
      if err.Some? {
        assert Visit(o, scope, old(dataCache), ok) == Walk(c1, [], SendRaised);
        assert sender.sent == old(sender.sent);
        return;
      }
      ghost var s1 := sender.sent;
      assert s1 == old(sender.sent) + Stamp(sender.client, out);
      err := ProcessChildren(o.children, ChildScope(scope, o.name), networkUp);
      ghost var rest := VisitAll(o.children, ChildScope(scope, o.name), c1, ok);
      assert Visit(o, scope, old(dataCache), ok) == Walk(rest.cache, out + rest.msgs, rest.stop);
      assert sender.sent == s1 + Stamp(sender.client, rest.msgs);
      StampAppend(sender.client, out, rest.msgs);
      Lists.AppendAssoc(old(sender.sent), Stamp(sender.client, out), Stamp(sender.client, rest.msgs));
    }

    /** The `for child in children` loop of `process()`. */
    method ProcessChildren(kids: seq<TreeObject>, scope: string, networkUp: bool) returns (err: Option<PyError>)
      modifies this`dataCache, sender`sent
      ensures var w := VisitAll(kids, scope, old(dataCache), sender.client.Some? && networkUp);
        && dataCache == w.cache
        && sender.sent == old(sender.sent) + Stamp(sender.client, w.msgs)
        && (err.Some? <==> w.failed)
        && (w.stop == NotMesh ==> err == Some(AttributeError))
      decreases kids, 0
    {
      ghost var client := sender.client;
      ghost var ok := client.Some? && networkUp;
      ghost var c0, s0 := dataCache, sender.sent;
      ghost var w := Walk(c0, [], Done);
      err := None;
      var i := 0;
      while i < |kids| && err.None?
        invariant 0 <= i <= |kids| && sender.client == client
        invariant w == VisitAll(kids[..i], scope, c0, ok)
        invariant dataCache == w.cache && sender.sent == s0 + Stamp(client, w.msgs) && (err.Some? <==> w.failed)
        invariant w.stop == NotMesh ==> err == Some(AttributeError)
      {
        err, w := ProcessNext(kids, i, scope, networkUp, ok, client, c0, s0, w);
        i := i + 1;
      }
      if err.Some? {
        PrefixFailed(kids, i, scope, c0, ok);
      } else {
        assert kids[..i] == kids;
      }
    }

    /** Iteration `i` of the `for child in children` loop: process child `i`. */
    method ProcessNext(kids: seq<TreeObject>, i: nat, scope: string, networkUp: bool, ghost ok: bool,
                       ghost client: Option<UiOscSender.Endpoint>, ghost c0: map<string, Snapshot>,
                       ghost s0: seq<(UiOscSender.Endpoint, Message)>, ghost w: Walk)
      returns (err: Option<PyError>, ghost w': Walk)
      requires i < |kids| && sender.client == client && ok == (client.Some? && networkUp)
      requires w == VisitAll(kids[..i], scope, c0, ok)
      requires !w.failed && dataCache == w.cache && sender.sent == s0 + Stamp(client, w.msgs)
      modifies this`dataCache, sender`sent
      ensures sender.client == client
      ensures w' == VisitAll(kids[..i + 1], scope, c0, ok)
      ensures dataCache == w'.cache && sender.sent == s0 + Stamp(client, w'.msgs) && (err.Some? <==> w'.failed)
      ensures w'.stop == NotMesh ==> err == Some(AttributeError)
      decreases kids, 0, i
    {
      VisitAllStep(kids, i, scope, c0, ok);
      err := Process(kids[i], Some(scope), networkUp);
      ghost var v := Visit(kids[i], Some(scope), w.cache, ok);
      StampAppend(client, w.msgs, v.msgs);
      Lists.AppendAssoc(s0, Stamp(client, w.msgs), Stamp(client, v.msgs));
      w' := Walk(v.cache, w.msgs + v.msgs, v.stop);
    }

    /** `_send_changes(data, previousData)`: one message per changed vector field, then the
        vertices message if they changed; the first send that raises ends it. */
    method SendChanges(d: Snapshot, prev: Option<Snapshot>, id: string, networkUp: bool) returns (err: Option<PyError>)
      modifies sender`sent
      ensures var ok := sender.client.Some? && networkUp;
        var out := Changes(d, prev, id);
        && (ok ==> err.None? && sender.sent == old(sender.sent) + Stamp(sender.client, out))
        && (!ok ==> sender.sent == old(sender.sent) && (err.Some? <==> |out| > 0))
    {
      ghost var client := sender.client;
      ghost var ok := client.Some? && networkUp;
      ghost var s0 := sender.sent;
      ghost var out;
      err, out := SendVectors(d, prev, id, networkUp, ok, client, s0);
      if err.Some? {
        return;
      }
      err := SendVerticesAfter(d, prev, id, networkUp, ok, s0);
    }

    /** The loop of `_send_changes` over the three vector fields, up to the first send
        that raises. */
    method SendVectors(d: Snapshot, prev: Option<Snapshot>, id: string, networkUp: bool,
                       ghost ok: bool, ghost client: Option<UiOscSender.Endpoint>,
                       ghost s0: seq<(UiOscSender.Endpoint, Message)>)
      returns (err: Option<PyError>, ghost out: seq<Message>)
      requires sender.client == client && ok == (client.Some? && networkUp) && sender.sent == s0
      modifies sender`sent
      ensures err.None? ==> out == VectorChanges(d, prev, id, 3)
      ensures err.None? ==> (ok ==> sender.sent == s0 + Stamp(client, out))
      ensures err.None? ==> (!ok ==> sender.sent == s0 && out == [])
      ensures err.Some? ==> !ok && sender.sent == s0 && |Changes(d, prev, id)| > 0
    {
      var k := 0;
      out := [];
      err := None;
      while k < 3
        invariant 0 <= k <= 3 && sender.client == client && err.None?
        invariant out == VectorChanges(d, prev, id, k)
        invariant ok ==> sender.sent == s0 + Stamp(client, out)
        invariant !ok ==> sender.sent == s0 && out == []
      {
        err, out := SendVectorAt(d, prev, id, k, networkUp, ok, client, s0, out);
        if err.Some? {
          return;
        }
        k := k + 1;
      }
    }

    /** The end of `_send_changes`: the vertices message, if they changed, after the three
        vector fields. */
    method SendVerticesAfter(d: Snapshot, prev: Option<Snapshot>, id: string, networkUp: bool,
                             ghost ok: bool, ghost s0: seq<(UiOscSender.Endpoint, Message)>)
      returns (err: Option<PyError>)
      requires ok == (sender.client.Some? && networkUp)
      requires ok ==> sender.sent == s0 + Stamp(sender.client, VectorChanges(d, prev, id, 3))
      requires !ok ==> sender.sent == s0 && VectorChanges(d, prev, id, 3) == []
      modifies sender`sent
      ensures ok ==> err.None? && sender.sent == s0 + Stamp(sender.client, Changes(d, prev, id))
      ensures !ok ==> sender.sent == s0 && (err.Some? <==> |Changes(d, prev, id)| > 0)
    {
      ghost var vectors := VectorChanges(d, prev, id, 3);
      if FieldChanged(d, prev, 3) {
        var params := VertexParams(id, d.vertices);
        var outcome := sender.Send(BasePath + "vertices", params, networkUp);
        if outcome.Raised? {
          return Some(outcome.error);
        }
        StampOne(sender.client, VertexMessage(id, d.vertices));
        StampAppend(sender.client, vectors, [VertexMessage(id, d.vertices)]);
        Lists.AppendAssoc(s0, Stamp(sender.client, vectors), Stamp(sender.client, [VertexMessage(id, d.vertices)]));
      } else {
        assert Changes(d, prev, id) == vectors;
      }
      return None;
    }

    /** Iteration `k` of the vector loop of `_send_changes`: send field `k` if it changed. */
    method SendVectorAt(d: Snapshot, prev: Option<Snapshot>, id: string, k: nat, networkUp: bool,
                        ghost ok: bool, ghost client: Option<UiOscSender.Endpoint>,
                        ghost s0: seq<(UiOscSender.Endpoint, Message)>, ghost before: seq<Message>)
      returns (err: Option<PyError>, ghost after: seq<Message>)
      requires k < 3 && sender.client == client && ok == (client.Some? && networkUp)
      requires before == VectorChanges(d, prev, id, k)
      requires ok ==> sender.sent == s0 + Stamp(client, before)
      requires !ok ==> sender.sent == s0 && before == []
      modifies sender`sent
      ensures after == VectorChanges(d, prev, id, k + 1)
      ensures err.None? ==> (ok ==> sender.sent == s0 + Stamp(client, after))
      ensures err.None? ==> (!ok ==> sender.sent == s0 && after == [])
      ensures err.Some? ==> !ok && sender.sent == s0 && |Changes(d, prev, id)| > 0
    {
      after := VectorChanges(d, prev, id, k + 1);
      if FieldChanged(d, prev, k) {
        var v := VecField(d, k);
        assert after == before + [VectorMessage(k, id, v)];
        var outcome := sender.Send(BasePath + Fields[k], [Str(id), Real(v.x), Real(v.y), Real(v.z)], networkUp);
        if outcome.Raised? {
          NonEmptyPrefix(d, prev, id, k + 1);
          return Some(outcome.error), after;
        }
        StampOne(client, VectorMessage(k, id, v));
        StampAppend(client, before, [VectorMessage(k, id, v)]);
        Lists.AppendAssoc(s0, Stamp(client, before), Stamp(client, [VectorMessage(k, id, v)]));
      } else {
        assert after == before;
      }
      err := None;
    }
  }

  /** The `vertexParams` list of `_send_changes`: the id, then x, y, z of each vertex. */
  method VertexParams(id: string, vs: seq<Vec3>) returns (params: seq<Value>)
    ensures params == VertexMessage(id, vs).args
  {
    params := [Str(id)];
    var j := 0;
    while j < |vs|
      invariant 0 <= j <= |vs|
      invariant params == [Str(id)] + Coords(vs[..j])
    {
      var v := vs[j];
      params := params + [Real(v.x), Real(v.y), Real(v.z)];
      assert vs[..j + 1][..j] == vs[..j];
      j := j + 1;
    }
    assert vs[..j] == vs;
  }

  /** One more child, after a prefix that did not fail: its walk continues the prefix's. */
  lemma VisitAllStep(kids: seq<TreeObject>, i: nat, scope: string, c: map<string, Snapshot>, ok: bool)
    requires i < |kids| && !VisitAll(kids[..i], scope, c, ok).failed
    ensures var w := VisitAll(kids[..i], scope, c, ok);
      var v := Visit(kids[i], Some(scope), w.cache, ok);
      VisitAll(kids[..i + 1], scope, c, ok) == Walk(v.cache, w.msgs + v.msgs, v.stop)
  {
    assert kids[..i + 1][..i] == kids[..i];
  }

  /** Once a prefix of the children fails, the whole loop fails with that prefix's outcome. */
  lemma {:induction false} PrefixFailed(kids: seq<TreeObject>, n: nat, scope: string, c: map<string, Snapshot>, ok: bool)
    requires n <= |kids| && VisitAll(kids[..n], scope, c, ok).failed
    ensures VisitAll(kids, scope, c, ok) == VisitAll(kids[..n], scope, c, ok)
    decreases |kids| - n
  {
    if n < |kids| {
      assert kids[..n + 1][..n] == kids[..n];
      PrefixFailed(kids, n + 1, scope, c, ok);
    } else {
      assert kids[..n] == kids;
    }
  }

  /** A vector field that changed makes the whole message list non-empty. */
  lemma NonEmptyPrefix(d: Snapshot, prev: Option<Snapshot>, id: string, n: nat)
    requires 1 <= n <= 3 && FieldChanged(d, prev, n - 1)
    ensures |Changes(d, prev, id)| > 0
  {
    LongerPrefix(d, prev, id, n, 3);
  }

  lemma {:induction false} LongerPrefix(d: Snapshot, prev: Option<Snapshot>, id: string, n: nat, m: nat)
    requires n <= m <= 3
    ensures VectorChanges(d, prev, id, n) <= VectorChanges(d, prev, id, m)
    decreases m - n
  {
    if n < m {
      LongerPrefix(d, prev, id, n, m - 1);
    }
  }

  // ---------------------------------------------------------------------------------------
  // The frame handler's object filter and the runner registry

  /** `Runner.update` hands an object on when it is a mesh without parent with ui-editor
      enabled. */
  predicate IsTarget(o: SceneObject)
  {
    o.tree.kind == "MESH" && !o.hasParent && o.config.enabled
  }

  /** The objects `Runner.update` processes, in scene order. */
  function Targets(scene: seq<SceneObject>): (ts: seq<SceneObject>)
    ensures forall o :: o in ts <==> o in scene && IsTarget(o)
    ensures |ts| <= |scene|
  {
    if |scene| == 0 then []
    else
      var init := Targets(scene[..|scene| - 1]);
      assert scene == scene[..|scene| - 1] + [scene[|scene| - 1]];
      if IsTarget(scene[|scene| - 1]) then init + [scene[|scene| - 1]] else init
  }

  /** The add-on's shared state: the `ObjectRunner._instances` registry keyed by the object
      itself (so a renamed object keeps its runner and its cache),
      and the `OscSender._instances` registry its runners draw their senders from. */
  class Editor {
    var objectRunners: map<BlenderRef, ObjectRunner>
    const senders: UiOscSender.Registry
    ghost var Repr: set<object>

    ghost predicate Valid()
      reads this, Repr
    {
      && this in Repr && senders in Repr
      && (forall k :: k in senders.instances ==> senders.instances[k] in Repr)
      && senders.Valid()
      && (forall k :: k in objectRunners ==> objectRunners[k] in Repr && SenderOf(objectRunners[k]))
    }

    /** The runner's sender is the registry's entry for its configured host and port. */
    ghost predicate SenderOf(r: ObjectRunner)
      reads this, senders, r
    {
      r.key in senders.instances && senders.instances[r.key] == r.sender
    }

    constructor ()
      ensures Valid() && fresh(Repr)
      ensures objectRunners == map[] && senders.instances == map[]
    {
      objectRunners := map[];
      senders := new UiOscSender.Registry();
      new;
      Repr := {this, senders};
    }

    /** `ObjectRunner.instance_for(obj)`: the registered runner, else a new one (which sets
        up its sender) registered under the object. */
    method ObjectRunnerFor(o: SceneObject, canOpen: bool) returns (r: ObjectRunner)
      requires Valid()
      modifies this, senders, Registered(senders, UiOscSender.InstanceKey(o.config.host, o.config.port))
      ensures Valid() && fresh(Repr - old(Repr))
      ensures o.ref in objectRunners && objectRunners[o.ref] == r
      ensures r.dataCache == if o.ref in old(objectRunners) then old(objectRunners[o.ref].dataCache) else map[]
      ensures o.ref in old(objectRunners) ==>
        r == old(objectRunners[o.ref]) && objectRunners == old(objectRunners) &&
        senders.instances == old(senders.instances)
      ensures o.ref !in old(objectRunners) ==>
        fresh(r) && r.config == o.config && r.dataCache == map[] &&
        objectRunners == old(objectRunners)[o.ref := r]
    {
      if o.ref in objectRunners {
        return objectRunners[o.ref];
      }
      r := AddRunner(o, canOpen);
    }

    /** The miss branch of `instance_for`: make the runner and file it under the object. */
    method AddRunner(o: SceneObject, canOpen: bool) returns (r: ObjectRunner)
      requires Valid() && o.ref !in objectRunners
      modifies this, senders, Registered(senders, UiOscSender.InstanceKey(o.config.host, o.config.port))
      ensures Valid() && fresh(Repr - old(Repr))
      ensures fresh(r) && r.config == o.config && r.dataCache == map[]
      ensures objectRunners == old(objectRunners)[o.ref := r]
    {
      ghost var before := senders.instances;
      r := new ObjectRunner(o.config, senders, canOpen);
      assert forall k :: k in before ==> k in senders.instances && senders.instances[k] == before[k];
      objectRunners := objectRunners[o.ref := r];
      Repr := Repr + {r, r.sender};
    }

    /** One step of `Runner.update`: `ObjectRunner.instance_for(obj).update()`. The runner
        processes the object's tree from its cache and sends through its sender, as
        `ObjectRunner.Update` states. */
    method Dispatch(o: SceneObject, canOpen: bool, networkUp: bool) returns (err: Option<PyError>)
      requires Valid()
      modifies Repr
      ensures Valid() && fresh(Repr - old(Repr))
      ensures o.ref in objectRunners && objectRunners.Keys == old(objectRunners).Keys + {o.ref}
      ensures var r := objectRunners[o.ref];
        var c0 := if o.ref in old(objectRunners) then old(objectRunners[o.ref].dataCache) else map[];
        var w := Visit(o.tree, None, c0, r.sender.client.Some? && networkUp);
        && r.dataCache == w.cache
        && (err.Some? <==> w.failed)
        && (w.stop == NotMesh ==> err == Some(AttributeError))
    {
      var r := ObjectRunnerFor(o, canOpen);
      err := Run(o.ref, o.tree, o.config.verbose, networkUp);
    }

    /** `update()` of the runner registered for `ref`: its cache and its sender change as
        `ObjectRunner.Update` states, and the registries stay as they are. */
    method Run(ref: BlenderRef, tree: TreeObject, verbose: bool, networkUp: bool) returns (err: Option<PyError>)
      requires Valid() && ref in objectRunners
      modifies Repr
      ensures Valid() && Repr == old(Repr) && objectRunners == old(objectRunners)
      ensures var r := objectRunners[ref];
        var w := Visit(tree, None, old(r.dataCache), r.sender.client.Some? && networkUp);
        && r.dataCache == w.cache
        && (err.Some? <==> w.failed)
        && (w.stop == NotMesh ==> err == Some(AttributeError))
    {
      var r := objectRunners[ref];
      assert r.sender in Repr by {
        assert SenderOf(r);
      }
      err := r.Update(tree, verbose, networkUp);
    }

    /** `Runner.update()` followed by `ObjectRunner.update()` for each target: every target
        of the scene gets its runner and is processed, in scene order, until a send raises. */
    method Update(scene: seq<SceneObject>, canOpen: bool, networkUp: bool) returns (err: Option<PyError>)
      requires Valid()
      modifies Repr
      ensures Valid() && fresh(Repr - old(Repr))
      ensures err.None? ==> forall j :: 0 <= j < |scene| && IsTarget(scene[j]) ==> scene[j].ref in objectRunners
    {
      var i := 0;
      err := None;
      ghost var seen: set<BlenderRef> := {};
      while i < |scene| && err.None?
        invariant 0 <= i <= |scene|
        invariant Valid() && fresh(Repr - old(Repr))
        invariant seen <= objectRunners.Keys
        invariant err.None? ==> forall j :: 0 <= j < i && IsTarget(scene[j]) ==> scene[j].ref in seen
      {
        if IsTarget(scene[i]) {
          err := Dispatch(scene[i], canOpen, networkUp);
          seen := seen + {scene[i].ref};
        }
        i := i + 1;
      }
    }
  }
}
