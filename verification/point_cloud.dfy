/** The point cloud loader add-on: on a frame change each enabled object picks a frame file
    (by an explicit frame number, or by the scene frame times a ratio modulo the number of
    files), parses its comma-separated lines into points, and rewrites the vertices of its
    point cloud mesh to exactly those points, unless that file is already loaded.
    The file system is an input: the frame numbers whose frame file path names an existing
    file, the `%` formatting of the configured file name, the resolution of a path relative
    to the blend file, the lines of a file, and Python's `float()`. */
module PointCloud {
  import opened Common
  import Strings
  import Lists

  /** The per-object settings of the loader's panel. */
  datatype LoaderConfig = LoaderConfig(
    pointCloudFrame: int, numFiles: int, frameRatio: real, skipPoints: int,
    bounds: bool, boundsMin: Vec3, boundsMax: Vec3,
    modifyPoints: bool, vertOffset: Vec3, vertMultiply: Vec3)

  /** What the loader can observe of the host and the file system. */
  datatype Env = Env(
    existing: set<int>,              // frame numbers n for which `isfile(pathForPointCloudFrame(n))` holds
    format: int -> string,           // `fileName % n`
    resolve: string -> string,       // `bpy.path.abspath`
    read: string -> Option<seq<string>>, // the lines of the file at a path; None when there is no file there
    parse: string -> Option<real>)   // `float(s)`; None for the ValueError

  /** FileNotFoundError, the OSError with errno ENOENT (2). */
  const FileNotFound: PyError := OSError(2)

  // ---------------------------------------------------------------------------------------
  // Frame files

  /** The number of consecutive existing files counted from frame 0 is n. */
  predicate IsGap(existing: set<int>, n: nat)
  {
    n !in existing && forall i :: 0 <= i < n ==> i in existing
  }

  /** If 0 .. n-1 all belong to s, s has at least n elements. */
  lemma {:induction false} PrefixInSet(s: set<int>, n: nat)
    requires forall i :: 0 <= i < n ==> i in s
    ensures n <= |s|
  {
    if n > 0 {
      var s' := s - {n - 1};
      assert forall i :: 0 <= i < n - 1 ==> i in s';
      PrefixInSet(s', n - 1);
    }
  }

  lemma {:induction false} GapFrom(s: set<int>, k: nat)
    requires forall i :: 0 <= i < k ==> i in s
    ensures exists n: nat :: IsGap(s, n)
    decreases |s| - k
  {
    if k in s {
      PrefixInSet(s, k + 1);
      GapFrom(s, k + 1);
    } else {
      assert IsGap(s, k);
    }
  }

  /** The count of consecutive existing frame files from frame 0. A finite set of frame
      numbers always leaves a gap, so the counting loop ends. */
  ghost function FirstGap(existing: set<int>): (n: nat)
    ensures IsGap(existing, n)
  {
    GapFrom(existing, 0);
    var n: nat :| IsGap(existing, n); n
  }

  lemma GapUnique(existing: set<int>, a: nat, b: nat)
    requires IsGap(existing, a) && IsGap(existing, b)
    ensures a == b
  {
  }

  /** `int(frame * frameRatio) % total`, or None without files. Python's `%` with a positive
      divisor agrees with Dafny's. */
  function FrameFor(frame: int, ratio: real, total: nat): (r: Option<int>)
    ensures r.None? <==> total == 0
    ensures r.Some? ==> 0 <= r.value < total
  {
    if total == 0 then None else Some(Trunc(frame as real * ratio) % total)
  }

  /** At ratio 1 the scene frames 0 .. total-1 pick the files with the same numbers. */
  lemma FramesWithinCountPickThemselves(frame: int, total: nat)
    requires 0 <= frame < total
    ensures FrameFor(frame, 1.0, total) == Some(frame)
  {
    TruncWhole(frame);
  }

  lemma TruncWhole(n: int)
    ensures Trunc(n as real * 1.0) == n
  {
    assert n as real * 1.0 == n as real;
  }

  /** `pathForPointCloudFrame(n)`: None for None; a formatted path starting with '/' as it
      is; any other relative to the blend file. */
  function PathForPointCloudFrame(n: Option<int>, env: Env): (p: Option<string>)
    ensures p.None? <==> n.None?
    ensures n.Some? && Strings.StartsWith(env.format(n.value), "/") ==> p == Some(env.format(n.value))
    ensures n.Some? && !Strings.StartsWith(env.format(n.value), "/") ==> p == Some(env.resolve("//" + env.format(n.value)))
  {
    if n.None? then None
    else
      var path := env.format(n.value);
      if Strings.StartsWith(path, "/") then Some(path) else Some(env.resolve("//" + path))
  }

  /** `ObjectFileManager`: picks the frame file of an object, caching the automatic file
      count on the instance. */
  class ObjectFileManager {
    const config: LoaderConfig
    /** `autoNumberOfFiles_cache`, absent until first computed. */
    var cache: Option<nat>

    constructor (config: LoaderConfig)
      ensures this.config == config && cache == None
    {
      this.config := config;
      cache := None;
    }

    /** The file count `numberOfFiles()` yields from the current cache. */
    ghost function Total(existing: set<int>): nat
      reads this
    {
      if config.numFiles > 0 then config.numFiles
      else if cache.Some? then cache.value
      else FirstGap(existing)
    }

    /** `getPointCloudFrameNumber(frame)`: the configured frame when it is not -1, else the
        scene frame scaled and wrapped into the file count, None without files. */
    method GetPointCloudFrameNumber(frame: int, existing: set<int>) returns (r: Option<int>)
      modifies this`cache
      ensures config.pointCloudFrame != -1 ==> r == Some(config.pointCloudFrame) && cache == old(cache)
      ensures config.pointCloudFrame == -1 ==> r == FrameFor(frame, config.frameRatio, old(Total(existing)))
      ensures config.pointCloudFrame == -1 ==> Total(existing) == old(Total(existing))
    {
      if config.pointCloudFrame != -1 {
        return Some(config.pointCloudFrame);
      }
      var total := NumberOfFiles(existing);
      r := FrameFor(frame, config.frameRatio, total);
    }

    /** `frameFilePath(frame)`. */
    method FrameFilePath(frame: int, env: Env) returns (p: Option<string>)
      modifies this`cache
      ensures config.pointCloudFrame != -1 ==> p == PathForPointCloudFrame(Some(config.pointCloudFrame), env)
      ensures config.pointCloudFrame == -1 ==>
        p == PathForPointCloudFrame(FrameFor(frame, config.frameRatio, old(Total(env.existing))), env)
    {
      var n := GetPointCloudFrameNumber(frame, env.existing);
      p := PathForPointCloudFrame(n, env);
    }

    /** `numberOfFiles()`: the configured count when positive, else the automatic one. */
    method NumberOfFiles(existing: set<int>) returns (n: nat)
      modifies this`cache
      ensures n == old(Total(existing)) && n == Total(existing)
      ensures config.numFiles > 0 ==> cache == old(cache)
    {
      if config.numFiles > 0 {
        return config.numFiles;
      }
      n := AutoNumberOfFiles(existing);
    }

    /** `autoNumberOfFiles()`: the cached count if there is one, else count the consecutive
        existing files from frame 0 and cache the count. */
    method AutoNumberOfFiles(existing: set<int>) returns (n: nat)
      modifies this`cache
      ensures cache == Some(n)
      ensures old(cache).Some? ==> n == old(cache).value
      ensures old(cache).None? ==> IsGap(existing, n)
    {
      if cache.Some? {
        return cache.value;
      }
      var minN, maxN := 0, 0;
      while maxN in existing
        invariant forall i :: 0 <= i < maxN ==> i in existing
        invariant maxN <= |existing|
        decreases |existing| - maxN
      {
        PrefixInSet(existing, maxN + 1);
        maxN := maxN + 1;
      }
      n := maxN - minN;
      cache := Some(n);
    }
  }

  // ---------------------------------------------------------------------------------------
  // Frame file parsing

  /** The options of a `PointCloudFrameFile`: lines skipped after each point, optional
      bounds, offset and multiplier. */
  datatype FileOptions = FileOptions(skip: int, minBounds: Option<Vec3>, maxBounds: Option<Vec3>,
                                     offset: Option<Vec3>, multiply: Option<Vec3>)

  /** The options `loadFrame` gives the file: bounds only when enabled, offset and multiplier
      only when `modify` is set (`modifyPoints` here). */
  function OptionsOf(c: LoaderConfig): FileOptions
  {
    FileOptions(c.skipPoints,
                if c.bounds then Some(c.boundsMin) else None,
                if c.bounds then Some(c.boundsMax) else None,
                if c.modifyPoints then Some(c.vertOffset) else None,
                if c.modifyPoints then Some(c.vertMultiply) else None)
  }

  /** `idx, x, y, z = [100 * float(v) for v in line.split(",")]`: exactly four parts that
      all parse; the coordinates scaled by 100. None stands for the ValueError. */
  function ParseLine(line: string, parse: string -> Option<real>): (r: Option<Vec3>)
    ensures r.Some? ==> |Strings.Split(line, ',')| == 4
  {
    var parts := Strings.Split(line, ',');
    if |parts| != 4 then None
    else
      var i, x, y, z := parse(parts[0]), parse(parts[1]), parse(parts[2]), parse(parts[3]);
      if i.None? || x.None? || y.None? || z.None? then None
      else Some(Vec3(100.0 * x.value, 100.0 * y.value, 100.0 * z.value))
  }

  /** The coordinates, as read and scaled by 100, have a non-zero product. */
  predicate NonZero(p: Vec3)
  {
    p.x * p.y * p.z != 0.0
  }

  /** Multiply, then offset, coordinate by coordinate. */
  function Transform(o: FileOptions, p: Vec3): Vec3
  {
    var m := if o.multiply.Some? then Vec3(p.x * o.multiply.value.x, p.y * o.multiply.value.y, p.z * o.multiply.value.z) else p;
    if o.offset.Some? then Vec3(m.x + o.offset.value.x, m.y + o.offset.value.y, m.z + o.offset.value.z) else m
  }

  /** A point below the lower bound or above the upper bound on some axis. */
  predicate Rejected(o: FileOptions, v: Vec3)
  {
    (o.minBounds.Some? && (v.x < o.minBounds.value.x || v.y < o.minBounds.value.y || v.z < o.minBounds.value.z)) ||
    (o.maxBounds.Some? && (v.x > o.maxBounds.value.x || v.y > o.maxBounds.value.y || v.z > o.maxBounds.value.z))
  }

  /** The three lists a frame file fills. */
  datatype Loaded = Loaded(all: seq<Vec3>, rejected: seq<Vec3>, points: seq<Vec3>)

  function Join(a: Loaded, b: Loaded): Loaded
  {
    Loaded(a.all + b.all, a.rejected + b.rejected, a.points + b.points)
  }

  /** The line reached after a parsed line at pos: the next one, past `skip` more. */
  function Next(o: FileOptions, pos: nat): nat
  {
    pos + 1 + (if o.skip > 0 then o.skip else 0)
  }

  /** What `_loadFrameData` collects from the line at pos on: it stops at the end of the file
      or at the first line that does not parse; every parsed point goes to `all`, and then to
      `rejected` when out of bounds, else to `points` when its untransformed coordinates have
      a non-zero product. Rejected points are out of bounds, kept points within bounds. */
  function Scan(lines: seq<string>, pos: nat, parse: string -> Option<real>, o: FileOptions): (r: Loaded)
    ensures |r.rejected| + |r.points| <= |r.all|
    ensures forall i :: 0 <= i < |r.rejected| ==> Rejected(o, r.rejected[i])
    ensures forall i :: 0 <= i < |r.points| ==> !Rejected(o, r.points[i])
    decreases |lines| - pos
  {
    if pos >= |lines| then Loaded([], [], [])
    else
      var p := ParseLine(lines[pos], parse);
      if p.None? then Loaded([], [], [])
      else
        var v := Transform(o, p.value);
        var here :=
          if Rejected(o, v) then Loaded([v], [v], [])
          else if NonZero(p.value) then Loaded([v], [], [v])
          else Loaded([v], [], []);
        Join(here, Scan(lines, Next(o, pos), parse, o))
  }

  /** One parsed line: its point heads `all`, and heads `rejected` or `points` as classified. */
  lemma ScanStep(lines: seq<string>, pos: nat, parse: string -> Option<real>, o: FileOptions)
    requires pos < |lines| && ParseLine(lines[pos], parse).Some?
    ensures var p := ParseLine(lines[pos], parse).value;
      var v := Transform(o, p);
      var s, rest := Scan(lines, pos, parse, o), Scan(lines, Next(o, pos), parse, o);
      s.all == [v] + rest.all &&
      s.rejected == (if Rejected(o, v) then [v] else []) + rest.rejected &&
      s.points == (if !Rejected(o, v) && NonZero(p) then [v] else []) + rest.points
  {
  }

  /** The positions of the lines the scan parses from pos on. */
  function Visited(lines: seq<string>, pos: nat, parse: string -> Option<real>, o: FileOptions): set<nat>
    decreases |lines| - pos
  {
    if pos >= |lines| then {}
    else if ParseLine(lines[pos], parse).None? then {pos}
    else {pos} + Visited(lines, Next(o, pos), parse, o)
  }

  /** The skipped lines are discarded unparsed and nothing after the first malformed line
      is read: two files that agree on the lines the scan parses give the same points. */
  lemma {:induction false} ScanReadsOnlyVisited(lines: seq<string>, lines': seq<string>, pos: nat,
                                                parse: string -> Option<real>, o: FileOptions)
    requires |lines| == |lines'|
    requires forall k :: k in Visited(lines, pos, parse, o) ==> k < |lines| && lines'[k] == lines[k]
    ensures Scan(lines', pos, parse, o) == Scan(lines, pos, parse, o)
    ensures Visited(lines', pos, parse, o) == Visited(lines, pos, parse, o)
    decreases |lines| - pos
  {
    if pos < |lines| {
      assert pos in Visited(lines, pos, parse, o);
      if ParseLine(lines[pos], parse).Some? {
        ScanReadsOnlyVisited(lines, lines', Next(o, pos), parse, o);
      }
    }
  }

  /** With a skip of s, no two parsed lines are closer than s + 1. */
  lemma {:induction false} VisitedSpacing(lines: seq<string>, pos: nat, parse: string -> Option<real>, o: FileOptions)
    ensures forall k :: k in Visited(lines, pos, parse, o) ==> pos <= k && (k == pos || Next(o, pos) <= k)
    decreases |lines| - pos
  {
    if pos < |lines| && ParseLine(lines[pos], parse).Some? {
      VisitedSpacing(lines, Next(o, pos), parse, o);
    }
  }

  /** `PointCloudFrameFile`: a path, the parsing options, and the three point lists. */
  class FrameFile {
    const path: string
    const options: FileOptions
    var all: seq<Vec3>
    var rejected: seq<Vec3>
    var points: seq<Vec3>

    constructor (path: string, options: FileOptions)
      ensures this.path == path && this.options == options
      ensures all == [] && rejected == [] && points == []
    {
      this.path := path;
      this.options := options;
      all, rejected, points := [], [], [];
    }

    /** `get_points()`: parse the file when no point has been collected yet. Opening a
        file that is not there raises FileNotFoundError. */
    method GetPoints(content: Option<seq<string>>, parse: string -> Option<real>)
      returns (r: seq<Vec3>, err: Option<PyError>)
      modifies this
      ensures |old(points)| > 0 ==>
        err == None && r == old(points) && points == old(points) && all == old(all) && rejected == old(rejected)
      ensures |old(points)| == 0 && content.None? ==>
        err == Some(FileNotFound) && all == old(all) && rejected == old(rejected) && points == old(points)
      ensures |old(points)| == 0 && content.Some? ==>
        err == None && r == points == Scan(content.value, 0, parse, options).points &&
        all == old(all) + Scan(content.value, 0, parse, options).all &&
        rejected == old(rejected) + Scan(content.value, 0, parse, options).rejected
    {
      if |points| == 0 {
        err := LoadFrameData(content, parse);
        if err.Some? {
          return [], err;
        }
      }
      return points, None;
    }

    /** `_loadFrameData()`: open the file, which raises FileNotFoundError when it is not
        there; otherwise read line after line until one does not parse, appending each
        point to the lists, and discarding `skip` lines after each parsed one. */
    method LoadFrameData(content: Option<seq<string>>, parse: string -> Option<real>) returns (err: Option<PyError>)
      modifies this
      ensures content.None? ==>
        err == Some(FileNotFound) && all == old(all) && rejected == old(rejected) && points == old(points)
      ensures content.Some? ==> err == None
      ensures content.Some? ==>
        var s := Scan(content.value, 0, parse, options);
        all == old(all) + s.all && rejected == old(rejected) + s.rejected && points == old(points) + s.points
    {
      if content.None? {
        return Some(FileNotFound);
      }
      var lines := content.value;
      ghost var s := Scan(lines, 0, parse, options);
      var pos: nat := 0;
      while pos < |lines|
        invariant all + Scan(lines, pos, parse, options).all == old(all) + s.all
        invariant rejected + Scan(lines, pos, parse, options).rejected == old(rejected) + s.rejected
        invariant points + Scan(lines, pos, parse, options).points == old(points) + s.points
        decreases |lines| - pos
      {
        var p := ParseLine(lines[pos], parse);
        if p.None? {
          break;
        }
        ghost var rest := Scan(lines, Next(options, pos), parse, options);
        var v := Transform(options, p.value);
        ScanStep(lines, pos, parse, options);
        Lists.AppendAssoc(all, [v], rest.all);
        all := all + [v];
        if Rejected(options, v) {
          Lists.AppendAssoc(rejected, [v], rest.rejected);
          rejected := rejected + [v];
          assert Scan(lines, pos, parse, options).points == rest.points;
        } else if NonZero(p.value) {
          Lists.AppendAssoc(points, [v], rest.points);
          points := points + [v];
          assert Scan(lines, pos, parse, options).rejected == rest.rejected;
        } else {
          assert Scan(lines, pos, parse, options).points == rest.points;
          assert Scan(lines, pos, parse, options).rejected == rest.rejected;
        }
        pos := Next(options, pos);
      }
      err := None;
    }
  }

  // ---------------------------------------------------------------------------------------
  // The mesh

  /** The vertex array of the point cloud mesh. */
  class Mesh {
    var verts: array<Vec3>

    constructor ()
      ensures verts.Length == 0
    {
      verts := new Vec3[0];
    }

    /** `mesh.vertices.add(n)`: n vertices at the origin after the existing ones. */
    method AddVertices(n: nat)
      modifies this
      ensures fresh(verts) && verts.Length == old(verts.Length) + n
      ensures verts[..old(verts.Length)] == old(verts[..])
      ensures forall i :: old(verts.Length) <= i < verts.Length ==> verts[i] == Vec3(0.0, 0.0, 0.0)
    {
      var v := verts;
      var a := new Vec3[v.Length + n](_ => Vec3(0.0, 0.0, 0.0));
      var i := 0;
      while i < v.Length
        invariant 0 <= i <= v.Length
        invariant a[..i] == v[..i]
        invariant forall j :: v.Length <= j < a.Length ==> a[j] == Vec3(0.0, 0.0, 0.0)
        modifies a
      {
        a[i] := v[i];
        i := i + 1;
      }
      assert a[..v.Length] == v[..];
      verts := a;
    }

    /** `_removeVertices(count)`: deselect everything, select the last `count` vertices
        walking backwards, then delete the selection, which keeps the others in order. */
    method RemoveVertices(count: nat)
      requires count <= verts.Length
      modifies this
      ensures fresh(verts)
      ensures verts[..] == old(verts[..verts.Length - count])
    {
      var v := verts;
      var n := v.Length;
      var selected := new bool[n](_ => false);
      var i := n;
      while i > n - count
        invariant n - count <= i <= n
        invariant forall j :: 0 <= j < n ==> selected[j] == (i <= j)
        modifies selected
      {
        i := i - 1;
        selected[i] := true;
      }
      var kept: seq<Vec3> := [];
      var j := 0;
      while j < n
        invariant 0 <= j <= n
        invariant kept == v[..if j < n - count then j else n - count]
      {
        if !selected[j] {
          kept := kept + [v[j]];
        }
        j := j + 1;
      }
      verts := new Vec3[|kept|](k requires 0 <= k < |kept| => kept[k]);
      assert verts[..] == kept;
    }
  }

  /** An object with the point cloud loader enabled: its settings, the mesh of its point
      cloud container, and `currentFrameLoaded`. */
  class PointCloudObject {
    const config: LoaderConfig
    const mesh: Mesh
    var currentFrameLoaded: string

    constructor (config: LoaderConfig)
      ensures this.config == config && currentFrameLoaded == "" && fresh(mesh) && mesh.verts.Length == 0
    {
      this.config := config;
      mesh := new Mesh();
      currentFrameLoaded := "";
    }

    /** The path `loadFrame` picks for a scene frame, with a fresh file manager. */
    ghost function PathFor(frame: int, env: Env): Option<string>
    {
      if config.pointCloudFrame != -1 then PathForPointCloudFrame(Some(config.pointCloudFrame), env)
      else
        var total := if config.numFiles > 0 then config.numFiles else FirstGap(env.existing);
        PathForPointCloudFrame(FrameFor(frame, config.frameRatio, total), env)
    }

    /** `ObjectPointObjectLoader.loadFrame()`: nothing happens without a frame file, or when
        not forced and that file is the one loaded last; a frame file that cannot be opened
        raises FileNotFoundError before the mesh is touched; otherwise the mesh becomes
        exactly the file's points and the file is remembered. */
    method LoadFrame(frame: int, force: bool, env: Env) returns (err: Option<PyError>)
      modifies this, mesh
      ensures var path := PathFor(frame, env);
        if path.None? || (!force && old(currentFrameLoaded) == path.value) then
          err == None && currentFrameLoaded == old(currentFrameLoaded) && mesh.verts == old(mesh.verts)
        else if env.read(path.value).None? then
          err == Some(FileNotFound) && currentFrameLoaded == old(currentFrameLoaded) && mesh.verts == old(mesh.verts)
        else
          err == None && currentFrameLoaded == path.value &&
          mesh.verts[..] == Scan(env.read(path.value).value, 0, env.parse, OptionsOf(config)).points
    {
      var files := new ObjectFileManager(config);
      var path := files.FrameFilePath(frame, env);
      if path.None? {
        return None;
      }
      if force != true && currentFrameLoaded == path.value {
        return None;
      }
      var file := new FrameFile(path.value, OptionsOf(config));
      var points;
      points, err := file.GetPoints(env.read(path.value), env.parse);
      if err.Some? {
        return;
      }
      CreatePoints(points);
      currentFrameLoaded := path.value;
    }

    /** `createPoints()`: add the missing vertices or remove the surplus, then set vertex i
        to point i. */
    method CreatePoints(points: seq<Vec3>)
      modifies mesh
      ensures mesh.verts[..] == points
    {
      var existing := mesh.verts.Length;
      if existing < |points| {
        mesh.AddVertices(|points| - existing);
      } else {
        mesh.RemoveVertices(existing - |points|);
      }
      var idx := 0;
      while idx < |points|
        invariant 0 <= idx <= |points| == mesh.verts.Length
        invariant mesh.verts[..idx] == points[..idx]
        modifies mesh.verts
      {
        mesh.verts[idx] := points[idx];
        idx := idx + 1;
      }
    }
  }
}
