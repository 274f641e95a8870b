/** The game's small HTTP server: a request first goes to the registered pattern handlers
    in order, then to the request event, then to the file in the public folder, then to
    the file-not-found event, and finally to the standard file handler, which answers by
    itself (a 404, a directory listing or a redirect); whoever marks the request handled
    ends the dispatch. Regular expressions, the listeners' effects, the
    file system and the standard handler's own path mapping are inputs. */
module WebServer {
  import Strings
  import Lists

  /** A registered `(pattern, handler)` pair; the handler is named by an id. */
  datatype Handler = Handler(pattern: string, id: nat)

  /** What the server's host decides. */
  datatype Host = Host(
    findall: (string, string) -> seq<seq<string>>,  // `re.compile(pattern).findall(path)`, groups per match
    handlerMarks: (nat, seq<string>) -> bool,       // handler `id` marks the request handled when called with these groups
    requestMarks: string -> bool,                    // a request-event listener marks the request for this path handled
    notFoundMarks: string -> bool,                   // a file-not-found listener marks it handled
    isFile: string -> bool,                          // `os.path.isfile`
    standardPath: string -> string)                  // `SimpleHTTPRequestHandler.translate_path`

  /** One observable step of `do_GET`. */
  datatype Step =
    | Called(index: nat, groups: seq<string>)  // pattern handler at this position called with the match's groups
    | RequestEvent
    | Served(file: string)                      // the standard handler serves an existing file
    | NotFoundEvent
    | Fallback                                  // the standard file handler answers

  datatype Dispatch = Dispatch(steps: seq<Step>, handled: bool, done: bool)

  /** The pattern phase of `do_GET` over a prefix of the handler list, starting with the
      handled flag h0: a handler runs only when its pattern has exactly one match, and the
      phase is done as soon as the flag is set after a handler call. */
  function PatternPhase(hs: seq<Handler>, path: string, host: Host, h0: bool): (r: Dispatch)
    ensures r.done ==> r.handled && |r.steps| > 0
    ensures !r.done ==> r.handled == h0
    decreases |hs|
  {
    if |hs| == 0 then Dispatch([], h0, false)
    else
      var p := PatternPhase(hs[..|hs| - 1], path, host, h0);
      var m := host.findall(hs[|hs| - 1].pattern, path);
      if p.done || |m| != 1 then p
      else
        var h := p.handled || host.handlerMarks(hs[|hs| - 1].id, m[0]);
        Dispatch(p.steps + [Called(|hs| - 1, m[0])], h, h)
  }

  /** Once the pattern phase is done, later handlers are never tried. */
  lemma {:induction false} DoneStaysDone(hs: seq<Handler>, k: nat, path: string, host: Host, h0: bool)
    requires k <= |hs|
    requires PatternPhase(hs[..k], path, host, h0).done
    ensures PatternPhase(hs, path, host, h0) == PatternPhase(hs[..k], path, host, h0)
    decreases |hs| - k
  {
    if k < |hs| {
      assert hs[..|hs| - 1][..k] == hs[..k];
      DoneStaysDone(hs[..|hs| - 1], k, path, host, h0);
    } else {
      assert hs[..k] == hs;
    }
  }

  /** `translate_path`'s first step: drop one leading '/'. */
  function Relative(path: string): (r: string)
    ensures Strings.StartsWith(path, "/") ==> "/" + r == path
    ensures !Strings.StartsWith(path, "/") ==> r == path
  {
    if Strings.StartsWith(path, "/") then path[1..] else path
  }

  /** `os.path.join(a, b)`: an absolute b replaces a. */
  function PathJoin(a: string, b: string): string
  {
    if Strings.StartsWith(b, "/") then b
    else if a == [] || a[|a| - 1] == '/' then a + b
    else a + "/" + b
  }

  /** A path with at most one leading '/' is joined under the public folder. */
  lemma JoinedUnderFolder(root: string, path: string)
    requires !Strings.StartsWith(path, "//")
    ensures Strings.StartsWith(PathJoin(root, Relative(path)), root)
  {
    var r := Relative(path);
    assert PathJoin(root, r)[..|root|] == root;
  }

  /** A path with two leading slashes stays absolute after one is dropped, so the join
      discards the public folder. */
  lemma DoubleSlashDropsFolder(root: string, rest: string)
    ensures PathJoin(root, Relative("//" + rest)) == "/" + rest
  {
    assert Relative("//" + rest) == "/" + rest;
  }

  /** `translate_path(path)` as written: one '/' dropped, joined to the public folder, then
      the standard handler's mapping. */
  function TranslatePath(root: string, path: string, host: Host): string
  {
    host.standardPath(PathJoin(root, Relative(path)))
  }

  /** What `do_GET` does for a path with the handler list hs, from handled flag h0. */
  function Get(root: string, hs: seq<Handler>, path: string, host: Host, h0: bool): (r: Dispatch)
  {
    var p := PatternPhase(hs, path, host, h0);
    if p.done then p
    else
      var afterRequest := p.steps + [RequestEvent];
      if p.handled || host.requestMarks(path) then Dispatch(afterRequest, true, true)
      else
        var file := TranslatePath(root, path, host);
        if host.isFile(file) then Dispatch(afterRequest + [Served(file)], false, true)
        else
          var afterNotFound := afterRequest + [NotFoundEvent];
          if host.notFoundMarks(path) then Dispatch(afterNotFound, true, true)
          else Dispatch(afterNotFound + [Fallback], false, true)
  }

  /** Every step is a call of a handler whose pattern matched exactly once, with that
      match's groups, at increasing positions of hs. */
  predicate CalledInOrder(steps: seq<Step>, hs: seq<Handler>, path: string, host: Host)
  {
    (forall j :: 0 <= j < |steps| ==> steps[j].Called? && steps[j].index < |hs|) &&
    (forall j :: 0 <= j < |steps| ==> host.findall(hs[steps[j].index].pattern, path) == [steps[j].groups]) &&
    (forall j :: 0 < j < |steps| ==> steps[j - 1].index < steps[j].index)
  }

  /** Handlers are called in registration order, each only with the single match of its
      pattern. */
  lemma {:induction false} HandlersCalledOnSingleMatch(hs: seq<Handler>, path: string, host: Host, h0: bool)
    ensures CalledInOrder(PatternPhase(hs, path, host, h0).steps, hs, path, host)
    decreases |hs|
  {
    if |hs| > 0 {
      var init := hs[..|hs| - 1];
      HandlersCalledOnSingleMatch(init, path, host, h0);
      var p := PatternPhase(init, path, host, h0);
      CalledInOrderWiden(p.steps, init, hs, path, host);
      var m := host.findall(hs[|hs| - 1].pattern, path);
      if !p.done && |m| == 1 {
        assert m == [m[0]];
        CalledInOrderSnoc(p.steps, hs, path, host, |hs| - 1, m[0]);
      }
    }
  }

  /** Calls recorded against a prefix of the handler list stay in order against the list. */
  lemma CalledInOrderWiden(steps: seq<Step>, init: seq<Handler>, hs: seq<Handler>, path: string, host: Host)
    requires |init| <= |hs| && init == hs[..|init|] && CalledInOrder(steps, init, path, host)
    ensures CalledInOrder(steps, hs, path, host)
  {
    assert forall j :: 0 <= j < |steps| ==> hs[steps[j].index] == init[steps[j].index];
  }

  /** A call of a later handler with the single match of its pattern keeps the order. */
  lemma CalledInOrderSnoc(steps: seq<Step>, hs: seq<Handler>, path: string, host: Host, i: nat, g: seq<string>)
    requires CalledInOrder(steps, hs, path, host) && i < |hs| && host.findall(hs[i].pattern, path) == [g]
    requires forall j :: 0 <= j < |steps| ==> steps[j].index < i
    ensures CalledInOrder(steps + [Called(i, g)], hs, path, host)
  {
  }

  /** The request event fires exactly when no pattern handler finished the request; a file
      is served exactly when, in addition, no listener handled it and the file exists; the
      standard file handler answers exactly when nobody handled it and there is no such
      file. */
  lemma Outcomes(root: string, hs: seq<Handler>, path: string, host: Host)
    ensures var p, r := PatternPhase(hs, path, host, false), Get(root, hs, path, host, false);
      var file := TranslatePath(root, path, host);
      (RequestEvent in r.steps <==> !p.done) &&
      (Served(file) in r.steps <==> !p.done && !host.requestMarks(path) && host.isFile(file)) &&
      (Fallback in r.steps <==> !p.done && !host.requestMarks(path) && !host.isFile(file) && !host.notFoundMarks(path)) &&
      (r.handled || Served(file) in r.steps || Fallback in r.steps)
  {
    HandlersCalledOnSingleMatch(hs, path, host, false);
    var p := PatternPhase(hs, path, host, false);
    assert RequestEvent !in p.steps && Fallback !in p.steps && Served(TranslatePath(root, path, host)) !in p.steps by {
      forall j | 0 <= j < |p.steps| ensures p.steps[j].Called? {}
    }
  }

  /** `CustomHandler`: one request's handler object. */
  class RequestHandler {
    const root: string
    const path: string
    /** The handler list as it was when the request came in. */
    const handlers: seq<Handler>
    var handled: bool
    /** Status codes sent with `send_response`. */
    var statuses: seq<int>
    var steps: seq<Step>

    /** A request starts unhandled. */
    constructor (root: string, path: string, handlers: seq<Handler>)
      ensures this.root == root && this.path == path && this.handlers == handlers
      ensures !handled && statuses == [] && steps == []
    {
      this.root := root;
      this.path := path;
      this.handlers := handlers;
      handled := false;
      statuses := [];
      steps := [];
    }

    function GetHandled(): (h: bool)
      reads this
      ensures h == handled
    {
      handled
    }

    method SetHandled(value: bool)
      modifies this`handled
      ensures handled == value
    {
      handled := value;
    }

    /** `respond_ok()`: status 200, headers ended, request handled. */
    method RespondOk()
      modifies this`statuses, this`handled
      ensures statuses == old(statuses) + [200] && handled
    {
      statuses := statuses + [200];
      SetHandled(true);
    }

    /** Calling the pattern handler at position i with the groups of its match. */
    method CallHandler(i: nat, groups: seq<string>, host: Host)
      requires i < |handlers|
      modifies this`steps, this`handled, this`statuses
      ensures steps == old(steps) + [Called(i, groups)]
      ensures handled == (old(handled) || host.handlerMarks(handlers[i].id, groups))
    {
      steps := steps + [Called(i, groups)];
      if host.handlerMarks(handlers[i].id, groups) {
        RespondOk();
      }
    }

    /** The pattern loop of `do_GET()`: call every handler whose pattern matches exactly
        once, in order, until one marks the request handled. */
    method TryPatterns(host: Host) returns (done: bool)
      modifies this`steps, this`handled, this`statuses
      ensures var p := PatternPhase(handlers, path, host, old(handled));
        done == p.done && steps == old(steps) + p.steps && handled == p.handled
    {
      ghost var steps0, h0 := steps, handled;
      var i := 0;
      while i < |handlers|
        invariant 0 <= i <= |handlers|
        invariant var p := PatternPhase(handlers[..i], path, host, h0);
          !p.done && steps == steps0 + p.steps && handled == p.handled
      {
        assert handlers[..i + 1][..i] == handlers[..i];
        var m := host.findall(handlers[i].pattern, path);
        if |m| == 1 {
          Lists.AppendAssoc(steps0, PatternPhase(handlers[..i], path, host, h0).steps, [Called(i, m[0])]);
          CallHandler(i, m[0], host);
          if GetHandled() {
            DoneStaysDone(handlers, i + 1, path, host, h0);
            return true;
          }
        }
        i := i + 1;
      }
      assert handlers[..i] == handlers;
      return false;
    }

    /** `do_GET()`. */
    method DoGet(host: Host)
      modifies this`steps, this`handled, this`statuses
      ensures var r := Get(root, handlers, path, host, old(handled));
        steps == old(steps) + r.steps && handled == r.handled
    {
      var done := TryPatterns(host);
      if done {
        return;
      }
      steps := steps + [RequestEvent];
      if host.requestMarks(path) {
        SetHandled(true);
      }
      if GetHandled() {
        return;
      }
      var file := TranslatePath(root, path, host);
      if host.isFile(file) {
        steps := steps + [Served(file)];
        return;
      }
      steps := steps + [NotFoundEvent];
      if host.notFoundMarks(path) {
        SetHandled(true);
      }
      if GetHandled() {
        return;
      }
      steps := steps + [Fallback];
    }
  }

  /** How `serve_forever` ended. */
  datatype ServeEnd = ServeOSError(errno: int) | ServeValueError | ServeReturned

  datatype LogEntry = Starting(port: int) | Error(errno: int) | Closing(port: int)

  /** `run`'s error classification: OSError 9 (the socket closed by `destroy`) and
      ValueError end the server silently; any other OSError is logged. */
  function EndLog(e: ServeEnd): (r: seq<LogEntry>)
    ensures r != [] <==> e.ServeOSError? && e.errno != 9
  {
    if e.ServeOSError? && e.errno != 9 then [Error(e.errno)] else []
  }

  /** `WebServer`: the handler list shared with every request and the server thread. */
  class Server {
    const folder: string
    const port: int
    var handlers: seq<Handler>
    /** The thread is alive. */
    var alive: bool
    /** `http_server` is set. */
    var serving: bool
    var log: seq<LogEntry>

    constructor (folder: string, port: int)
      ensures this.folder == folder && this.port == port
      ensures handlers == [] && !alive && !serving && log == []
    {
      this.folder := folder;
      this.port := port;
      handlers := [];
      alive := false;
      serving := false;
      log := [];
    }

    /** `add_handler(pattern, handler)`: appended at the end. */
    method AddHandler(pattern: string, id: nat)
      modifies this`handlers
      ensures handlers == old(handlers) + [Handler(pattern, id)]
    {
      handlers := handlers + [Handler(pattern, id)];
    }

    /** `clear_handlers()`: the shared list emptied in place, so later requests see none. */
    method ClearHandlers()
      modifies this`handlers
      ensures handlers == []
    {
      handlers := [];
    }

    /** A request arriving now gets the handler class built from the current list. */
    method NewRequest(path: string) returns (r: RequestHandler)
      ensures fresh(r) && r.handlers == handlers && r.root == folder && r.path == path
      ensures !r.handled && r.steps == []
    {
      r := new RequestHandler(folder, path, handlers);
    }

    /** `setup()`: start the thread, which logs and starts serving. */
    method Setup()
      modifies this`alive, this`serving, this`log
      ensures alive && serving && log == old(log) + [Starting(port)]
    {
      alive := true;
      log := log + [Starting(port)];
      serving := true;
    }

    /** `destroy()`: nothing when the thread is not alive; otherwise close the socket, which
        ends `serve_forever` with `end`, and wait for `run` to log and close. */
    method Destroy(end: ServeEnd)
      modifies this`alive, this`serving, this`log
      ensures !old(alive) ==> alive == old(alive) && serving == old(serving) && log == old(log)
      ensures old(alive) ==> !alive && !serving && log == old(log) + EndLog(end) + [Closing(port)]
    {
      if !alive {
        return;
      }
      log := log + EndLog(end) + [Closing(port)];
      serving := false;
      alive := false;
    }
  }
}
