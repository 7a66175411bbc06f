/** The decisions `ServeHTTP` makes on the way from a request to the code that
    answers it, and what it records about the collaborators it calls. */
module Dispatch {
  import Strs
  import Paths
  import opened Routes
  import opened Response
  import Pipeline
  import Mapping

  /** The path the trees are searched with: lower-cased unless routing is
      case sensitive. */
  function UrlPath(cfg: Config, req: Request): (p: string)
    ensures cfg.caseSensitive ==> p == req.path
    ensures !cfg.caseSensitive ==> p == Strs.ToLower(req.path)
  {
    if cfg.caseSensitive then req.path else Strs.ToLower(req.path)
  }

  /** The verb whose tree the lookup searches: a POST whose `_method` query
      value is PUT or DELETE is looked up as that verb. */
  function LookupVerb(req: Request): (v: string)
    ensures req.verb != "POST" ==> v == req.verb
    ensures req.verb == "POST" && Query(req, "_method") in {"PUT", "DELETE"} ==> v == Query(req, "_method")
    ensures req.verb == "POST" && Query(req, "_method") !in {"PUT", "DELETE"} ==> v == "POST"
  {
    var v := req.verb;
    var v := if v == "POST" && Query(req, "_method") == "PUT" then "PUT" else v;
    if v == "POST" && Query(req, "_method") == "DELETE" then "DELETE" else v
  }

  /** The override never leaves the supported verbs, and changes nothing but a POST. */
  lemma LookupVerbSupported(req: Request)
    ensures req.verb in HttpMethods ==> LookupVerb(req) in HttpMethods
    ensures LookupVerb(req) != req.verb ==> req.verb == "POST" && LookupVerb(req) in {"PUT", "DELETE"}
  {
  }

  /** The controller method a struct route runs for a verb: the verb's own
      entry, else the "*" entry, else the verb itself. */
  function RunMethodFor(methods: map<string, string>, verb: string): (m: string)
    ensures verb in methods ==> m == methods[verb]
    ensures verb !in methods && "*" in methods ==> m == methods["*"]
    ensures verb !in methods && "*" !in methods ==> m == verb
  {
    if verb in methods then methods[verb] else if "*" in methods then methods["*"] else verb
  }

  /** For a methods map `Add` accepted, the method run is one the controller
      has, unless the map names neither the verb nor "*"; then it is the verb. */
  lemma RunMethodIsMapped(methods: map<string, string>, ctrl: ControllerType, verb: string)
    requires Mapping.ValidMethods(methods, ctrl)
    ensures RunMethodFor(methods, verb) in ctrl.methods || (verb !in methods && "*" !in methods)
  {
  }

  /** The keys "0", "1", ... mapped to the pieces of a split splat value. */
  function SplatMap(pieces: seq<string>): (m: map<string, string>)
    ensures forall k :: 0 <= k < |pieces| ==> Strs.Itoa(k) in m
  {
    forall j, k | 0 <= j < k < |pieces| ensures Strs.Itoa(j) != Strs.Itoa(k) {
      Strs.ItoaInjective(j, k);
    }
    map k | 0 <= k < |pieces| :: Strs.Itoa(k) := pieces[k]
  }

  /** Each index's key holds the piece at that index. */
  lemma {:induction false} SplatMapAt(pieces: seq<string>, k: nat)
    requires k < |pieces|
    ensures SplatMap(pieces)[Strs.Itoa(k)] == pieces[k]
  {
    var m := SplatMap(pieces);
    var j :| 0 <= j < |pieces| && Strs.Itoa(j) == Strs.Itoa(k) && m[Strs.Itoa(k)] == pieces[j];
    if j != k {
      Strs.ItoaInjective(j, k);
    }
  }

  /** Only index keys are added. */
  lemma SplatMapKeys(pieces: seq<string>, key: string)
    requires key in SplatMap(pieces)
    ensures exists k :: 0 <= k < |pieces| && key == Strs.Itoa(k)
  {
  }

  /** The params after the `:splat` loop. */
  function Exploded(p: map<string, string>): map<string, string>
  {
    if ":splat" in p then p + SplatMap(Strs.Split(p[":splat"], '/')) else p
  }

  /** The `:splat` loop of the lookup: with a `:splat` param, every piece of
      its value split on "/" is stored under its index, written in decimal;
      every other key keeps its value. */
  method ExplodeSplat(p: map<string, string>) returns (q: map<string, string>)
    ensures ":splat" !in p ==> q == p
    ensures ":splat" in p ==> q == p + SplatMap(Strs.Split(p[":splat"], '/'))
  {
    q := p;
    if ":splat" in p {
      var splatlist := Strs.Split(p[":splat"], '/');
      var k := 0;
      while k < |splatlist|
        invariant 0 <= k <= |splatlist|
        invariant q == p + SplatMap(splatlist[..k])
      {
        q := q[Strs.Itoa(k) := splatlist[k]];
        SplatStep(splatlist, k);
        MergeUpdate(p, SplatMap(splatlist[..k]), Strs.Itoa(k), splatlist[k]);
        k := k + 1;
      }
      assert splatlist[..k] == splatlist;
    }
  }

  lemma MergeUpdate(p: map<string, string>, m: map<string, string>, key: string, v: string)
    ensures p + m[key := v] == (p + m)[key := v]
  {
  }

  lemma SplatStep(pieces: seq<string>, k: nat)
    requires k < |pieces|
    ensures SplatMap(pieces[..k + 1]) == SplatMap(pieces[..k])[Strs.Itoa(k) := pieces[k]]
  {
    var a := SplatMap(pieces[..k + 1]);
    var b := SplatMap(pieces[..k])[Strs.Itoa(k) := pieces[k]];
    forall key | key in a ensures key in b && a[key] == b[key] {
      SplatMapKeys(pieces[..k + 1], key);
      var j :| 0 <= j < k + 1 && key == Strs.Itoa(j);
      SplatMapAt(pieces[..k + 1], j);
      if j < k {
        SplatMapAt(pieces[..k], j);
        Strs.ItoaInjective(j, k);
      }
    }
    forall key | key in b ensures key in a {
      if key != Strs.Itoa(k) {
        SplatMapKeys(pieces[..k], key);
      }
    }
  }

  /** After the splat loop, index `k` holds the `k`-th piece, and a key that
      is no index of a piece keeps its value. */
  lemma ExplodedSplat(p: map<string, string>, q: map<string, string>, k: nat, key: string)
    requires ":splat" in p && q == p + SplatMap(Strs.Split(p[":splat"], '/'))
    ensures k < |Strs.Split(p[":splat"], '/')| ==> q[Strs.Itoa(k)] == Strs.Split(p[":splat"], '/')[k]
    ensures (forall j :: 0 <= j < |Strs.Split(p[":splat"], '/')| ==> key != Strs.Itoa(j)) ==>
              (key in q <==> key in p) && (key in p ==> q[key] == p[key])
  {
    var pieces := Strs.Split(p[":splat"], '/');
    if k < |pieces| {
      SplatMapAt(pieces, k);
    }
    if key in SplatMap(pieces) {
      SplatMapKeys(pieces, key);
    }
  }

  /** The XSRF cookie check condition as written. */
  function XsrfCheckRequired(req: Request): bool
  {
    req.verb == "POST" || req.verb == "DELETE" || req.verb == "PUT" ||
    (req.verb == "POST" && (Query(req, "_method") == "DELETE" || Query(req, "_method") == "PUT"))
  }

  /** The check depends on the real verb alone: the override clause adds nothing. */
  lemma XsrfCheckVerbs(req: Request)
    ensures XsrfCheckRequired(req) <==> req.verb in {"POST", "DELETE", "PUT"}
  {
  }

  /** The access-log filter's condition on a cleaned path: the two well-known
      files, or any path under a static directory prefix. */
  predicate SkipsLog(requestPath: string, staticDirs: set<string>)
  {
    requestPath == "/favicon.ico" || requestPath == "/robots.txt" ||
    exists prefix | prefix in staticDirs :: Strs.HasPrefix(requestPath, prefix)
  }

  /** `logFilter.Filter`: skips logging for the cleaned request path when it
      names one of the two well-known files or lies under a static prefix. */
  method LogFilter(urlPath: string, staticDirs: set<string>) returns (skip: bool)
    ensures skip <==> SkipsLog(Paths.Clean(urlPath), staticDirs)
  {
    var requestPath := Paths.Clean(urlPath);
    if requestPath == "/favicon.ico" || requestPath == "/robots.txt" {
      return true;
    }
    var rest := staticDirs;
    while rest != {}
      invariant rest <= staticDirs
      invariant forall prefix | prefix in staticDirs - rest :: !Strs.HasPrefix(requestPath, prefix)
      decreases rest
    {
      var prefix :| prefix in rest;
      if Strs.HasPrefix(requestPath, prefix) {
        return true;
      }
      rest := rest - {prefix};
    }
    return false;
  }

  /** The ways `recoverPanic` ends. */
  datatype Recovery =
    | Swallowed
    | Repanicked(value: PanicValue)
    | ErrorPage(errorCode: string)
    | Crashed(showErr: bool)

  /** The printed form of a panic value; the abort sentinel prints its message. */
  function PanicText(pv: PanicValue): string
  {
    match pv
    case Abort => "User stop run"
    case PanicWith(text) => text
  }

  /** `recoverPanic`: the abort sentinel is swallowed; without recovery the
      panic goes on; a registered error code shows its error page when error
      pages are on; anything else is logged, with the error shown in
      development mode. */
  function Recover(pv: PanicValue, cfg: Config): (r: Recovery)
    ensures r == Swallowed <==> pv == Abort
    ensures r.Repanicked? <==> pv != Abort && !cfg.recoverPanic
    ensures r.Repanicked? ==> r.value == pv
    ensures r.ErrorPage? <==>
              pv != Abort && cfg.recoverPanic && cfg.enableErrorsShow && PanicText(pv) in cfg.errorCodes
    ensures r.ErrorPage? ==> r.errorCode == PanicText(pv) && r.errorCode in cfg.errorCodes
    ensures r.Crashed? ==> r.showErr == cfg.devMode
  {
    if pv == Abort then Swallowed
    else if !cfg.recoverPanic then Repanicked(pv)
    else if cfg.enableErrorsShow && PanicText(pv) in cfg.errorCodes then ErrorPage(PanicText(pv))
    else Crashed(cfg.devMode)
  }

  /** The stages of a struct controller's lifecycle the router calls. */
  datatype Step =
    | Init(controller: string, action: string)
    | Prepare
    | XsrfToken
    | CheckXsrfCookie
    | UrlMapping
    | Action(name: string)
    | Render
    | Finish

  /** What the lookup gets back from a tree: the route and its params, nil or a map. */
  datatype RouteMatch = RouteMatch(route: ControllerInfo, params: Option<map<string, string>>)

  /** Everything `ServeHTTP` calls but cannot see into. */
  datatype Env = Env(
    filters: Pipeline.FilterEnv,
    matchTree: (Tree, string) -> Option<RouteMatch>,
    serveStatic: Request -> Effect,
    sessionFails: bool,
    upload: bool,
    runFunction: nat -> Effect,
    handler: nat -> Effect,
    step: Step -> Effect,
    monitor: bool)

  /** What `ServeHTTP` does that leaves no trace in the writer or the context:
      the collaborators it calls and the records it makes. */
  datatype Event =
    | HttpError(status: int)
    | ServeStatic
    | SessionStart
    | SessionRelease
    | ReadBody(copy: bool)
    | Lookup(verb: string)
    | Exception(code: string)
    | RunFunction(f: nat)
    | ServeHandler(h: nat)
    | Controller(step: Step)
    | Statistics(controller: string)
    | AccessLog(matched: bool, pattern: Option<string>)
    | Recovered(recovery: Recovery)

  /** Where `ServeHTTP` goes after a phase: on to the next phase, to the
      closing statistics and log (the `Admin` label), or out at once. */
  datatype Next = Proceed | ToAdmin | Stop

  /** The records the phase before routing makes. */
  predicate Prelude(e: Event)
  {
    e.HttpError? || e == ServeStatic || e == SessionStart || e.ReadBody? || e == Exception("503")
  }

  /** The records the routing phase makes: the lookup, the 404, and what
      running the route records. */
  predicate Routing(e: Event)
  {
    e.Lookup? || e == Exception("404") || Executed(e)
  }

  /** The records the closing phase makes. */
  predicate Closing(e: Event)
  {
    e.Statistics? || e.AccessLog? || e == SessionRelease || e.Recovered?
  }

  /** The three phases' records do not mix: a routing record in the whole
      record of a request comes from the routing phase. */
  lemma PhasesApart(pre: seq<Event>, mid: seq<Event>, post: seq<Event>)
    requires forall i | 0 <= i < |pre| :: Prelude(pre[i])
    requires forall i | 0 <= i < |mid| :: Routing(mid[i])
    requires forall i | 0 <= i < |post| :: Closing(post[i])
    ensures forall e | e in pre + mid + post && !Prelude(e) && !Closing(e) :: e in mid
    ensures forall e | e in pre + mid + post && (e.Lookup? || e.RunFunction? || e.ServeHandler? || e.Controller?) :: e in mid
  {
  }

  /** The records of a struct controller's lifecycle: the stages it ran, in
      order, starting with `init`, which runs once; the XSRF check is among
      them only when `xsrfChecked` allows it. */
  predicate LifecycleRun(es: seq<Event>, init: Step, xsrfChecked: bool)
  {
    && |es| > 0 && es[0] == Controller(init)
    && forall i | 0 <= i < |es| ::
         && es[i].Controller?
         && (i > 0 ==> !es[i].step.Init?)
         && (es[i].step == CheckXsrfCookie ==> xsrfChecked)
  }

  /** One more stage keeps a lifecycle record one. */
  lemma LifecycleSnoc(es: seq<Event>, init: Step, xsrfChecked: bool, s: Step)
    requires LifecycleRun(es, init, xsrfChecked)
    requires !s.Init? && (s == CheckXsrfCookie ==> xsrfChecked)
    ensures LifecycleRun(es + [Controller(s)], init, xsrfChecked)
  {
  }

  /** The records the phase after routing makes. */
  predicate Executed(e: Event)
  {
    e == Exception("405") || e.RunFunction? || e.ServeHandler? || e.Controller?
  }

  /** Every run record is justified by the route it ran: the 405 and the
      function by a RESTful route and the request's verb, the handler by a
      handler route, a controller's init by a struct route and the method
      the lookup verb maps to, and the XSRF check by its condition. */
  ghost predicate RunJustified(events: seq<Event>, cfg: Config, req: Request, routerInfo: Option<ControllerInfo>)
  {
    && (Exception("405") in events ==>
          routerInfo.Some? && routerInfo.value.routerType == RESTFul && req.verb !in routerInfo.value.methods)
    && (forall f :: RunFunction(f) in events ==>
          routerInfo.Some? && routerInfo.value.routerType == RESTFul && req.verb in routerInfo.value.methods
          && f == routerInfo.value.runFunction)
    && (forall h :: ServeHandler(h) in events ==>
          routerInfo.Some? && routerInfo.value.routerType == HandlerRoute && h == routerInfo.value.handler)
    && (forall c, a :: Controller(Init(c, a)) in events && routerInfo.Some? ==>
          routerInfo.value.routerType == Beego && a == RunMethodFor(routerInfo.value.methods, LookupVerb(req)))
    && (Controller(CheckXsrfCookie) in events ==> cfg.enableXSRF && XsrfCheckRequired(req))
  }

  /** The result of a lookup in the tree of a verb, if it has one. */
  function FindRoute(routers: map<string, Tree>, verb: string, urlPath: string, env: Env): Option<RouteMatch>
  {
    if verb in routers then env.matchTree(routers[verb], urlPath) else None
  }

  /** The access-log record of a request. */
  function AccessLogRecord(cfg: Config, req: Request, findrouter: bool, routerInfo: Option<ControllerInfo>): seq<Event>
  {
    if !(cfg.devMode || cfg.accessLogs) then []
    else if cfg.accessLogFilterSet && SkipsLog(Paths.Clean(req.path), cfg.staticDirs) then []
    else [AccessLog(findrouter, if findrouter && routerInfo.Some? then Some(routerInfo.value.pattern) else None)]
  }

  /** The access-log record: written in development mode or with access logs
      on, unless the log filter is installed and skips the path. */
  method AccessLogEvents(cfg: Config, req: Request, findrouter: bool, routerInfo: Option<ControllerInfo>)
    returns (events: seq<Event>)
    ensures !(cfg.devMode || cfg.accessLogs) ==> events == []
    ensures (cfg.devMode || cfg.accessLogs) && !cfg.accessLogFilterSet ==>
              events == [AccessLog(findrouter, if findrouter && routerInfo.Some? then Some(routerInfo.value.pattern) else None)]
    ensures (cfg.devMode || cfg.accessLogs) && cfg.accessLogFilterSet ==>
              events == (if SkipsLog(Paths.Clean(req.path), cfg.staticDirs) then []
                         else [AccessLog(findrouter, if findrouter && routerInfo.Some? then Some(routerInfo.value.pattern) else None)])
    ensures events == AccessLogRecord(cfg, req, findrouter, routerInfo)
  {
    events := [];
    if cfg.devMode || cfg.accessLogs {
      var pattern := if findrouter && routerInfo.Some? then Some(routerInfo.value.pattern) else None;
      var skip := false;
      if cfg.accessLogFilterSet {
        skip := LogFilter(req.path, cfg.staticDirs);
      }
      if !skip {
        events := [AccessLog(findrouter, pattern)];
      }
    }
  }
}
