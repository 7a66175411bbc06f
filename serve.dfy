/** `ServeHTTP` as a function of the state it starts from.  Each phase of the
    dispatch maps the register's tables, the request and the writer and
    context states to where the request goes next, the records it makes and
    the new states.  The methods of the register that run the phases are
    proved to compute these functions; the lemmas here say what the
    functions promise. */
module Serve {
  import Strs
  import opened Routes
  import opened Response
  import Pipeline
  import opened Dispatch

  /** The parts of the register that dispatch reads. */
  datatype Table = Table(config: Config, routers: map<string, Tree>, enableFilter: bool,
                         filters: map<int, seq<FilterRouter>>)

  /** `doFilter(pos)` against the register's filters. */
  function Filter(tb: Table, pos: int, urlPath: string, env: Env, w: WriterState, c: ContextState): Pipeline.FilterRun
  {
    Pipeline.DoFilterSpec(tb.enableFilter, tb.filters, pos, urlPath, env.filters, w, c)
  }

  /** A filter walk that ends without a halt and without a panic. */
  predicate Passes(r: Pipeline.FilterRun)
  {
    !r.stop && r.panic.None?
  }

  // ------------------------------------------------------------ before routing

  /** How the phase before routing ends. */
  datatype Begun = Begun(next: Next, events: seq<Event>, panic: Option<PanicValue>, sessionStarted: bool,
                         findrouter: bool, w: WriterState, c: ContextState)

  /** The writer after `http.Error(w, "Method Not Allowed", 405)`. */
  function Refused(w: WriterState): WriterState
  {
    w.(started := true, status := 405, headers := w.headers + [405], body := w.body + Bytes("Method Not Allowed\n"))
  }

  /** The body handling of a request that may carry one. */
  function BodyRecords(cfg: Config, req: Request, env: Env): seq<Event>
  {
    if req.verb != "GET" && req.verb != "HEAD" then [ReadBody(cfg.copyRequestBody && !env.upload)] else []
  }

  /** The phase before routing: the verb check, the before-static filters,
      the static server, the session start, the body and the before-router
      filters.  A halting walk goes to the closing phase, a panic stops the
      request, output from the static server counts as a found route, and a
      failed session start records the 503 and stops without the closing
      phase. */
  function Begin(tb: Table, req: Request, env: Env, urlPath: string, w: WriterState, c: ContextState): Begun
  {
    if req.verb !in HttpMethods then Begun(ToAdmin, [HttpError(405)], None, false, false, Refused(w), c)
    else
      var s := Filter(tb, BeforeStatic, urlPath, env, w, c);
      if s.panic.Some? then Begun(Stop, [], s.panic, false, false, s.w, s.c)
      else if s.stop then Begun(ToAdmin, [], None, false, false, s.w, s.c)
      else
        var e := env.serveStatic(req);
        var w1 := ApplyWriter(s.w, e);
        var c1 := ApplyContext(s.c, e);
        if e.panic.Some? then Begun(Stop, [ServeStatic], e.panic, false, false, w1, c1)
        else if w1.started then Begun(ToAdmin, [ServeStatic], None, false, true, w1, c1)
        else if tb.config.sessionOn && env.sessionFails then
          Begun(Stop, [ServeStatic, SessionStart, Exception("503")], None, false, false, w1, c1)
        else
          var events := [ServeStatic] + (if tb.config.sessionOn then [SessionStart] else []) + BodyRecords(tb.config, req, env);
          var r := Filter(tb, BeforeRouter, urlPath, env, w1, c1);
          Begun(if r.panic.Some? then Stop else if r.stop then ToAdmin else Proceed,
                events, r.panic, tb.config.sessionOn, false, r.w, r.c)
  }

  /** The ways the phase before routing ends, stated forward. */
  lemma BeginOutcomes(tb: Table, req: Request, env: Env, urlPath: string, w: WriterState, c: ContextState)
    ensures var b := Begin(tb, req, env, urlPath, w, c);
            && (forall i | 0 <= i < |b.events| :: Prelude(b.events[i]))
            && (b.next == Stop <==> b.panic.Some? || Exception("503") in b.events)
            && (b.findrouter ==> b.next == ToAdmin && b.w.started)
    ensures var b := Begin(tb, req, env, urlPath, w, c);
            req.verb !in HttpMethods ==>
              b.next == ToAdmin && b.events == [HttpError(405)] && b.w == Refused(w) && b.c == c
    ensures var b := Begin(tb, req, env, urlPath, w, c);
            var s := Filter(tb, BeforeStatic, urlPath, env, w, c);
            req.verb in HttpMethods && !Passes(s) ==>
              b.events == [] && b.panic == s.panic && b.next == (if s.panic.Some? then Stop else ToAdmin)
    ensures var b := Begin(tb, req, env, urlPath, w, c);
            var s := Filter(tb, BeforeStatic, urlPath, env, w, c);
            var e := env.serveStatic(req);
            req.verb in HttpMethods && Passes(s) && e.panic.None? && ApplyWriter(s.w, e).started ==>
              b.findrouter && b.next == ToAdmin && b.events == [ServeStatic]
    ensures var b := Begin(tb, req, env, urlPath, w, c);
            var s := Filter(tb, BeforeStatic, urlPath, env, w, c);
            var e := env.serveStatic(req);
            req.verb in HttpMethods && Passes(s) && e.panic.None? && !ApplyWriter(s.w, e).started
            && tb.config.sessionOn && env.sessionFails ==>
              b.next == Stop && b.panic == None && b.events == [ServeStatic, SessionStart, Exception("503")]
    ensures var b := Begin(tb, req, env, urlPath, w, c);
            var s := Filter(tb, BeforeStatic, urlPath, env, w, c);
            var e := env.serveStatic(req);
            var r := Filter(tb, BeforeRouter, urlPath, env, ApplyWriter(s.w, e), ApplyContext(s.c, e));
            req.verb in HttpMethods && Passes(s) && e.panic.None? && !ApplyWriter(s.w, e).started
            && !(tb.config.sessionOn && env.sessionFails) ==>
              && b.next == (if r.panic.Some? then Stop else if r.stop then ToAdmin else Proceed)
              && b.sessionStarted == tb.config.sessionOn
              && b.w == r.w && b.c == r.c
  {
  }

  // ------------------------------------------------------------------ lookup

  /** A controller and method a filter put into the context. */
  predicate Chosen(c: ContextState)
  {
    c.runController.Some? && c.runMethod != ""
  }

  /** How the route decision ends. */
  datatype Found = Found(findrouter: bool, runrouter: Option<ControllerType>, runMethod: string,
                         routerInfo: Option<ControllerInfo>, events: seq<Event>, c: ContextState)

  /** The route decision: a controller and method a filter chose win;
      otherwise the tree of the lookup verb is searched, and a match that
      returns a map replaces the context params with it, splat exploded. */
  function Find(tb: Table, req: Request, env: Env, urlPath: string, c: ContextState): Found
  {
    if Chosen(c) then Found(true, c.runController, c.runMethod, None, [], c)
    else
      var m := FindRoute(tb.routers, LookupVerb(req), urlPath, env);
      if m.None? then Found(false, None, "", None, [Lookup(LookupVerb(req))], c)
      else
        Found(true, None, "", Some(m.value.route), [Lookup(LookupVerb(req))],
              if m.value.params.Some? then c.(params := Exploded(m.value.params.value)) else c)
  }

  /** The route decision, stated forward: what is looked up, what is found,
      and which params the context holds afterwards. */
  lemma FindOutcomes(tb: Table, req: Request, env: Env, urlPath: string, c: ContextState)
    ensures var f := Find(tb, req, env, urlPath, c);
            Chosen(c) ==> f.findrouter && f.events == [] && f.routerInfo == None
                          && f.runrouter == c.runController && f.runMethod == c.runMethod && f.c == c
    ensures var f := Find(tb, req, env, urlPath, c);
            var m := FindRoute(tb.routers, LookupVerb(req), urlPath, env);
            !Chosen(c) ==>
              && f.events == [Lookup(LookupVerb(req))]
              && f.runrouter == None
              && (f.findrouter <==> m.Some?)
              && (m.Some? ==> f.routerInfo == Some(m.value.route))
              && (m.None? ==> f.routerInfo == None && f.c == c)
    ensures var f := Find(tb, req, env, urlPath, c);
            var m := FindRoute(tb.routers, LookupVerb(req), urlPath, env);
            && f.c.runController == c.runController && f.c.runMethod == c.runMethod
            && f.c.outputStatus == c.outputStatus
            && (!Chosen(c) && m.Some? && m.value.params.Some? ==> f.c.params == Exploded(m.value.params.value))
            && (Chosen(c) || m.None? || m.value.params.None? ==> f.c.params == c.params)
  {
  }

  /** A match's `:splat` pieces are readable under their indexes after the
      route decision, and its other params are kept. */
  lemma FindExplodesSplat(tb: Table, req: Request, env: Env, urlPath: string, c: ContextState, k: nat)
    requires !Chosen(c)
    requires FindRoute(tb.routers, LookupVerb(req), urlPath, env).Some?
    requires FindRoute(tb.routers, LookupVerb(req), urlPath, env).value.params.Some?
    ensures var p := FindRoute(tb.routers, LookupVerb(req), urlPath, env).value.params.value;
            var q := Find(tb, req, env, urlPath, c).c.params;
            && (":splat" in p && k < |Strs.Split(p[":splat"], '/')| ==>
                  q[Strs.Itoa(k)] == Strs.Split(p[":splat"], '/')[k])
            && (":splat" !in p ==> q == p)
  {
    var p := FindRoute(tb.routers, LookupVerb(req), urlPath, env).value.params.value;
    if ":splat" in p {
      ExplodedSplat(p, Exploded(p), k, "");
    }
  }

  // --------------------------------------------------------------- lifecycle

  /** The records, panic and states after some stages of a run. */
  datatype Staged = Staged(events: seq<Event>, panic: Option<PanicValue>, w: WriterState, c: ContextState)

  /** Runs one controller stage, unless an earlier one panicked. */
  function Stage(s: Step, env: Env, o: Staged): Staged
  {
    if o.panic.Some? then o
    else
      var e := env.step(s);
      Staged(o.events + [Controller(s)], e.panic, ApplyWriter(o.w, e), ApplyContext(o.c, e))
  }

  /** The stages up to the URL mapping: init, prepare, and with XSRF on the
      token and, for the verbs that need it, the cookie check. */
  function Preliminaries(cfg: Config, req: Request, ct: ControllerType, action: string, env: Env,
                         w: WriterState, c: ContextState): Staged
  {
    var o := Stage(Prepare, env, Stage(Init(ct.name, action), env, Staged([], None, w, c)));
    var o := if cfg.enableXSRF then
               var t := Stage(XsrfToken, env, o);
               if XsrfCheckRequired(req) then Stage(CheckXsrfCookie, env, t) else t
             else o;
    Stage(UrlMapping, env, o)
  }

  /** The action when nothing has been written yet, and the render when
      still nothing has been written, no status is set and auto-render is on. */
  function MainStages(cfg: Config, action: string, env: Env, o: Staged): Staged
  {
    if o.w.started then o
    else
      var a := Stage(Action(action), env, o);
      if !a.w.started && a.c.outputStatus == 0 && cfg.autoRender then Stage(Render, env, a) else a
  }

  /** The lifecycle of a struct controller; `Finish` closes it. */
  function Lifecycle(cfg: Config, req: Request, ct: ControllerType, action: string, env: Env,
                     w: WriterState, c: ContextState): Staged
  {
    Stage(Finish, env, MainStages(cfg, action, env, Preliminaries(cfg, req, ct, action, env, w, c)))
  }

  lemma StageRun(s: Step, env: Env, o: Staged, init: Step, xsrfChecked: bool)
    requires o.events == [] || LifecycleRun(o.events, init, xsrfChecked)
    requires o.events == [] ==> s == init
    requires o.events != [] ==> !s.Init?
    requires s == CheckXsrfCookie ==> xsrfChecked
    ensures LifecycleRun(Stage(s, env, o).events, init, xsrfChecked) || (o.events == [] && o.panic.Some?)
  {
    if o.panic.None? && o.events != [] {
      LifecycleSnoc(o.events, init, xsrfChecked, s);
    }
  }

  /** A lifecycle's records: init first and once, every record a stage, and
      the XSRF check only when XSRF is on and the verb needs it. */
  lemma {:induction false} LifecycleRecords(cfg: Config, req: Request, ct: ControllerType, action: string, env: Env,
                                            w: WriterState, c: ContextState)
    ensures LifecycleRun(Lifecycle(cfg, req, ct, action, env, w, c).events, Init(ct.name, action),
                         cfg.enableXSRF && XsrfCheckRequired(req))
  {
    var init := Init(ct.name, action);
    var x := cfg.enableXSRF && XsrfCheckRequired(req);
    var o0 := Staged([], None, w, c);
    var o1 := Stage(init, env, o0);
    assert o1.events == [Controller(init)];
    var o2 := Stage(Prepare, env, o1);
    StageRun(Prepare, env, o1, init, x);
    var o3 := if cfg.enableXSRF then
                var t := Stage(XsrfToken, env, o2);
                if XsrfCheckRequired(req) then Stage(CheckXsrfCookie, env, t) else t
              else o2;
    if cfg.enableXSRF {
      var t := Stage(XsrfToken, env, o2);
      StageRun(XsrfToken, env, o2, init, x);
      if XsrfCheckRequired(req) {
        StageRun(CheckXsrfCookie, env, t, init, x);
      }
    }
    var o4 := Stage(UrlMapping, env, o3);
    StageRun(UrlMapping, env, o3, init, x);
    assert o4 == Preliminaries(cfg, req, ct, action, env, w, c);
    var o5 := MainStages(cfg, action, env, o4);
    if !o4.w.started {
      var a := Stage(Action(action), env, o4);
      StageRun(Action(action), env, o4, init, x);
      if !a.w.started && a.c.outputStatus == 0 && cfg.autoRender {
        StageRun(Render, env, a, init, x);
      }
    }
    StageRun(Finish, env, o5, init, x);
  }

  /** A lifecycle in which no stage panics, stated forward: the stages run in
      order init, prepare, the XSRF token and check when they apply, the URL
      mapping, the action when nothing was written, the render when still
      nothing was written, no status is set and auto-render is on, and
      finish. */
  lemma LifecycleSequence(cfg: Config, req: Request, ct: ControllerType, action: string, env: Env,
                          w: WriterState, c: ContextState)
    requires forall s :: env.step(s).panic.None?
    ensures var p := Preliminaries(cfg, req, ct, action, env, w, c);
            var a := Stage(Action(action), env, p);
            var l := Lifecycle(cfg, req, ct, action, env, w, c);
            && l.panic.None?
            && p.events ==
                 [Controller(Init(ct.name, action)), Controller(Prepare)]
                 + (if cfg.enableXSRF then [Controller(XsrfToken)] else [])
                 + (if cfg.enableXSRF && XsrfCheckRequired(req) then [Controller(CheckXsrfCookie)] else [])
                 + [Controller(UrlMapping)]
            && l.events ==
                 p.events
                 + (if !p.w.started then [Controller(Action(action))] else [])
                 + (if !p.w.started && !a.w.started && a.c.outputStatus == 0 && cfg.autoRender
                    then [Controller(Render)] else [])
                 + [Controller(Finish)]
  {
  }

  // ------------------------------------------------------------------- run

  /** The writer state after code that writes to the server's writer
      directly, bypassing the wrapper: output does not count as started. */
  function Raw(w: WriterState, e: Effect): WriterState
  {
    w.(headers := w.headers + (if e.writeHeader.Some? then [e.writeHeader.value] else []),
       body := w.body + (if e.write.Some? then e.write.value else []))
  }

  /** The controller type and method a struct route runs, or the ones a
      filter chose when there is no route. */
  function RunTarget(req: Request, routerInfo: Option<ControllerInfo>, runrouter: Option<ControllerType>,
                     runMethod: string): (Option<ControllerType>, string)
  {
    if routerInfo.Some? then (routerInfo.value.controllerType, RunMethodFor(routerInfo.value.methods, LookupVerb(req)))
    else (runrouter, runMethod)
  }

  /** Running what was found: a RESTful function, a handler on the server's
      writer, or a struct controller's lifecycle; without a controller type
      reflection panics.  Returns the controller type run as well. */
  function Run(cfg: Config, req: Request, env: Env, routerInfo: Option<ControllerInfo>,
               runrouter: Option<ControllerType>, runMethod: string, w: WriterState, c: ContextState): (Staged, Option<ControllerType>)
  {
    if routerInfo.Some? && routerInfo.value.routerType == RESTFul then
      var e := env.runFunction(routerInfo.value.runFunction);
      (Staged([RunFunction(routerInfo.value.runFunction)], e.panic, ApplyWriter(w, e), ApplyContext(c, e)), runrouter)
    else if routerInfo.Some? && routerInfo.value.routerType == HandlerRoute then
      var e := env.handler(routerInfo.value.handler);
      (Staged([ServeHandler(routerInfo.value.handler)], e.panic, Raw(w, e), c), runrouter)
    else
      var t := RunTarget(req, routerInfo, runrouter, runMethod);
      if t.0.None? then (Staged([], Some(PanicWith("reflect: New(nil)")), w, c), t.0)
      else (Lifecycle(cfg, req, t.0.value, t.1, env, w, c), t.0)
  }

  /** How the phase after a route was found ends. */
  datatype Ran = Ran(next: Next, events: seq<Event>, panic: Option<PanicValue>, runrouter: Option<ControllerType>,
                     w: WriterState, c: ContextState)

  /** The phase after a route was found: the before-exec filters, the 405 of
      a RESTful route without the request's verb, the run, and the after-exec
      and finish-router filters. */
  function Exec(tb: Table, req: Request, env: Env, urlPath: string, routerInfo: Option<ControllerInfo>,
                runrouter: Option<ControllerType>, runMethod: string, w: WriterState, c: ContextState): Ran
  {
    var b := Filter(tb, BeforeExec, urlPath, env, w, c);
    if b.panic.Some? then Ran(Stop, [], b.panic, runrouter, b.w, b.c)
    else if b.stop then Ran(ToAdmin, [], None, runrouter, b.w, b.c)
    else if routerInfo.Some? && routerInfo.value.routerType == RESTFul && req.verb !in routerInfo.value.methods then
      Ran(ToAdmin, [Exception("405")], None, runrouter, b.w, b.c)
    else
      var run := Run(tb.config, req, env, routerInfo, runrouter, runMethod, b.w, b.c);
      var o := run.0;
      if o.panic.Some? then Ran(Stop, o.events, o.panic, run.1, o.w, o.c)
      else
        var a := Filter(tb, AfterExec, urlPath, env, o.w, o.c);
        if a.panic.Some? then Ran(Stop, o.events, a.panic, run.1, a.w, a.c)
        else if a.stop then Ran(ToAdmin, o.events, None, run.1, a.w, a.c)
        else
          var f := Filter(tb, FinishRouter, urlPath, env, a.w, a.c);
          Ran(if f.panic.Some? then Stop else ToAdmin, o.events, f.panic, run.1, f.w, f.c)
  }

  /** The phase after a route was found, stated forward from the outcome
      `b` of the before-exec filters: nothing runs when they halt or panic; a
      RESTful route answers 405 without the request's verb and runs its
      function with it; a handler route runs its handler; a struct route, or
      the filters' choice without a route, starts the lifecycle of its
      controller with the method to run, and without a controller type
      reflection panics. */
  ghost predicate RunsFound(b: Pipeline.FilterRun, req: Request, routerInfo: Option<ControllerInfo>,
                            runrouter: Option<ControllerType>, runMethod: string, x: Ran)
  {
    var t := RunTarget(req, routerInfo, runrouter, runMethod);
    && (!Passes(b) ==> x.events == [] && x.panic == b.panic && x.next == (if b.panic.Some? then Stop else ToAdmin))
    && (Passes(b) && routerInfo.Some? && routerInfo.value.routerType == RESTFul ==>
          if req.verb in routerInfo.value.methods then x.events == [RunFunction(routerInfo.value.runFunction)]
          else x.events == [Exception("405")] && x.next == ToAdmin && x.panic == None)
    && (Passes(b) && routerInfo.Some? && routerInfo.value.routerType == HandlerRoute ==>
          x.events == [ServeHandler(routerInfo.value.handler)])
    && (Passes(b) && (routerInfo.None? || routerInfo.value.routerType == Beego) && t.0.Some? ==>
          |x.events| > 0 && x.events[0] == Controller(Init(t.0.value.name, t.1)) && x.runrouter == t.0)
    && (Passes(b) && (routerInfo.None? || routerInfo.value.routerType == Beego) && t.0.None? ==>
          x.events == [] && x.next == Stop && x.panic == Some(PanicWith("reflect: New(nil)")))
  }

  /** The phase after a route was found runs what was found. */
  lemma ExecOutcomes(tb: Table, req: Request, env: Env, urlPath: string, routerInfo: Option<ControllerInfo>,
                     runrouter: Option<ControllerType>, runMethod: string, w: WriterState, c: ContextState)
    ensures RunsFound(Filter(tb, BeforeExec, urlPath, env, w, c), req, routerInfo, runrouter, runMethod,
                      Exec(tb, req, env, urlPath, routerInfo, runrouter, runMethod, w, c))
  {
    var b := Filter(tb, BeforeExec, urlPath, env, w, c);
    RunStarts(tb.config, req, env, routerInfo, runrouter, runMethod, b.w, b.c);
  }

  /** What a run begins with: the function or handler of the route, the
      init of the controller it targets, or the panic of reflection without
      a controller type. */
  lemma RunStarts(cfg: Config, req: Request, env: Env, routerInfo: Option<ControllerInfo>,
                  runrouter: Option<ControllerType>, runMethod: string, w: WriterState, c: ContextState)
    ensures var r := Run(cfg, req, env, routerInfo, runrouter, runMethod, w, c);
            var t := RunTarget(req, routerInfo, runrouter, runMethod);
            && (routerInfo.Some? && routerInfo.value.routerType == RESTFul ==>
                  r.0.events == [RunFunction(routerInfo.value.runFunction)] && r.1 == runrouter)
            && (routerInfo.Some? && routerInfo.value.routerType == HandlerRoute ==>
                  r.0.events == [ServeHandler(routerInfo.value.handler)] && r.1 == runrouter)
            && ((routerInfo.None? || routerInfo.value.routerType == Beego) && t.0.Some? ==>
                  |r.0.events| > 0 && r.0.events[0] == Controller(Init(t.0.value.name, t.1)) && r.1 == t.0)
            && ((routerInfo.None? || routerInfo.value.routerType == Beego) && t.0.None? ==>
                  r.0.events == [] && r.0.panic == Some(PanicWith("reflect: New(nil)")) && r.1 == t.0)
  {
    var t := RunTarget(req, routerInfo, runrouter, runMethod);
    if (routerInfo.None? || routerInfo.value.routerType == Beego) && t.0.Some? {
      LifecycleRecords(cfg, req, t.0.value, t.1, env, w, c);
    }
  }

  /** The records of the phase after a route was found are the 405 when a
      RESTful route lacks the verb, none when the before-exec filters stop or
      panic, and otherwise the records of the run; it stops exactly on a panic. */
  lemma ExecRecords(tb: Table, req: Request, env: Env, urlPath: string,
                    routerInfo: Option<ControllerInfo>, runrouter: Option<ControllerType>,
                    runMethod: string, w: WriterState, c: ContextState)
    ensures var x := Exec(tb, req, env, urlPath, routerInfo, runrouter, runMethod, w, c);
            var b := Filter(tb, BeforeExec, urlPath, env, w, c);
            && (x.panic.Some? <==> x.next == Stop)
            && x.events == (if !Passes(b) then []
                            else if routerInfo.Some? && routerInfo.value.routerType == RESTFul
                                    && req.verb !in routerInfo.value.methods then [Exception("405")]
                            else Run(tb.config, req, env, routerInfo, runrouter, runMethod, b.w, b.c).0.events)
  {
  }

  /** Every record of the phase after a route was found is justified by the
      route it ran; only a panic stops. */
  lemma {:induction false} ExecJustified(tb: Table, req: Request, env: Env, urlPath: string,
                                         routerInfo: Option<ControllerInfo>, runrouter: Option<ControllerType>,
                                         runMethod: string, w: WriterState, c: ContextState)
    ensures var x := Exec(tb, req, env, urlPath, routerInfo, runrouter, runMethod, w, c);
            && (forall i | 0 <= i < |x.events| :: Executed(x.events[i]))
            && (x.panic.Some? <==> x.next == Stop)
            && RunJustified(x.events, tb.config, req, routerInfo)
  {
    ExecRecords(tb, req, env, urlPath, routerInfo, runrouter, runMethod, w, c);
    ExecLifecycle(tb, req, env, urlPath, routerInfo, runrouter, runMethod, w, c);
    var b := Filter(tb, BeforeExec, urlPath, env, w, c);
    var t := RunTarget(req, routerInfo, runrouter, runMethod);
    if Passes(b) && !(routerInfo.Some? && routerInfo.value.routerType in {RESTFul, HandlerRoute}) && t.0.Some? {
      LifecycleRecords(tb.config, req, t.0.value, t.1, env, b.w, b.c);
    }
  }

  /** A lifecycle run by the phase after a route was found belongs to a
      struct route and runs the method of the lookup verb, or the filters'
      choice when there is no route; the XSRF check follows its condition. */
  lemma {:induction false} ExecLifecycle(tb: Table, req: Request, env: Env, urlPath: string,
                                         routerInfo: Option<ControllerInfo>, runrouter: Option<ControllerType>,
                                         runMethod: string, w: WriterState, c: ContextState)
    ensures var x := Exec(tb, req, env, urlPath, routerInfo, runrouter, runMethod, w, c);
            && (forall i | 0 <= i < |x.events| && x.events[i].Controller? ::
                  (routerInfo.None? || routerInfo.value.routerType == Beego))
            && (forall n, a :: Controller(Init(n, a)) in x.events && routerInfo.Some? ==>
                  routerInfo.value.routerType == Beego && a == RunMethodFor(routerInfo.value.methods, LookupVerb(req)))
            && (forall n, a :: Controller(Init(n, a)) in x.events && routerInfo.None? ==> a == runMethod)
            && (Controller(CheckXsrfCookie) in x.events ==> tb.config.enableXSRF && XsrfCheckRequired(req))
  {
    ExecRecords(tb, req, env, urlPath, routerInfo, runrouter, runMethod, w, c);
    var b := Filter(tb, BeforeExec, urlPath, env, w, c);
    var t := RunTarget(req, routerInfo, runrouter, runMethod);
    if Passes(b) && !(routerInfo.Some? && routerInfo.value.routerType in {RESTFul, HandlerRoute}) && t.0.Some? {
      var l := Lifecycle(tb.config, req, t.0.value, t.1, env, b.w, b.c);
      LifecycleRecords(tb.config, req, t.0.value, t.1, env, b.w, b.c);
      forall n, a | Controller(Init(n, a)) in l.events
        ensures a == t.1
      {
        var i :| 0 <= i < |l.events| && l.events[i] == Controller(Init(n, a));
      }
    }
  }

  // ----------------------------------------------------------------- routing

  /** How the routing phase ends. */
  datatype Routed = Routed(next: Next, events: seq<Event>, panic: Option<PanicValue>, findrouter: bool,
                           routerInfo: Option<ControllerInfo>, runrouter: Option<ControllerType>,
                           w: WriterState, c: ContextState)

  /** The routing phase: the route decision, the 404 when there is no route,
      and otherwise the phase after a route was found. */
  function RouteSpec(tb: Table, req: Request, env: Env, urlPath: string, w: WriterState, c: ContextState): Routed
  {
    var f := Find(tb, req, env, urlPath, c);
    if !f.findrouter then Routed(ToAdmin, f.events + [Exception("404")], None, false, f.routerInfo, f.runrouter, w, f.c)
    else
      var x := Exec(tb, req, env, urlPath, f.routerInfo, f.runrouter, f.runMethod, w, f.c);
      Routed(x.next, f.events + x.events, x.panic, true, f.routerInfo, x.runrouter, x.w, x.c)
  }

  /** Records read back against the lookup `m` of the request's lookup
      verb: every lookup is of that verb, the 404 appears exactly when a
      lookup found nothing, the route reported is the one found, and every
      run record is justified by it. */
  ghost predicate RoutingJustified(events: seq<Event>, cfg: Config, req: Request, m: Option<RouteMatch>,
                                   routed: Option<ControllerInfo>)
  {
    && (forall i | 0 <= i < |events| && events[i].Lookup? :: events[i].verb == LookupVerb(req))
    && (Exception("404") in events ==> m.None?)
    && (Lookup(LookupVerb(req)) in events && m.None? ==> Exception("404") in events)
    && (routed.Some? ==> Lookup(LookupVerb(req)) in events && m.Some? && m.value.route == routed.value)
    && RunJustified(events, cfg, req, routed)
  }

  /** The routing phase's records are justified by the lookup and the route
      it reports; only a panic stops. */
  lemma {:induction false} RouteOutcomes(tb: Table, req: Request, env: Env, urlPath: string, w: WriterState, c: ContextState)
    ensures var r := RouteSpec(tb, req, env, urlPath, w, c);
            && (r.panic.Some? <==> r.next == Stop)
            && (forall i | 0 <= i < |r.events| :: Routing(r.events[i]))
            && RoutingJustified(r.events, tb.config, req, FindRoute(tb.routers, LookupVerb(req), urlPath, env), r.routerInfo)
  {
    var f := Find(tb, req, env, urlPath, c);
    var r := RouteSpec(tb, req, env, urlPath, w, c);
    var m := FindRoute(tb.routers, LookupVerb(req), urlPath, env);
    FindOutcomes(tb, req, env, urlPath, c);
    if !f.findrouter {
      assert r.events == [Lookup(LookupVerb(req)), Exception("404")];
    } else {
      var x := Exec(tb, req, env, urlPath, f.routerInfo, f.runrouter, f.runMethod, w, f.c);
      ExecJustified(tb, req, env, urlPath, f.routerInfo, f.runrouter, f.runMethod, w, f.c);
      assert r.events == f.events + x.events && r.routerInfo == f.routerInfo;
      LookupThenRun(f.events, x.events, tb.config, req, m, f.routerInfo);
    }
  }

  /** The lookup record, when there is one, followed by run records that a
      found route justifies. */
  lemma LookupThenRun(pre: seq<Event>, xs: seq<Event>, cfg: Config, req: Request, m: Option<RouteMatch>,
                      ri: Option<ControllerInfo>)
    requires pre == [] || (pre == [Lookup(LookupVerb(req))] && m.Some?)
    requires ri.Some? ==> pre != [] && m.Some? && m.value.route == ri.value
    requires forall i | 0 <= i < |xs| :: Executed(xs[i])
    requires RunJustified(xs, cfg, req, ri)
    ensures forall i | 0 <= i < |pre + xs| :: Routing((pre + xs)[i])
    ensures RoutingJustified(pre + xs, cfg, req, m, ri)
  {
    forall e | e in pre + xs && !e.Lookup?
      ensures e in xs
    {
      var i :| 0 <= i < |pre + xs| && (pre + xs)[i] == e;
      if i >= |pre| {
        assert xs[i - |pre|] == e;
      }
    }
    assert forall i | 0 <= i < |xs| :: xs[i] != Exception("404") && !xs[i].Lookup?;
    if pre != [] {
      assert (pre + xs)[0] == Lookup(LookupVerb(req));
    }
  }

  // ----------------------------------------------------------------- closing

  /** How the closing phase ends: its records, the panic that escapes and the
      status flushed to the server's writer (0 for none). */
  datatype Closed = Closed(events: seq<Event>, escaped: Option<PanicValue>, flushed: int)

  /** The closing phase: from the `Admin` label on, when the request got
      there, the statistics, the access log and the flush of a set status;
      then the session release and the recovery of a panic. */
  function Close(cfg: Config, req: Request, env: Env, toAdmin: bool, findrouter: bool,
                 routerInfo: Option<ControllerInfo>, runrouter: Option<ControllerType>,
                 outputStatus: int, sessionStarted: bool, panic: Option<PanicValue>): Closed
  {
    var admin :=
      if toAdmin then
        (if cfg.enableAdmin && env.monitor then [Statistics(if runrouter.Some? then runrouter.value.name else "")] else [])
        + AccessLogRecord(cfg, req, findrouter, routerInfo)
      else [];
    Closed(admin + (if sessionStarted then [SessionRelease] else [])
                 + (if panic.Some? then [Recovered(Recover(panic.value, cfg))] else []),
           if panic.Some? && Recover(panic.value, cfg).Repanicked? then panic else None,
           if toAdmin then outputStatus else 0)
  }

  // --------------------------------------------------------------- ServeHTTP

  /** What answering a request leaves: the records, the panic that escapes,
      and the status codes and body the server's writer holds. */
  datatype Served = Served(events: seq<Event>, escaped: Option<PanicValue>, headers: seq<int>, body: seq<byte>)

  /** The context of a new request. */
  const NewContext: ContextState := ContextState(map[], None, "", 0)

  /** The routing phase's outcome, or where the request stood when it did
      not get that far. */
  function RoutingPhase(tb: Table, req: Request, env: Env, b: Begun): Routed
  {
    if b.next == Proceed then RouteSpec(tb, req, env, UrlPath(tb.config, req), b.w, b.c)
    else Routed(b.next, [], b.panic, b.findrouter, None, None, b.w, b.c)
  }

  /** `ServeHTTP` on a server writer holding `headers` and `body`. */
  function Answer(tb: Table, req: Request, env: Env, headers: seq<int>, body: seq<byte>): Served
  {
    var b := Begin(tb, req, env, UrlPath(tb.config, req), WriterState(false, 0, headers, body), NewContext);
    var r := RoutingPhase(tb, req, env, b);
    var cl := Close(tb.config, req, env, r.next == ToAdmin, r.findrouter, r.routerInfo, r.runrouter,
                    r.c.outputStatus, b.sessionStarted, r.panic);
    Served(b.events + r.events + cl.events, cl.escaped,
           r.w.headers + (if cl.flushed != 0 then [cl.flushed] else []), r.w.body)
  }

  /** Every record of the closing phase is a closing one. */
  lemma CloseRecords(cfg: Config, req: Request, env: Env, toAdmin: bool, findrouter: bool,
                     routerInfo: Option<ControllerInfo>, runrouter: Option<ControllerType>,
                     outputStatus: int, sessionStarted: bool, panic: Option<PanicValue>)
    ensures var cl := Close(cfg, req, env, toAdmin, findrouter, routerInfo, runrouter, outputStatus, sessionStarted, panic);
            forall i | 0 <= i < |cl.events| :: Closing(cl.events[i])
  {
  }

  /** The records of a request fall into its three phases, in order. */
  lemma {:induction false} ServePhases(tb: Table, req: Request, env: Env, headers: seq<int>, body: seq<byte>)
    ensures var urlPath := UrlPath(tb.config, req);
            var b := Begin(tb, req, env, urlPath, WriterState(false, 0, headers, body), NewContext);
            var r := RoutingPhase(tb, req, env, b);
            var cl := Close(tb.config, req, env, r.next == ToAdmin, r.findrouter, r.routerInfo, r.runrouter,
                            r.c.outputStatus, b.sessionStarted, r.panic);
            && Answer(tb, req, env, headers, body).events == b.events + r.events + cl.events
            && (forall i | 0 <= i < |b.events| :: Prelude(b.events[i]))
            && (forall i | 0 <= i < |r.events| :: Routing(r.events[i]))
            && (forall i | 0 <= i < |cl.events| :: Closing(cl.events[i]))
            && (b.next != Proceed ==> r.events == [])
  {
    var urlPath := UrlPath(tb.config, req);
    var b := Begin(tb, req, env, urlPath, WriterState(false, 0, headers, body), NewContext);
    var r := RoutingPhase(tb, req, env, b);
    BeginOutcomes(tb, req, env, urlPath, WriterState(false, 0, headers, body), NewContext);
    CloseRecords(tb.config, req, env, r.next == ToAdmin, r.findrouter, r.routerInfo, r.runrouter,
                 r.c.outputStatus, b.sessionStarted, r.panic);
    if b.next == Proceed {
      RouteOutcomes(tb, req, env, urlPath, b.w, b.c);
    }
  }

  /** Records of the phases before and after routing leave the routing
      records' justification intact. */
  lemma PhasesKeepJustified(pre: seq<Event>, mid: seq<Event>, post: seq<Event>, cfg: Config, req: Request,
                            m: Option<RouteMatch>, routed: Option<ControllerInfo>)
    requires forall i | 0 <= i < |pre| :: Prelude(pre[i])
    requires forall i | 0 <= i < |mid| :: Routing(mid[i])
    requires forall i | 0 <= i < |post| :: Closing(post[i])
    requires RoutingJustified(mid, cfg, req, m, routed)
    ensures RoutingJustified(pre + mid + post, cfg, req, m, routed)
  {
    PhasesApart(pre, mid, post);
    forall i | 0 <= i < |pre + mid + post| && (pre + mid + post)[i].Lookup?
      ensures (pre + mid + post)[i].verb == LookupVerb(req)
    {
      assert (pre + mid + post)[i] in pre + mid + post;
    }
  }

  /** The records of a request, read back: justified by the lookup of the
      request's path in the lookup verb's tree and the route reported, and
      only a panic that recovery re-raises escapes. */
  ghost predicate AnswerJustified(tb: Table, req: Request, env: Env, events: seq<Event>, escaped: Option<PanicValue>,
                                  routed: Option<ControllerInfo>)
  {
    && RoutingJustified(events, tb.config, req, FindRoute(tb.routers, LookupVerb(req), UrlPath(tb.config, req), env), routed)
    && (escaped.Some? ==> !tb.config.recoverPanic && escaped.value != Abort)
  }

  /** A request's records are justified by the route its routing phase
      reports. */
  lemma {:induction false} ServeJustified(tb: Table, req: Request, env: Env, headers: seq<int>, body: seq<byte>)
    ensures var b := Begin(tb, req, env, UrlPath(tb.config, req), WriterState(false, 0, headers, body), NewContext);
            var s := Answer(tb, req, env, headers, body);
            AnswerJustified(tb, req, env, s.events, s.escaped, RoutingPhase(tb, req, env, b).routerInfo)
  {
    var urlPath := UrlPath(tb.config, req);
    var b := Begin(tb, req, env, urlPath, WriterState(false, 0, headers, body), NewContext);
    var r := RoutingPhase(tb, req, env, b);
    var cl := Close(tb.config, req, env, r.next == ToAdmin, r.findrouter, r.routerInfo, r.runrouter,
                    r.c.outputStatus, b.sessionStarted, r.panic);
    var m := FindRoute(tb.routers, LookupVerb(req), urlPath, env);
    ServePhases(tb, req, env, headers, body);
    if b.next == Proceed {
      RouteOutcomes(tb, req, env, urlPath, b.w, b.c);
    }
    assert RoutingJustified(r.events, tb.config, req, m, r.routerInfo);
    PhasesKeepJustified(b.events, r.events, cl.events, tb.config, req, m, r.routerInfo);
  }

  /** A verb outside the HTTP methods is answered 405 before anything else,
      and the rest of the request only closes it; the server's writer gets
      the status and the message. */
  lemma {:induction false} ServeUnknownVerb(tb: Table, req: Request, env: Env, headers: seq<int>, body: seq<byte>)
    requires req.verb !in HttpMethods
    ensures var s := Answer(tb, req, env, headers, body);
            && |s.events| > 0 && s.events[0] == HttpError(405)
            && (forall i | 0 < i < |s.events| :: Closing(s.events[i]))
            && s.escaped == None
            && s.headers == headers + [405]
            && s.body == body + Bytes("Method Not Allowed\n")
    ensures var b := Begin(tb, req, env, UrlPath(tb.config, req), WriterState(false, 0, headers, body), NewContext);
            b.next == ToAdmin && RoutingPhase(tb, req, env, b).routerInfo == None
  {
    ServePhases(tb, req, env, headers, body);
  }

  /** When the phase before routing does not let the request through (a
      halting filter, a panic, static output or a failed session), nothing
      is looked up and nothing runs. */
  lemma {:induction false} ServeHaltsBeforeRouting(tb: Table, req: Request, env: Env, headers: seq<int>, body: seq<byte>)
    requires Begin(tb, req, env, UrlPath(tb.config, req), WriterState(false, 0, headers, body), NewContext).next != Proceed
    ensures var s := Answer(tb, req, env, headers, body);
            forall i | 0 <= i < |s.events| :: !s.events[i].Lookup? && !Executed(s.events[i])
  {
    var b := Begin(tb, req, env, UrlPath(tb.config, req), WriterState(false, 0, headers, body), NewContext);
    var r := RoutingPhase(tb, req, env, b);
    var cl := Close(tb.config, req, env, r.next == ToAdmin, r.findrouter, r.routerInfo, r.runrouter,
                    r.c.outputStatus, b.sessionStarted, r.panic);
    ServePhases(tb, req, env, headers, body);
    assert r.events == [];
    NothingRoutedOutside(b.events, cl.events);
  }

  /** Records of the phases before and after routing hold no lookup and
      nothing run. */
  lemma NothingRoutedOutside(pre: seq<Event>, post: seq<Event>)
    requires forall i | 0 <= i < |pre| :: Prelude(pre[i])
    requires forall i | 0 <= i < |post| :: Closing(post[i])
    ensures forall i | 0 <= i < |pre + [] + post| :: !(pre + [] + post)[i].Lookup? && !Executed((pre + [] + post)[i])
  {
    forall i | 0 <= i < |pre + [] + post|
      ensures !(pre + [] + post)[i].Lookup? && !Executed((pre + [] + post)[i])
    {
      if i < |pre| {
        assert (pre + [] + post)[i] == pre[i];
      } else {
        assert (pre + [] + post)[i] == post[i - |pre|];
      }
    }
  }

  /** A request that gets through the phase before routing, with no
      controller chosen by a filter, is looked up in the tree of its lookup
      verb, and is answered 404 exactly when that tree has no match. */
  lemma {:induction false} ServeLooksUp(tb: Table, req: Request, env: Env, headers: seq<int>, body: seq<byte>)
    requires var b := Begin(tb, req, env, UrlPath(tb.config, req), WriterState(false, 0, headers, body), NewContext);
             b.next == Proceed && !Chosen(b.c)
    ensures var s := Answer(tb, req, env, headers, body);
            && Lookup(LookupVerb(req)) in s.events
            && (Exception("404") in s.events <==> FindRoute(tb.routers, LookupVerb(req), UrlPath(tb.config, req), env).None?)
  {
    var urlPath := UrlPath(tb.config, req);
    var b := Begin(tb, req, env, urlPath, WriterState(false, 0, headers, body), NewContext);
    var r := RoutingPhase(tb, req, env, b);
    var cl := Close(tb.config, req, env, r.next == ToAdmin, r.findrouter, r.routerInfo, r.runrouter,
                    r.c.outputStatus, b.sessionStarted, r.panic);
    ServeJustified(tb, req, env, headers, body);
    ServePhases(tb, req, env, headers, body);
    FindOutcomes(tb, req, env, urlPath, b.c);
    var f := Find(tb, req, env, urlPath, b.c);
    assert r.events[..1] == f.events;
    FirstOfMiddle(b.events, r.events, cl.events);
  }

  /** The first record of the middle phase is among the request's records. */
  lemma FirstOfMiddle(pre: seq<Event>, mid: seq<Event>, post: seq<Event>)
    requires |mid| > 0
    ensures mid[0] in pre + mid + post
  {
    assert (pre + mid + post)[|pre|] == mid[0];
  }

  /** Whether the phase before routing `b` lets a request through decides
      whether anything is looked up: nothing when it does not, and the lookup
      verb's tree, with the 404 exactly on a miss, when it does and no filter
      chose a controller. */
  ghost predicate LookupFollowsBegin(tb: Table, req: Request, env: Env, b: Begun, events: seq<Event>)
  {
    && (b.next != Proceed ==> forall i | 0 <= i < |events| :: !events[i].Lookup? && !Executed(events[i]))
    && (b.next == Proceed && !Chosen(b.c) ==>
          && Lookup(LookupVerb(req)) in events
          && (Exception("404") in events <==> FindRoute(tb.routers, LookupVerb(req), UrlPath(tb.config, req), env).None?))
  }

  lemma ServeHaltsAndLooksUp(tb: Table, req: Request, env: Env, headers: seq<int>, body: seq<byte>)
    ensures var b := Begin(tb, req, env, UrlPath(tb.config, req), WriterState(false, 0, headers, body), NewContext);
            LookupFollowsBegin(tb, req, env, b, Answer(tb, req, env, headers, body).events)
  {
    var b := Begin(tb, req, env, UrlPath(tb.config, req), WriterState(false, 0, headers, body), NewContext);
    if b.next != Proceed {
      ServeHaltsBeforeRouting(tb, req, env, headers, body);
    } else if !Chosen(b.c) {
      ServeLooksUp(tb, req, env, headers, body);
    }
  }

  /** A request whose route was found and whose before-exec filters let it
      through runs what the route names: a RESTful route its function, or the
      405 when it lacks the request's verb; a handler route its handler; a
      struct route the lifecycle of its controller, beginning with the
      method mapped to the lookup verb. */
  lemma {:induction false} ServeRunsRoute(tb: Table, req: Request, env: Env, headers: seq<int>, body: seq<byte>)
    requires var b := Begin(tb, req, env, UrlPath(tb.config, req), WriterState(false, 0, headers, body), NewContext);
             b.next == Proceed && !Chosen(b.c)
    requires FindRoute(tb.routers, LookupVerb(req), UrlPath(tb.config, req), env).Some?
    requires var urlPath := UrlPath(tb.config, req);
             var b := Begin(tb, req, env, urlPath, WriterState(false, 0, headers, body), NewContext);
             Passes(Filter(tb, BeforeExec, urlPath, env, b.w, Find(tb, req, env, urlPath, b.c).c))
    ensures var s := Answer(tb, req, env, headers, body);
            var ri := FindRoute(tb.routers, LookupVerb(req), UrlPath(tb.config, req), env).value.route;
            && (ri.routerType == RESTFul && req.verb !in ri.methods ==> Exception("405") in s.events)
            && (ri.routerType == RESTFul && req.verb in ri.methods ==> RunFunction(ri.runFunction) in s.events)
            && (ri.routerType == HandlerRoute ==> ServeHandler(ri.handler) in s.events)
            && (ri.routerType == Beego && ri.controllerType.Some? ==>
                  Controller(Init(ri.controllerType.value.name, RunMethodFor(ri.methods, LookupVerb(req)))) in s.events)
  {
    var urlPath := UrlPath(tb.config, req);
    var b := Begin(tb, req, env, urlPath, WriterState(false, 0, headers, body), NewContext);
    var r := RoutingPhase(tb, req, env, b);
    var s := Answer(tb, req, env, headers, body);
    ServePhases(tb, req, env, headers, body);
    FindOutcomes(tb, req, env, urlPath, b.c);
    var f := Find(tb, req, env, urlPath, b.c);
    ExecOutcomes(tb, req, env, urlPath, f.routerInfo, f.runrouter, f.runMethod, b.w, f.c);
    var x := Exec(tb, req, env, urlPath, f.routerInfo, f.runrouter, f.runMethod, b.w, f.c);
    assert r.events == f.events + x.events;
    if !(f.routerInfo.value.routerType == Beego && f.routerInfo.value.controllerType.None?) {
      assert s.events[|b.events| + 1] == x.events[0];
    }
  }

  /** What the answer to a request promises, read off `Answer`: whether
      anything is looked up, the panic that escapes, the status flushed, the
      405 for an unknown verb, and the records justified by the route. */
  lemma {:induction false} AnswerFacts(tb: Table, req: Request, env: Env, headers: seq<int>, body: seq<byte>,
                                       s: Served, routed: Option<ControllerInfo>, flushed: int)
    requires s == Answer(tb, req, env, headers, body)
    requires var b := Begin(tb, req, env, UrlPath(tb.config, req), WriterState(false, 0, headers, body), NewContext);
             var r := RoutingPhase(tb, req, env, b);
             && routed == r.routerInfo
             && flushed == Close(tb.config, req, env, r.next == ToAdmin, r.findrouter, r.routerInfo, r.runrouter,
                                 r.c.outputStatus, b.sessionStarted, r.panic).flushed
    ensures var b := Begin(tb, req, env, UrlPath(tb.config, req), WriterState(false, 0, headers, body), NewContext);
            var r := RoutingPhase(tb, req, env, b);
            && LookupFollowsBegin(tb, req, env, b, s.events)
            && s.escaped == (if r.panic.Some? && Recover(r.panic.value, tb.config).Repanicked? then r.panic else None)
            && (r.next == ToAdmin && r.c.outputStatus != 0 ==> flushed == r.c.outputStatus)
    ensures req.verb !in HttpMethods ==>
              && |s.events| > 0 && s.events[0] == HttpError(405) && s.escaped == None && routed == None
              && s.headers == headers + [405]
              && forall i | 0 <= i < |s.events| ::
                   !s.events[i].Lookup? && !s.events[i].RunFunction? && !s.events[i].ServeHandler? && !s.events[i].Controller?
    ensures AnswerJustified(tb, req, env, s.events, s.escaped, routed)
    ensures flushed != 0 ==> |s.headers| > 0 && s.headers[|s.headers| - 1] == flushed
  {
    ServeJustified(tb, req, env, headers, body);
    ServeHaltsAndLooksUp(tb, req, env, headers, body);
    if req.verb !in HttpMethods {
      ServeUnknownVerb(tb, req, env, headers, body);
    }
  }

  /** The closing of a request: a panic that recovery re-raises escapes and
      every other is absorbed, a panic is recovered last, and a status set on
      the way to the closing phase is flushed to the server's writer. */
  lemma {:induction false} ServeCloses(tb: Table, req: Request, env: Env, headers: seq<int>, body: seq<byte>)
    ensures var b := Begin(tb, req, env, UrlPath(tb.config, req), WriterState(false, 0, headers, body), NewContext);
            var r := RoutingPhase(tb, req, env, b);
            var s := Answer(tb, req, env, headers, body);
            && s.escaped == (if r.panic.Some? && Recover(r.panic.value, tb.config).Repanicked? then r.panic else None)
            && (r.panic.Some? ==> |s.events| > 0 && s.events[|s.events| - 1] == Recovered(Recover(r.panic.value, tb.config)))
            && (r.next == ToAdmin && r.c.outputStatus != 0 ==> s.headers == r.w.headers + [r.c.outputStatus])
            && (r.next != ToAdmin || r.c.outputStatus == 0 ==> s.headers == r.w.headers)
            && s.body == r.w.body
  {
  }
}
