/** The filter pipeline (`doFilter`): the filters of one execution point run
    in registration order against the request's writer and context. */
module Pipeline {
  import opened Routes
  import opened Response

  /** The parts of a filter the router cannot see: whether its tree matches a
      path, with the params it captures (`FilterRouter.ValidRouter`), and what
      its callback does, given the context params it is called with. */
  datatype FilterEnv = FilterEnv(
    validRouter: (string, string) -> Option<map<string, string>>,
    run: (nat, map<string, string>) -> Effect)

  /** How a walk over a filter list ended: whether it halted, the panic that
      escaped, the final states and how many filters it got past. */
  datatype FilterRun = FilterRun(stop: bool, panic: Option<PanicValue>, w: WriterState, c: ContextState, visited: nat)

  /** The params a filter's match contributes; none when its tree does not match. */
  function Captured(f: FilterRouter, urlPath: string, env: FilterEnv): map<string, string>
  {
    var m := env.validRouter(f.treePattern, urlPath);
    if m.Some? then m.value else map[]
  }

  /** What visiting one filter leaves behind: the panic it raised, if any,
      and the new states. */
  datatype Visited = Visited(panic: Option<PanicValue>, w: WriterState, c: ContextState)

  /** Visits one filter: when its tree matches, its captured params go into
      the context and then its callback runs. */
  function Visit(f: FilterRouter, urlPath: string, env: FilterEnv, w: WriterState, c: ContextState): (v: Visited)
    ensures env.validRouter(f.treePattern, urlPath).Some? ==>
              var e := env.run(f.filterFunc, c.params + Captured(f, urlPath, env));
              v == Visited(e.panic, ApplyWriter(w, e), ApplyContext(c.(params := c.params + Captured(f, urlPath, env)), e))
    ensures env.validRouter(f.treePattern, urlPath).None? ==> v == Visited(None, w, c)
    ensures env.run(f.filterFunc, c.params + Captured(f, urlPath, env)).params.None? ==>
              v.c.params == c.params + Captured(f, urlPath, env)
  {
    var m := env.validRouter(f.treePattern, urlPath);
    if m.Some? then
      var c1 := c.(params := c.params + m.value);
      var e := env.run(f.filterFunc, c1.params);
      Visited(e.panic, ApplyWriter(w, e), ApplyContext(c1, e))
    else
      assert c.params + map[] == c.params;
      Visited(None, w, c)
  }

  /** The walk over a filter list.  A filter that halts on output halts the
      walk when output has started, checked before it is visited and again
      after; a panic ends the walk at once. */
  function RunFilters(list: seq<FilterRouter>, urlPath: string, env: FilterEnv,
                      w: WriterState, c: ContextState): (r: FilterRun)
    ensures r.visited <= |list|
    ensures r.stop ==> r.panic.None?
    decreases |list|
  {
    if |list| == 0 then FilterRun(false, None, w, c, 0)
    else if list[0].returnOnOutput && w.started then FilterRun(true, None, w, c, 0)
    else
      var v := Visit(list[0], urlPath, env, w, c);
      if v.panic.Some? then FilterRun(false, v.panic, v.w, v.c, 1)
      else if list[0].returnOnOutput && v.w.started then FilterRun(true, None, v.w, v.c, 1)
      else
        var r := RunFilters(list[1..], urlPath, env, v.w, v.c);
        r.(visited := r.visited + 1)
  }

  /** `doFilter(pos)`: nothing happens unless filtering is on and the
      execution point has a list. */
  function DoFilterSpec(enableFilter: bool, filters: map<int, seq<FilterRouter>>, pos: int, urlPath: string,
                        env: FilterEnv, w: WriterState, c: ContextState): (r: FilterRun)
    ensures !enableFilter || pos !in filters ==> r == FilterRun(false, None, w, c, 0)
    ensures enableFilter && pos in filters ==> r == RunFilters(filters[pos], urlPath, env, w, c)
  {
    if enableFilter && pos in filters then RunFilters(filters[pos], urlPath, env, w, c)
    else FilterRun(false, None, w, c, 0)
  }

  /** Two walks that end the same way, however many filters they passed. */
  predicate SameEnd(a: FilterRun, b: FilterRun)
  {
    a.stop == b.stop && a.panic == b.panic && a.w == b.w && a.c == b.c
  }

  /** The `doFilter` closure. */
  method DoFilter(enableFilter: bool, filters: map<int, seq<FilterRouter>>, pos: int, urlPath: string,
                  env: FilterEnv, w: ResponseWriter, ctx: Context) returns (stop: bool, panic: Option<PanicValue>)
    modifies w, w.writer, ctx
    ensures SameEnd(FilterRun(stop, panic, w.State(), ctx.State(), 0),
                    DoFilterSpec(enableFilter, filters, pos, urlPath, env, old(w.State()), old(ctx.State())))
  {
    if enableFilter && pos in filters {
      var l := filters[pos];
      ghost var goal := RunFilters(l, urlPath, env, w.State(), ctx.State());
      var i := 0;
      while i < |l|
        invariant 0 <= i <= |l|
        invariant SameEnd(RunFilters(l[i..], urlPath, env, w.State(), ctx.State()), goal)
      {
        var f := l[i];
        assert l[i..][0] == f && l[i..][1..] == l[i + 1..];
        if f.returnOnOutput && w.started {
          return true, None;
        }
        var m := env.validRouter(f.treePattern, urlPath);
        if m.Some? {
          ctx.SetParams(m.value);
          panic := Perform(env.run(f.filterFunc, ctx.params), w, ctx);
          if panic.Some? {
            return false, panic;
          }
        }
        if f.returnOnOutput && w.started {
          return true, None;
        }
        i := i + 1;
      }
    }
    return false, None;
  }

  /** Without a filter that halts on output the walk never halts. */
  lemma {:induction false} NeverHaltsWithoutReturnOnOutput(list: seq<FilterRouter>, urlPath: string, env: FilterEnv,
                                                           w: WriterState, c: ContextState)
    requires forall j :: 0 <= j < |list| ==> !list[j].returnOnOutput
    ensures !RunFilters(list, urlPath, env, w, c).stop
    decreases |list|
  {
    if |list| > 0 {
      var v := Visit(list[0], urlPath, env, w, c);
      NeverHaltsWithoutReturnOnOutput(list[1..], urlPath, env, v.w, v.c);
    }
  }

  /** A walk halts only once output has started. */
  lemma {:induction false} HaltMeansStarted(list: seq<FilterRouter>, urlPath: string, env: FilterEnv,
                                            w: WriterState, c: ContextState)
    ensures RunFilters(list, urlPath, env, w, c).stop ==> RunFilters(list, urlPath, env, w, c).w.started
    decreases |list|
  {
    if |list| > 0 {
      var v := Visit(list[0], urlPath, env, w, c);
      HaltMeansStarted(list[1..], urlPath, env, v.w, v.c);
    }
  }

  /** Once output has started, the first filter that halts on output stops
      the walk before it runs, unless a panic ended the walk earlier: no
      filter at or after it runs. */
  lemma {:induction false} HaltsAtFirstReturnOnOutput(list: seq<FilterRouter>, urlPath: string, env: FilterEnv,
                                                      w: WriterState, c: ContextState, j: nat)
    requires w.started && j < |list| && list[j].returnOnOutput
    ensures var r := RunFilters(list, urlPath, env, w, c);
            r.panic.None? ==> r.stop && r.visited <= j
    decreases |list|
  {
    if j > 0 && !(list[0].returnOnOutput && w.started) {
      var v := Visit(list[0], urlPath, env, w, c);
      assert list[1..][j - 1] == list[j];
      HaltsAtFirstReturnOnOutput(list[1..], urlPath, env, v.w, v.c, j - 1);
    }
  }

  /** A walk that neither halts nor panics gets past every filter. */
  lemma {:induction false} CompletesWithoutHalt(list: seq<FilterRouter>, urlPath: string, env: FilterEnv,
                                                w: WriterState, c: ContextState)
    ensures var r := RunFilters(list, urlPath, env, w, c);
            !r.stop && r.panic.None? ==> r.visited == |list|
    decreases |list|
  {
    if |list| > 0 {
      var v := Visit(list[0], urlPath, env, w, c);
      CompletesWithoutHalt(list[1..], urlPath, env, v.w, v.c);
    }
  }

  /** The params after the matches of a run of filters, merged in order. */
  function MergeCaptured(p: map<string, string>, fs: seq<FilterRouter>, urlPath: string, env: FilterEnv): map<string, string>
    decreases |fs|
  {
    if |fs| == 0 then p else MergeCaptured(p + Captured(fs[0], urlPath, env), fs[1..], urlPath, env)
  }

  /** Merging is last-write-wins: a later filter's params override earlier ones. */
  lemma {:induction false} MergeCapturedSnoc(p: map<string, string>, fs: seq<FilterRouter>, f: FilterRouter,
                                             urlPath: string, env: FilterEnv)
    ensures MergeCaptured(p, fs + [f], urlPath, env) == MergeCaptured(p, fs, urlPath, env) + Captured(f, urlPath, env)
    decreases |fs|
  {
    if |fs| == 0 {
      assert [f][1..] == [];
    } else {
      assert (fs + [f])[1..] == fs[1..] + [f];
      MergeCapturedSnoc(p + Captured(fs[0], urlPath, env), fs[1..], f, urlPath, env);
    }
  }

  /** No filter callback sets the route params itself. */
  ghost predicate KeepsParams(env: FilterEnv)
  {
    forall f, p :: env.run(f, p).params.None?
  }

  /** The context params after a walk whose callbacks leave the params
      alone: the params before it, with the captures of every filter it got
      past merged in order. */
  lemma {:induction false} ParamsAfterWalk(list: seq<FilterRouter>, urlPath: string, env: FilterEnv,
                                           w: WriterState, c: ContextState)
    requires KeepsParams(env)
    ensures var r := RunFilters(list, urlPath, env, w, c);
            r.c.params == MergeCaptured(c.params, list[..r.visited], urlPath, env)
    decreases |list|
  {
    var r := RunFilters(list, urlPath, env, w, c);
    if |list| > 0 && !(list[0].returnOnOutput && w.started) {
      var f := list[0];
      var v := Visit(f, urlPath, env, w, c);
      assert list[..1] == [f] && MergeCaptured(c.params, [f], urlPath, env) == v.c.params;
      if r.visited > 1 {
        ParamsAfterWalk(list[1..], urlPath, env, v.w, v.c);
        assert list[..r.visited] == [f] + list[1..][..r.visited - 1];
      }
    }
  }
}
