/** Registration: the route table (`ControllerRegister`) and the operations
    that add routes and filters to it. */
module Register {
  import Strs
  import Paths
  import opened Routes
  import Mapping
  import opened Response
  import Pipeline
  import opened Dispatch
  import opened Reverse
  import opened Serve

  /** The insertions made so far into a verb's tree; none if it has no tree. */
  function Entries(routers: map<string, Tree>, verb: string): seq<Entry>
  {
    if verb in routers then routers[verb].entries else []
  }

  function Repeat(e: Entry, n: nat): (r: seq<Entry>)
    ensures |r| == n && forall i | 0 <= i < n :: r[i] == e
  {
    seq(n, i => e)
  }

  lemma AppendRepeat(s: seq<Entry>, e: Entry, n: nat)
    ensures (s + Repeat(e, n)) + [e] == s + Repeat(e, n + 1)
  {
    assert |(s + Repeat(e, n)) + [e]| == |s + Repeat(e, n + 1)|;
    forall i | 0 <= i < |s| + n + 1
      ensures ((s + Repeat(e, n)) + [e])[i] == (s + Repeat(e, n + 1))[i]
    {
    }
  }

  /** Whether processing methods key `k` inserts into `verb`'s tree. */
  predicate Hits(k: string, verb: string)
  {
    if k == "*" then verb in HttpMethods else verb == k
  }

  /** How often the fan-out of a methods map inserts a route into `verb`'s
      tree: once for a "*" key (every verb) and once for the verb's own key. */
  function CopiesIn(keys: set<string>, verb: string): nat
  {
    (if "*" in keys && verb in HttpMethods then 1 else 0) + (if verb in keys && verb != "*" then 1 else 0)
  }

  lemma CopiesStep(keys: set<string>, k: string, v: string)
    requires k !in keys
    ensures CopiesIn(keys + {k}, v) == CopiesIn(keys, v) + (if Hits(k, v) then 1 else 0)
  {
  }

  /** `after` is `before` with `e` inserted as often as the fan-out of the
      keys asks, into each verb's tree, and trees created where needed. */
  ghost predicate FannedOut(before: map<string, Tree>, after: map<string, Tree>, keys: set<string>, e: Entry)
  {
    forall v :: Entries(after, v) == Entries(before, v) + Repeat(e, CopiesIn(keys, v))
  }

  /** The verbs whose trees the fan-out of a set of methods keys touches. */
  function TreesFor(keys: set<string>): (vs: set<string>)
    ensures forall v :: v in vs <==> CopiesIn(keys, v) > 0
  {
    (if "*" in keys then HttpMethods else {}) + (keys - {"*"})
  }

  lemma TreesForStep(keys: set<string>, k: string)
    ensures TreesFor(keys + {k}) == TreesFor(keys) + (if k == "*" then HttpMethods else {k})
  {
  }

  /** Moving one element from the keys still to visit to the keys visited. */
  lemma VisitStep(rest: set<string>, done: set<string>, all: set<string>, k: string)
    requires rest !! done && rest + done == all && k in rest
    ensures (rest - {k}) !! (done + {k}) && (rest - {k}) + (done + {k}) == all
  {
  }

  lemma UnionStep(a: set<string>, b: set<string>, c: set<string>, x: set<string>, y: set<string>)
    requires b == a + x && c == b + y
    ensures c == a + (x + y)
  {
  }

  lemma FanOutNone(routers: map<string, Tree>, e: Entry)
    ensures FannedOut(routers, routers, {}, e)
  {
    forall v ensures Entries(routers, v) == Entries(routers, v) + Repeat(e, CopiesIn({}, v)) {
      assert Repeat(e, 0) == [];
    }
  }

  lemma FanOutStep(before: map<string, Tree>, mid: map<string, Tree>, after: map<string, Tree>,
                   done: set<string>, k: string, e: Entry)
    requires k !in done
    requires FannedOut(before, mid, done, e)
    requires forall v | Hits(k, v) :: Entries(after, v) == Entries(mid, v) + [e]
    requires forall v | !Hits(k, v) :: Entries(after, v) == Entries(mid, v)
    ensures FannedOut(before, after, done + {k}, e)
  {
    forall v ensures Entries(after, v) == Entries(before, v) + Repeat(e, CopiesIn(done + {k}, v)) {
      CopiesStep(done, k, v);
      if Hits(k, v) {
        AppendRepeat(Entries(before, v), e, CopiesIn(done, v));
      }
    }
  }

  /** A "*" key's step of the fan-out: one insertion into every verb's tree. */
  lemma FanOutStarStep(before: map<string, Tree>, mid: map<string, Tree>, after: map<string, Tree>,
                       done: set<string>, e: Entry)
    requires "*" !in done
    requires FannedOut(before, mid, done, e)
    requires AppendedTo(mid, after, HttpMethods, [e])
    ensures FannedOut(before, after, done + {"*"}, e)
  {
    FanOutStep(before, mid, after, done, "*", e);
  }

  /** Any other key's step of the fan-out: one insertion into its own tree. */
  lemma FanOutVerbStep(before: map<string, Tree>, mid: map<string, Tree>, after: map<string, Tree>,
                       done: set<string>, k: string, e: Entry)
    requires k != "*" && k !in done
    requires FannedOut(before, mid, done, e)
    requires Entries(after, k) == Entries(mid, k) + [e]
    requires forall v | v != k :: Entries(after, v) == Entries(mid, v)
    ensures FannedOut(before, after, done + {k}, e)
  {
    FanOutStep(before, mid, after, done, k, e);
  }

  /** The keys whose fan-out `Add` performs: an empty methods map stands for
      "*", that is for every supported verb. */
  function AddKeys(methods: map<string, string>): set<string>
  {
    if |methods| == 0 then {"*"} else methods.Keys
  }

  lemma AllVerbsFannedOut(before: map<string, Tree>, after: map<string, Tree>, e: Entry)
    requires AppendedTo(before, after, HttpMethods, [e])
    ensures FannedOut(before, after, {"*"}, e)
  {
    forall v ensures Entries(after, v) == Entries(before, v) + Repeat(e, CopiesIn({"*"}, v)) {
      if v in HttpMethods {
        assert Repeat(e, 1) == [e];
      } else {
        assert Repeat(e, 0) == [];
      }
    }
  }

  /** The route descriptor `Add` registers for a struct controller. */
  function StructRoute(pattern: string, c: ControllerType, methods: map<string, string>): ControllerInfo
  {
    ControllerInfo(pattern, Some(c), methods, 0, 0, Beego)
  }

  /** The values a variadic `interface{}` option can take, as far as `Handler` looks. */
  datatype OptionValue = BoolValue(b: bool) | OtherValue

  /** The pattern `Handler` registers: any bool first option, `false`
      included, appends the catch-all segment "?:all". */
  function HandlerPattern(pattern: string, options: seq<OptionValue>): (r: string)
    ensures |options| > 0 && options[0].BoolValue? ==> r == Paths.Join([pattern, "?:all"])
    ensures (|options| == 0 || !options[0].BoolValue?) ==> r == pattern
  {
    if |options| > 0 && options[0].BoolValue? then Paths.Join([pattern, "?:all"]) else pattern
  }

  /** The four patterns automatic registration builds for one method: lower-case
      with a trailing "*", as written with a trailing "*", lower-case, as written. */
  function AutoPatterns(prefix: string, controllerName: string, name: string): (ps: seq<string>)
    ensures |ps| == 4
  {
    [Paths.Join([prefix, Strs.ToLower(controllerName), Strs.ToLower(name), "*"]),
     Paths.Join([prefix, controllerName, name, "*"]),
     Paths.Join([prefix, Strs.ToLower(controllerName), Strs.ToLower(name)]),
     Paths.Join([prefix, controllerName, name])]
  }

  /** The route automatic registration binds to a method name. */
  function AutoRoute(prefix: string, c: ControllerType, name: string): ControllerInfo
  {
    var controllerName := Strs.TrimSuffix(c.name, "Controller");
    ControllerInfo(AutoPatterns(prefix, controllerName, name)[0], Some(c), map["*" := name], 0, 0, Beego)
  }

  /** The insertions of four patterns, bound to one route, into a tree. */
  function FourEntries(cfg: Config, ps: seq<string>, r: ControllerInfo): (b: seq<Entry>)
    requires |ps| == 4
    ensures |b| == 4 && forall j :: 0 <= j < 4 ==> b[j] == Entry(StoredPattern(cfg, ps[j]), r)
  {
    [Entry(StoredPattern(cfg, ps[0]), r), Entry(StoredPattern(cfg, ps[1]), r),
     Entry(StoredPattern(cfg, ps[2]), r), Entry(StoredPattern(cfg, ps[3]), r)]
  }

  /** The insertions automatic registration makes into each verb's tree for
      one method name. */
  function AutoBlock(cfg: Config, prefix: string, c: ControllerType, name: string): (b: seq<Entry>)
    ensures |b| == 4
  {
    FourEntries(cfg, AutoPatterns(prefix, Strs.TrimSuffix(c.name, "Controller"), name), AutoRoute(prefix, c, name))
  }

  /** The insertions automatic registration makes into each verb's tree for a
      list of method names, skipping the excluded ones. */
  function AutoEntries(cfg: Config, prefix: string, c: ControllerType, names: seq<string>): seq<Entry>
  {
    if |names| == 0 then []
    else
      var last := names[|names| - 1];
      AutoEntries(cfg, prefix, c, names[..|names| - 1])
        + (if last in ExceptMethods then [] else AutoBlock(cfg, prefix, c, last))
  }

  lemma AutoEntriesSnoc(cfg: Config, prefix: string, c: ControllerType, names: seq<string>, i: nat)
    requires i < |names|
    ensures AutoEntries(cfg, prefix, c, names[..i + 1]) ==
              AutoEntries(cfg, prefix, c, names[..i])
                + (if names[i] in ExceptMethods then [] else AutoBlock(cfg, prefix, c, names[i]))
  {
    assert names[..i + 1][..i] == names[..i];
  }

  /** `after` is `before` with `block` appended to the trees of the verbs in `done`. */
  ghost predicate AppendedTo(before: map<string, Tree>, after: map<string, Tree>, done: set<string>, block: seq<Entry>)
  {
    && (forall v | v in done :: Entries(after, v) == Entries(before, v) + block)
    && (forall v | v !in done :: Entries(after, v) == Entries(before, v))
  }

  lemma AppendedNone(routers: map<string, Tree>)
    ensures forall block: seq<Entry> :: AppendedTo(routers, routers, {}, block)
  {
  }

  lemma AppendedNothing(routers: map<string, Tree>, verbs: set<string>)
    ensures AppendedTo(routers, routers, verbs, [])
  {
    forall v | v in verbs ensures Entries(routers, v) == Entries(routers, v) + [] {
    }
  }

  lemma AppendedChain(a: map<string, Tree>, b: map<string, Tree>, c: map<string, Tree>,
                      verbs: set<string>, x: seq<Entry>, y: seq<Entry>)
    requires AppendedTo(a, b, verbs, x) && AppendedTo(b, c, verbs, y)
    ensures AppendedTo(a, c, verbs, x + y)
  {
    forall v | v in verbs ensures Entries(c, v) == Entries(a, v) + (x + y) {
      assert Entries(c, v) == (Entries(a, v) + x) + y;
    }
  }

  /** The trees after one more method's block: every verb's. */
  lemma AutoEntriesKeys(k0: set<string>, k1: set<string>, k2: set<string>, x: seq<Entry>, y: seq<Entry>)
    requires k1 == k0 + (if x == [] then {} else HttpMethods)
    requires k2 == k1 + HttpMethods && |y| > 0
    ensures k2 == k0 + (if x + y == [] then {} else HttpMethods)
  {
    assert x + y != [];
  }

  lemma AppendStep(before: map<string, Tree>, mid: map<string, Tree>, after: map<string, Tree>,
                      done: set<string>, m: string, block: seq<Entry>)
    requires m !in done
    requires AppendedTo(before, mid, done, block)
    requires Entries(after, m) == Entries(mid, m) + block
    requires forall v | v != m :: Entries(after, v) == Entries(mid, v)
    ensures AppendedTo(before, after, done + {m}, block)
  {
    assert Entries(mid, m) == Entries(before, m);
  }

  /** The filter entry `InsertFilter` builds: the halt flag defaults to true and
      is otherwise the first bool given. */
  function NewFilterRouter(cfg: Config, pattern: string, filter: nat, params: seq<bool>): (mr: FilterRouter)
    ensures mr.returnOnOutput <==> |params| == 0 || params[0]
    ensures mr.pattern == pattern && mr.filterFunc == filter
    ensures mr.treePattern == StoredPattern(cfg, pattern)
  {
    FilterRouter(pattern, StoredPattern(cfg, pattern), filter, if |params| == 0 then true else params[0])
  }

  /** The filters of one execution point; none if it has no list. */
  function FilterList(filters: map<int, seq<FilterRouter>>, pos: int): seq<FilterRouter>
  {
    if pos in filters then filters[pos] else []
  }

  /** The route table: one tree per verb, and the filter lists per execution point. */
  class ControllerRegister {
    const config: Config
    var routers: map<string, Tree>
    var enableFilter: bool
    var filters: map<int, seq<FilterRouter>>

    /** `NewControllerRegister`. */
    constructor (config: Config)
      ensures this.config == config
      ensures routers == map[] && !enableFilter && filters == map[]
    {
      this.config := config;
      routers := map[];
      enableFilter := false;
      filters := map[];
    }

    /** The parts of the register that dispatch reads. */
    function Snapshot(): Table
      reads this
    {
      Table(config, routers, enableFilter, filters)
    }

    /** `addToRouter`: stores the pattern (lower-cased unless routing is case
        sensitive) in the verb's tree, creating that tree only if it is missing. */
    method AddToRouter(verb: string, pattern: string, r: ControllerInfo)
      modifies this`routers
      ensures verb in old(routers) ==>
                routers == old(routers)[verb := AddRouter(old(routers)[verb], StoredPattern(config, pattern), r)]
      ensures verb !in old(routers) ==>
                routers == old(routers)[verb := AddRouter(NewTree(), StoredPattern(config, pattern), r)]
      ensures routers.Keys == old(routers).Keys + {verb}
      ensures Entries(routers, verb) == Entries(old(routers), verb) + [Entry(StoredPattern(config, pattern), r)]
      ensures forall v | v != verb :: Entries(routers, v) == Entries(old(routers), v)
    {
      var p := pattern;
      if !config.caseSensitive {
        p := Strs.ToLower(pattern);
      }
      if verb in routers {
        var t := routers[verb];
        routers := routers[verb := AddRouter(t, p, r)];
      } else {
        var t := NewTree();
        routers := routers[verb := AddRouter(t, p, r)];
      }
    }

    /** The `for _, m := range HTTPMETHOD` loop: one insertion into every
        verb's tree, in the map's unspecified order. */
    method AddToAllVerbs(pattern: string, r: ControllerInfo)
      modifies this`routers
      ensures routers.Keys == old(routers).Keys + HttpMethods
      ensures AppendedTo(old(routers), routers, HttpMethods, [Entry(StoredPattern(config, pattern), r)])
    {
      ghost var block := [Entry(StoredPattern(config, pattern), r)];
      var rest := HttpMethods;
      ghost var done: set<string> := {};
      AppendedNone(routers);
      while rest != {}
        invariant rest !! done && rest + done == HttpMethods
        invariant routers.Keys == old(routers).Keys + done
        invariant AppendedTo(old(routers), routers, done, block)
        decreases rest
      {
        var m :| m in rest;
        ghost var mid := routers;
        VisitStep(rest, done, HttpMethods, m);
        AddToRouter(m, pattern, r);
        AppendStep(old(routers), mid, routers, done, m, block);
        UnionStep(old(routers).Keys, mid.Keys, routers.Keys, done, {m});
        rest := rest - {m};
        done := done + {m};
      }
    }

    /** The `for k := range methods` loop of `Add` and `AddMethod`: a "*" key
        inserts into every verb's tree, any other key into its own. */
    method FanOut(methods: map<string, string>, pattern: string, r: ControllerInfo)
      modifies this`routers
      ensures routers.Keys == old(routers).Keys + TreesFor(methods.Keys)
      ensures FannedOut(old(routers), routers, methods.Keys, Entry(StoredPattern(config, pattern), r))
    {
      var e := Entry(StoredPattern(config, pattern), r);
      var rest := methods.Keys;
      ghost var done: set<string> := {};
      FanOutNone(routers, e);
      while rest != {}
        invariant rest !! done && rest + done == methods.Keys
        invariant routers.Keys == old(routers).Keys + TreesFor(done)
        invariant FannedOut(old(routers), routers, done, e)
        decreases rest
      {
        var k :| k in rest;
        ghost var before := routers;
        TreesForStep(done, k);
        VisitStep(rest, done, methods.Keys, k);
        if k == "*" {
          AddToAllVerbs(pattern, r);
          FanOutStarStep(old(routers), before, routers, done, e);
          UnionStep(old(routers).Keys, before.Keys, routers.Keys, TreesFor(done), HttpMethods);
        } else {
          AddToRouter(k, pattern, r);
          FanOutVerbStep(old(routers), before, routers, done, k, e);
          UnionStep(old(routers).Keys, before.Keys, routers.Keys, TreesFor(done), {k});
        }
        rest := rest - {k};
        done := done + {k};
      }
      assert done == methods.Keys;
    }

    /** `Add`: registers a struct controller under the methods map its mapping
        argument describes, in every verb's tree when the map is empty or has a
        "*" key and in the listed verbs' trees otherwise.  A malformed mapping
        panics before anything is registered. */
    method Add(pattern: string, c: ControllerType, mappingMethods: seq<string>) returns (panic: Option<string>)
      modifies this`routers
      ensures Mapping.ParseMapping(mappingMethods, c).Panic? ==>
                panic == Some(Mapping.ParseMapping(mappingMethods, c).msg) && routers == old(routers)
      ensures Mapping.ParseMapping(mappingMethods, c).Ok? ==>
                var methods := Mapping.ParseMapping(mappingMethods, c).value;
                && panic == None
                && routers.Keys == old(routers).Keys + TreesFor(AddKeys(methods))
                && FannedOut(old(routers), routers, AddKeys(methods),
                             Entry(StoredPattern(config, pattern), StructRoute(pattern, c, methods)))
    {
      var parsed := Mapping.ParseMethodMapping(mappingMethods, c);
      if parsed.Panic? {
        return Some(parsed.msg);
      }
      var methods := parsed.value;
      var route := StructRoute(pattern, c, methods);
      if |methods| == 0 {
        ghost var before := routers;
        AddToAllVerbs(pattern, route);
        AllVerbsFannedOut(before, routers, Entry(StoredPattern(config, pattern), route));
      } else {
        FanOut(methods, pattern, route);
      }
      return None;
    }

    /** `AddMethod`: registers a function route for one verb, or for every verb
        given "*"; an unsupported verb panics before anything is registered. */
    method AddMethod(verb: string, pattern: string, f: nat) returns (panic: Option<string>)
      modifies this`routers
      ensures Mapping.AddMethodMap(verb).Panic? ==>
                panic == Some(Mapping.AddMethodMap(verb).msg) && routers == old(routers)
      ensures Mapping.AddMethodMap(verb).Ok? ==>
                var methods := Mapping.AddMethodMap(verb).value;
                && panic == None
                && routers.Keys == old(routers).Keys + TreesFor(methods.Keys)
                && FannedOut(old(routers), routers, methods.Keys,
                             Entry(StoredPattern(config, pattern), ControllerInfo(pattern, None, methods, 0, f, RESTFul)))
    {
      var built := Mapping.BuildMethodMap(verb);
      if built.Panic? {
        return Some(built.msg);
      }
      var methods := built.value;
      var route := ControllerInfo(pattern, None, methods, 0, f, RESTFul);
      FanOut(methods, pattern, route);
      return None;
    }

    /** `Handler`: registers a raw handler in every verb's tree. */
    method Handler(pattern: string, h: nat, options: seq<OptionValue>)
      modifies this`routers
      ensures routers.Keys == old(routers).Keys + HttpMethods
      ensures AppendedTo(old(routers), routers, HttpMethods,
                [Entry(StoredPattern(config, HandlerPattern(pattern, options)),
                       ControllerInfo(pattern, None, map[], h, 0, HandlerRoute))])
    {
      var route := ControllerInfo(pattern, None, map[], h, 0, HandlerRoute);
      var p := pattern;
      if |options| > 0 && options[0].BoolValue? {
        p := Paths.Join([pattern, "?:all"]);
      }
      AddToAllVerbs(p, route);
    }

    /** The body of the inner loop of `AddAutoPrefix`: four insertions into
        one verb's tree. */
    method AddFourToRouter(verb: string, ps: seq<string>, route: ControllerInfo)
      requires |ps| == 4
      modifies this`routers
      ensures routers.Keys == old(routers).Keys + {verb}
      ensures Entries(routers, verb) == Entries(old(routers), verb) + FourEntries(config, ps, route)
      ensures forall v | v != verb :: Entries(routers, v) == Entries(old(routers), v)
    {
      AddToRouter(verb, ps[0], route);
      AddToRouter(verb, ps[1], route);
      AddToRouter(verb, ps[2], route);
      AddToRouter(verb, ps[3], route);
      ghost var b := FourEntries(config, ps, route);
      assert Entries(routers, verb) == Entries(old(routers), verb) + [b[0]] + [b[1]] + [b[2]] + [b[3]];
      assert [b[0]] + [b[1]] + [b[2]] + [b[3]] == b;
    }

    /** The inner loop of `AddAutoPrefix`: for every verb, in the map's
        unspecified order, the four patterns of one method go into its tree. */
    method AddFourToAllVerbs(ps: seq<string>, route: ControllerInfo)
      requires |ps| == 4
      modifies this`routers
      ensures routers.Keys == old(routers).Keys + HttpMethods
      ensures AppendedTo(old(routers), routers, HttpMethods, FourEntries(config, ps, route))
    {
      ghost var block := FourEntries(config, ps, route);
      var rest := HttpMethods;
      ghost var done: set<string> := {};
      AppendedNone(routers);
      while rest != {}
        invariant rest !! done && rest + done == HttpMethods
        invariant routers.Keys == old(routers).Keys + done
        invariant AppendedTo(old(routers), routers, done, block)
        decreases rest
      {
        var m :| m in rest;
        ghost var mid := routers;
        VisitStep(rest, done, HttpMethods, m);
        AddFourToRouter(m, ps, route);
        AppendStep(old(routers), mid, routers, done, m, block);
        UnionStep(old(routers).Keys, mid.Keys, routers.Keys, done, {m});
        rest := rest - {m};
        done := done + {m};
      }
    }

    /** `AddAutoPrefix`: for every exported method not in the exclusion list,
        inserts four patterns into every verb's tree, bound to that method
        under the "*" key. */
    method AddAutoPrefix(prefix: string, c: ControllerType)
      modifies this`routers
      ensures routers.Keys == old(routers).Keys + (if AutoEntries(config, prefix, c, c.methods) == [] then {} else HttpMethods)
      ensures AppendedTo(old(routers), routers, HttpMethods, AutoEntries(config, prefix, c, c.methods))
    {
      var controllerName := Strs.TrimSuffix(c.name, "Controller");
      ghost var acc: seq<Entry> := [];
      AppendedNothing(routers, HttpMethods);
      var i := 0;
      while i < |c.methods|
        invariant 0 <= i <= |c.methods|
        invariant acc == AutoEntries(config, prefix, c, c.methods[..i])
        invariant routers.Keys == old(routers).Keys + (if acc == [] then {} else HttpMethods)
        invariant AppendedTo(old(routers), routers, HttpMethods, acc)
      {
        var name := c.methods[i];
        AutoEntriesSnoc(config, prefix, c, c.methods, i);
        ghost var before := routers;
        if name !in ExceptMethods {
          var route := AutoRoute(prefix, c, name);
          var ps := AutoPatterns(prefix, controllerName, name);
          ghost var block := AutoBlock(config, prefix, c, name);
          assert block == FourEntries(config, ps, route);
          AddFourToAllVerbs(ps, route);
          AutoEntriesKeys(old(routers).Keys, before.Keys, routers.Keys, acc, block);
          AppendedChain(old(routers), before, routers, HttpMethods, acc, block);
          acc := acc + block;
        }
        i := i + 1;
      }
      assert c.methods[..i] == c.methods;
    }

    /** `InsertFilter`: builds the filter entry and appends it to its execution point. */
    method InsertFilter(pattern: string, pos: int, filter: nat, params: seq<bool>) returns (err: Option<string>)
      modifies this`filters, this`enableFilter
      ensures err == None && enableFilter
      ensures filters == old(filters)[pos := FilterList(old(filters), pos) + [NewFilterRouter(config, pattern, filter, params)]]
    {
      var mr := NewFilterRouter(config, pattern, filter, params);
      err := InsertFilterRouter(pos, mr);
    }

    /** `insertFilterRouter`: appends at the end of the position's list, leaves
        the other positions alone and switches filtering on. */
    method InsertFilterRouter(pos: int, mr: FilterRouter) returns (err: Option<string>)
      modifies this`filters, this`enableFilter
      ensures err == None && enableFilter
      ensures filters == old(filters)[pos := FilterList(old(filters), pos) + [mr]]
      ensures forall q | q != pos :: FilterList(filters, q) == FilterList(old(filters), q)
    {
      filters := filters[pos := FilterList(filters, pos) + [mr]];
      enableFilter := true;
      err := None;
    }

    /** The part of `ServeHTTP` before routing: the verb check, the
        before-static filters, the static server, the session, the body and
        the before-router filters. */
    method BeginRequest(w: ResponseWriter, ctx: Context, req: Request, env: Env, urlPath: string)
      returns (next: Next, events: seq<Event>, panic: Option<PanicValue>, sessionStarted: bool, findrouter: bool)
      modifies w, w.writer, ctx
      ensures forall i | 0 <= i < |events| :: Prelude(events[i])
      ensures req.verb !in HttpMethods ==>
                events == [HttpError(405)] && next == ToAdmin && panic == None && !sessionStarted && !findrouter
      ensures panic.Some? <==> next == Stop && Exception("503") !in events
      ensures findrouter ==> next == ToAdmin
      ensures Begun(next, events, panic, sessionStarted, findrouter, w.State(), ctx.State())
                == Begin(Snapshot(), req, env, urlPath, old(w.State()), old(ctx.State()))
    {
      ghost var w0, c0 := w.State(), ctx.State();
      next, events, panic, sessionStarted, findrouter := BeforeRouting(w, ctx, req, env, urlPath);
      BeginOutcomes(Snapshot(), req, env, urlPath, w0, c0);
    }

    /** The steps of the phase before routing, in the order `ServeHTTP`
        takes them, each leaving early the way the phase does. */
    method BeforeRouting(w: ResponseWriter, ctx: Context, req: Request, env: Env, urlPath: string)
      returns (next: Next, events: seq<Event>, panic: Option<PanicValue>, sessionStarted: bool, findrouter: bool)
      modifies w, w.writer, ctx
      ensures Begun(next, events, panic, sessionStarted, findrouter, w.State(), ctx.State())
                == Begin(Snapshot(), req, env, urlPath, old(w.State()), old(ctx.State()))
    {
      ghost var tb := Snapshot();
      ghost var spec := Begin(tb, req, env, urlPath, w.State(), ctx.State());
      events := [];
      panic := None;
      sessionStarted := false;
      findrouter := false;
      var stop := false;
      if req.verb !in HttpMethods {
        w.WriteHeader(405);
        var _ := w.Write(Bytes("Method Not Allowed\n"));
        return ToAdmin, [HttpError(405)], None, false, false;
      }
      ghost var s := Filter(tb, BeforeStatic, urlPath, env, w.State(), ctx.State());
      stop, panic := Pipeline.DoFilter(enableFilter, filters, BeforeStatic, urlPath, env.filters, w, ctx);
      assert stop == s.stop && panic == s.panic && w.State() == s.w && ctx.State() == s.c;
      if panic.Some? {
        assert spec == Begun(Stop, [], s.panic, false, false, s.w, s.c);
        return Stop, events, panic, false, false;
      }
      if stop {
        assert spec == Begun(ToAdmin, [], None, false, false, s.w, s.c);
        return ToAdmin, events, None, false, false;
      }

      events := events + [ServeStatic];
      var e := env.serveStatic(req);
      panic := Perform(e, w, ctx);
      assert w.State() == ApplyWriter(s.w, e) && ctx.State() == ApplyContext(s.c, e);
      if panic.Some? {
        assert spec == Begun(Stop, [ServeStatic], e.panic, false, false, w.State(), ctx.State());
        return Stop, events, panic, false, false;
      }
      if w.started {
        return ToAdmin, events, None, false, true;
      }

      if config.sessionOn {
        events := events + [SessionStart];
        if env.sessionFails {
          return Stop, events + [Exception("503")], None, false, false;
        }
        sessionStarted := true;
      }

      if req.verb != "GET" && req.verb != "HEAD" {
        events := events + [ReadBody(config.copyRequestBody && !env.upload)];
      }
      assert events == [ServeStatic] + (if config.sessionOn then [SessionStart] else []) + BodyRecords(config, req, env);

      ghost var r := Filter(tb, BeforeRouter, urlPath, env, w.State(), ctx.State());
      stop, panic := Pipeline.DoFilter(enableFilter, filters, BeforeRouter, urlPath, env.filters, w, ctx);
      assert stop == r.stop && panic == r.panic && w.State() == r.w && ctx.State() == r.c;
      assert spec == Begun(if r.panic.Some? then Stop else if r.stop then ToAdmin else Proceed,
                           events, r.panic, config.sessionOn, false, r.w, r.c);
      if panic.Some? { return Stop, events, panic, sessionStarted, false; }
      if stop { return ToAdmin, events, None, sessionStarted, false; }
      next := Proceed;
    }

    /** The route decision of `ServeHTTP`: a controller and method a filter
        chose win; otherwise the tree of the lookup verb is searched, and a
        match's params, with its splat exploded, replace the context's when
        the match returns a map. */
    method FindRouter(ctx: Context, req: Request, env: Env, urlPath: string)
      returns (findrouter: bool, runrouter: Option<ControllerType>, runMethod: string,
               routerInfo: Option<ControllerInfo>, events: seq<Event>)
      modifies ctx
      ensures old(ctx.runController).Some? && old(ctx.runMethod) != "" ==>
                findrouter && routerInfo == None && events == []
                && runrouter == old(ctx.runController) && runMethod == old(ctx.runMethod)
      ensures !(old(ctx.runController).Some? && old(ctx.runMethod) != "") ==>
                && events == [Lookup(LookupVerb(req))]
                && runrouter == None
                && (findrouter <==> FindRoute(routers, LookupVerb(req), urlPath, env).Some?)
                && (findrouter ==> routerInfo == Some(FindRoute(routers, LookupVerb(req), urlPath, env).value.route))
                && (!findrouter ==> routerInfo == None)
      ensures var m := FindRoute(routers, LookupVerb(req), urlPath, env);
              !(old(ctx.runController).Some? && old(ctx.runMethod) != "") && m.Some? && m.value.params.Some? ==>
                ctx.params == Exploded(m.value.params.value)
      ensures var m := FindRoute(routers, LookupVerb(req), urlPath, env);
              (old(ctx.runController).Some? && old(ctx.runMethod) != "") || m.None? || m.value.params.None? ==>
                ctx.params == old(ctx.params)
      ensures Found(findrouter, runrouter, runMethod, routerInfo, events, ctx.State())
                == Find(Snapshot(), req, env, urlPath, old(ctx.State()))
    {
      findrouter := false;
      runrouter := None;
      runMethod := "";
      routerInfo := None;
      events := [];
      if ctx.runController.Some? && ctx.runMethod != "" {
        findrouter := true;
        runMethod := ctx.runMethod;
        runrouter := ctx.runController;
      }
      if !findrouter {
        var httpMethod := LookupVerb(req);
        events := [Lookup(httpMethod)];
        if httpMethod in routers {
          var m := env.matchTree(routers[httpMethod], urlPath);
          if m.Some? {
            routerInfo := Some(m.value.route);
            findrouter := true;
            if m.value.params.Some? {
              var p := ExplodeSplat(m.value.params.value);
              assert p == Exploded(m.value.params.value);
              ctx.ReplaceParams(p);
            }
          }
        }
      }
    }

    /** Runs one lifecycle stage of a struct controller. */
    method RunStep(step: Step, env: Env, w: ResponseWriter, ctx: Context, events: seq<Event>)
      returns (events': seq<Event>, panic: Option<PanicValue>)
      modifies w, w.writer, ctx
      ensures events' == events + [Controller(step)]
      ensures panic == env.step(step).panic
      ensures Staged(events', panic, w.State(), ctx.State())
                == Stage(step, env, Staged(events, None, old(w.State()), old(ctx.State())))
    {
      events' := events + [Controller(step)];
      panic := Perform(env.step(step), w, ctx);
    }

    /** The lifecycle of a struct controller: init, prepare, the XSRF token
        and check, the URL mapping, the action and the render when nothing has
        been written, and finish; a panic in any stage ends it. */
    method RunController(ct: ControllerType, runMethod: string, req: Request, env: Env, w: ResponseWriter, ctx: Context)
      returns (events: seq<Event>, panic: Option<PanicValue>)
      modifies w, w.writer, ctx
      ensures Staged(events, panic, w.State(), ctx.State())
                == Lifecycle(config, req, ct, runMethod, env, old(w.State()), old(ctx.State()))
      ensures LifecycleRun(events, Init(ct.name, runMethod), config.enableXSRF && XsrfCheckRequired(req))
    {
      LifecycleRecords(config, req, ct, runMethod, env, w.State(), ctx.State());
      events, panic := RunPreliminaries(ct, runMethod, req, env, w, ctx);
      if panic.Some? { return; }
      events, panic := RunMainStages(runMethod, env, w, ctx, events);
      if panic.Some? { return; }
      events, panic := RunStep(Finish, env, w, ctx, events);
    }

    /** The stages of a controller up to the URL mapping. */
    method RunPreliminaries(ct: ControllerType, runMethod: string, req: Request, env: Env, w: ResponseWriter, ctx: Context)
      returns (events: seq<Event>, panic: Option<PanicValue>)
      modifies w, w.writer, ctx
      ensures Staged(events, panic, w.State(), ctx.State())
                == Preliminaries(config, req, ct, runMethod, env, old(w.State()), old(ctx.State()))
    {
      ghost var o := Staged([], None, w.State(), ctx.State());
      events, panic := RunStep(Init(ct.name, runMethod), env, w, ctx, []);
      o := Stage(Init(ct.name, runMethod), env, o);
      if panic.Some? { return; }
      events, panic := RunStep(Prepare, env, w, ctx, events);
      o := Stage(Prepare, env, o);
      if panic.Some? { return; }
      if config.enableXSRF {
        events, panic := RunStep(XsrfToken, env, w, ctx, events);
        o := Stage(XsrfToken, env, o);
        if panic.Some? { return; }
        if XsrfCheckRequired(req) {
          events, panic := RunStep(CheckXsrfCookie, env, w, ctx, events);
          o := Stage(CheckXsrfCookie, env, o);
          if panic.Some? { return; }
        }
      }
      events, panic := RunStep(UrlMapping, env, w, ctx, events);
    }

    /** The action, when nothing has been written, and the render, when
        still nothing has been written, no status is set and auto-render is
        on. */
    method RunMainStages(runMethod: string, env: Env, w: ResponseWriter, ctx: Context, events: seq<Event>)
      returns (events': seq<Event>, panic: Option<PanicValue>)
      modifies w, w.writer, ctx
      ensures Staged(events', panic, w.State(), ctx.State())
                == MainStages(config, runMethod, env, Staged(events, None, old(w.State()), old(ctx.State())))
    {
      events', panic := events, None;
      if !w.started {
        events', panic := RunStep(Action(runMethod), env, w, ctx, events');
        if panic.Some? { return; }
        if !w.started && ctx.outputStatus == 0 && config.autoRender {
          events', panic := RunStep(Render, env, w, ctx, events');
        }
      }
    }

    /** Running what the route decision found: a RESTful function, a handler
        on the server's writer, or the lifecycle of a struct controller, whose
        type and method come from the route or, without one, from the
        filters' choice; without a controller type reflection panics. */
    method RunFound(rw: HttpWriter, w: ResponseWriter, ctx: Context, req: Request, env: Env,
                    routerInfo: Option<ControllerInfo>, runrouter: Option<ControllerType>, runMethod: string)
      returns (events: seq<Event>, panic: Option<PanicValue>, runrouter': Option<ControllerType>)
      requires w.writer == rw
      modifies rw, w, ctx
      ensures (Staged(events, panic, w.State(), ctx.State()), runrouter')
                == Run(config, req, env, routerInfo, runrouter, runMethod, old(w.State()), old(ctx.State()))
    {
      events := [];
      panic := None;
      runrouter' := runrouter;
      var isRunable := false;
      var action := runMethod;
      if routerInfo.Some? {
        var ri := routerInfo.value;
        if ri.routerType == RESTFul {
          isRunable := true;
          events := [RunFunction(ri.runFunction)];
          panic := Perform(env.runFunction(ri.runFunction), w, ctx);
        } else if ri.routerType == HandlerRoute {
          isRunable := true;
          events := [ServeHandler(ri.handler)];
          panic := PerformOnWriter(env.handler(ri.handler), rw);
        } else {
          runrouter' := ri.controllerType;
          action := RunMethodFor(ri.methods, LookupVerb(req));
        }
      }
      if !isRunable {
        if runrouter'.None? {
          panic := Some(PanicWith("reflect: New(nil)"));
        } else {
          events, panic := RunController(runrouter'.value, action, req, env, w, ctx);
        }
      }
    }

    /** The part of `ServeHTTP` after a route was found: the before-exec
        filters, the RESTful, handler or struct-controller run, and the
        after-exec and finish-router filters. */
    method Execute(rw: HttpWriter, w: ResponseWriter, ctx: Context, req: Request, env: Env, urlPath: string,
                   routerInfo: Option<ControllerInfo>, runrouter: Option<ControllerType>, runMethod: string)
      returns (next: Next, events: seq<Event>, panic: Option<PanicValue>, runrouter': Option<ControllerType>)
      requires w.writer == rw
      modifies rw, w, ctx
      ensures Ran(next, events, panic, runrouter', w.State(), ctx.State())
                == Exec(Snapshot(), req, env, urlPath, routerInfo, runrouter, runMethod, old(w.State()), old(ctx.State()))
      ensures RunsFound(Filter(Snapshot(), BeforeExec, urlPath, env, old(w.State()), old(ctx.State())),
                        req, routerInfo, runrouter, runMethod, Ran(next, events, panic, runrouter', w.State(), ctx.State()))
      ensures panic.Some? <==> next == Stop
      ensures forall i | 0 <= i < |events| :: Executed(events[i])
      ensures RunJustified(events, config, req, routerInfo)
      ensures forall c, a :: Controller(Init(c, a)) in events && routerInfo.None? ==> a == runMethod
    {
      ghost var tb := Snapshot();
      ghost var w0, c0 := w.State(), ctx.State();
      next, events, panic, runrouter' := ExecuteSteps(rw, w, ctx, req, env, urlPath, routerInfo, runrouter, runMethod);
      ExecOutcomes(tb, req, env, urlPath, routerInfo, runrouter, runMethod, w0, c0);
      ExecJustified(tb, req, env, urlPath, routerInfo, runrouter, runMethod, w0, c0);
      ExecLifecycle(tb, req, env, urlPath, routerInfo, runrouter, runMethod, w0, c0);
    }

    /** The steps after a route was found, in the order `ServeHTTP` takes
        them: the before-exec filters, the 405 or the run, and the after-exec
        and finish-router filters. */
    method ExecuteSteps(rw: HttpWriter, w: ResponseWriter, ctx: Context, req: Request, env: Env, urlPath: string,
                        routerInfo: Option<ControllerInfo>, runrouter: Option<ControllerType>, runMethod: string)
      returns (next: Next, events: seq<Event>, panic: Option<PanicValue>, runrouter': Option<ControllerType>)
      requires w.writer == rw
      modifies rw, w, ctx
      ensures Ran(next, events, panic, runrouter', w.State(), ctx.State())
                == Exec(Snapshot(), req, env, urlPath, routerInfo, runrouter, runMethod, old(w.State()), old(ctx.State()))
    {
      ghost var tb := Snapshot();
      ghost var spec := Exec(tb, req, env, urlPath, routerInfo, runrouter, runMethod, w.State(), ctx.State());
      events := [];
      runrouter' := runrouter;
      next := ToAdmin;
      var stop := false;
      ghost var b := Filter(tb, BeforeExec, urlPath, env, w.State(), ctx.State());
      stop, panic := Pipeline.DoFilter(enableFilter, filters, BeforeExec, urlPath, env.filters, w, ctx);
      assert stop == b.stop && panic == b.panic && w.State() == b.w && ctx.State() == b.c;
      if panic.Some? {
        next := Stop;
      } else if stop {
        next := ToAdmin;
      } else if routerInfo.Some? && routerInfo.value.routerType == RESTFul && req.verb !in routerInfo.value.methods {
        events := [Exception("405")];
      } else {
        ghost var run := Run(config, req, env, routerInfo, runrouter, runMethod, b.w, b.c);
        events, panic, runrouter' := RunFound(rw, w, ctx, req, env, routerInfo, runrouter, runMethod);
        assert Staged(events, panic, w.State(), ctx.State()) == run.0 && runrouter' == run.1;
        if panic.Some? {
          next := Stop;
        } else {
          ghost var a := Filter(tb, AfterExec, urlPath, env, w.State(), ctx.State());
          stop, panic := Pipeline.DoFilter(enableFilter, filters, AfterExec, urlPath, env.filters, w, ctx);
          assert stop == a.stop && panic == a.panic && w.State() == a.w && ctx.State() == a.c;
          if panic.Some? {
            next := Stop;
          } else if !stop {
            stop, panic := Pipeline.DoFilter(enableFilter, filters, FinishRouter, urlPath, env.filters, w, ctx);
            next := if panic.Some? then Stop else ToAdmin;
          }
        }
      }
      assert Ran(next, events, panic, runrouter', w.State(), ctx.State()) == spec;
    }

    /** The routing phase of `ServeHTTP`: find the route, answer 404 when
        there is none, and otherwise run it. */
    method Route(rw: HttpWriter, w: ResponseWriter, ctx: Context, req: Request, env: Env, urlPath: string)
      returns (next: Next, events: seq<Event>, panic: Option<PanicValue>, findrouter: bool,
               routerInfo: Option<ControllerInfo>, runrouter: Option<ControllerType>)
      requires w.writer == rw
      modifies rw, w, ctx
      ensures Routed(next, events, panic, findrouter, routerInfo, runrouter, w.State(), ctx.State())
                == RouteSpec(Snapshot(), req, env, urlPath, old(w.State()), old(ctx.State()))
      ensures panic.Some? <==> next == Stop
      ensures forall i | 0 <= i < |events| :: Routing(events[i])
      ensures RoutingJustified(events, config, req, FindRoute(routers, LookupVerb(req), urlPath, env), routerInfo)
    {
      ghost var tb := Snapshot();
      ghost var w0, c0 := w.State(), ctx.State();
      var runMethod, found;
      findrouter, runrouter, runMethod, routerInfo, found := FindRouter(ctx, req, env, urlPath);
      if !findrouter {
        next, events, panic := ToAdmin, found + [Exception("404")], None;
      } else {
        var executed;
        next, executed, panic, runrouter := Execute(rw, w, ctx, req, env, urlPath, routerInfo, runrouter, runMethod);
        events := found + executed;
      }
      assert Routed(next, events, panic, findrouter, routerInfo, runrouter, w.State(), ctx.State())
               == RouteSpec(tb, req, env, urlPath, w0, c0);
      RouteOutcomes(tb, req, env, urlPath, w0, c0);
    }

    /** The closing phase of `ServeHTTP`: the statistics and the access log
        (from the `Admin` label on, when the request got that far), the flush
        of the output status, the session release and the recovery of a
        panic.  Returns the panic that escapes and the status it flushed to
        the server's writer (0 if none). */
    method CloseRequest(rw: HttpWriter, req: Request, env: Env, toAdmin: bool, findrouter: bool,
                        routerInfo: Option<ControllerInfo>, runrouter: Option<ControllerType>,
                        outputStatus: int, sessionStarted: bool, panic: Option<PanicValue>)
      returns (events: seq<Event>, escaped: Option<PanicValue>, flushed: int)
      modifies rw
      ensures Closed(events, escaped, flushed)
                == Close(config, req, env, toAdmin, findrouter, routerInfo, runrouter, outputStatus, sessionStarted, panic)
      ensures rw.headers == old(rw.headers) + (if flushed != 0 then [flushed] else []) && rw.body == old(rw.body)
      ensures forall i | 0 <= i < |events| :: Closing(events[i])
      ensures escaped == (if panic.Some? && Recover(panic.value, config).Repanicked? then panic else None)
      ensures escaped.Some? ==> !config.recoverPanic && escaped.value != Abort
      ensures toAdmin && outputStatus != 0 ==> flushed == outputStatus
      ensures flushed != 0 ==> toAdmin && flushed == outputStatus
      ensures flushed != 0 ==> |rw.headers| > 0 && rw.headers[|rw.headers| - 1] == flushed
    {
      ghost var spec := Close(config, req, env, toAdmin, findrouter, routerInfo, runrouter, outputStatus, sessionStarted, panic);
      events := [];
      escaped := None;
      flushed := 0;
      if toAdmin {
        if config.enableAdmin && env.monitor {
          events := [Statistics(if runrouter.Some? then runrouter.value.name else "")];
        }
        var logged := AccessLogEvents(config, req, findrouter, routerInfo);
        events := events + logged;
        if outputStatus != 0 {
          rw.WriteHeader(outputStatus);
          flushed := outputStatus;
        }
      }
      ghost var admin := events;
      if sessionStarted {
        events := events + [SessionRelease];
      }
      if panic.Some? {
        var recovery := Recover(panic.value, config);
        events := events + [Recovered(recovery)];
        if recovery.Repanicked? {
          escaped := panic;
        }
      }
      assert events == admin + (if sessionStarted then [SessionRelease] else [])
                             + (if panic.Some? then [Recovered(Recover(panic.value, config))] else []);
      assert Closed(events, escaped, flushed) == spec;
    }

    /** `ServeHTTP`: answers one request.  Returns the record of what it did
        and the panic that escapes it, if any; as ghosts, the route the lookup
        found and the output status flushed to the server's writer at the end
        (0 if none). */
    method ServeHTTP(rw: HttpWriter, req: Request, env: Env)
      returns (events: seq<Event>, escaped: Option<PanicValue>, ghost routed: Option<ControllerInfo>, ghost flushed: int)
      modifies rw
      ensures Served(events, escaped, rw.headers, rw.body) == Answer(Snapshot(), req, env, old(rw.headers), old(rw.body))
      ensures var b := Begin(Snapshot(), req, env, UrlPath(config, req), WriterState(false, 0, old(rw.headers), old(rw.body)),
                             NewContext);
              var r := RoutingPhase(Snapshot(), req, env, b);
              && routed == r.routerInfo
              && LookupFollowsBegin(Snapshot(), req, env, b, events)
              && escaped == (if r.panic.Some? && Recover(r.panic.value, config).Repanicked? then r.panic else None)
              && (r.next == ToAdmin && r.c.outputStatus != 0 ==> flushed == r.c.outputStatus)
      ensures req.verb !in HttpMethods ==>
                && |events| > 0 && events[0] == HttpError(405) && escaped == None && routed == None
                && rw.headers == old(rw.headers) + [405]
                && forall i | 0 <= i < |events| ::
                     !events[i].Lookup? && !events[i].RunFunction? && !events[i].ServeHandler? && !events[i].Controller?
      ensures AnswerJustified(Snapshot(), req, env, events, escaped, routed)
      ensures flushed != 0 ==> |rw.headers| > 0 && rw.headers[|rw.headers| - 1] == flushed
    {
      ghost var tb := Snapshot();
      ghost var headers0, body0 := rw.headers, rw.body;
      events, escaped, routed, flushed := RunPhases(rw, req, env);
      AnswerFacts(tb, req, env, headers0, body0, Served(events, escaped, rw.headers, rw.body), routed, flushed);
    }

    /** The three phases of `ServeHTTP`, with a new response writer and
        context: before routing, routing when the request got through, and
        closing. */
    method RunPhases(rw: HttpWriter, req: Request, env: Env)
      returns (events: seq<Event>, escaped: Option<PanicValue>, ghost routed: Option<ControllerInfo>, ghost flushed: int)
      modifies rw
      ensures Served(events, escaped, rw.headers, rw.body) == Answer(Snapshot(), req, env, old(rw.headers), old(rw.body))
      ensures var b := Begin(Snapshot(), req, env, UrlPath(config, req), WriterState(false, 0, old(rw.headers), old(rw.body)),
                             NewContext);
              var r := RoutingPhase(Snapshot(), req, env, b);
              && routed == r.routerInfo
              && flushed == Close(config, req, env, r.next == ToAdmin, r.findrouter, r.routerInfo, r.runrouter,
                                  r.c.outputStatus, b.sessionStarted, r.panic).flushed
    {
      ghost var tb := Snapshot();
      ghost var headers0, body0 := rw.headers, rw.body;
      var w := new ResponseWriter(rw);
      var ctx := new Context(req);
      var urlPath := UrlPath(config, req);
      var runrouter: Option<ControllerType> := None;
      var routerInfo: Option<ControllerInfo> := None;

      var next, pre, panic, sessionStarted, findrouter := BeginRequest(w, ctx, req, env, urlPath);
      ghost var b := Begun(next, pre, panic, sessionStarted, findrouter, w.State(), ctx.State());
      var mid := [];
      if next == Proceed {
        next, mid, panic, findrouter, routerInfo, runrouter := Route(rw, w, ctx, req, env, urlPath);
      }
      ghost var r := Routed(next, mid, panic, findrouter, routerInfo, runrouter, w.State(), ctx.State());
      assert r == RoutingPhase(tb, req, env, b);
      routed := routerInfo;
      var post;
      post, escaped, flushed :=
        CloseRequest(rw, req, env, next == ToAdmin, findrouter, routerInfo, runrouter, ctx.outputStatus, sessionStarted, panic);
      events := pre + mid + post;
    }

    /** `URLFor`: the URL the reverse lookup of the first verb's tree, in the
        order the walk visits the verbs, finds for the endpoint's controller
        method, the params paired from the values and handed from tree to
        tree; "" when the endpoint has no `.`, the values do not pair up or
        no tree has the method.  `shape` gives the structure of each tree.
        The verbs walked, and the order of the query's params, are returned
        as ghosts. */
    method URLFor(endpoint: string, values: seq<string>, shape: Tree -> UrlTree)
      returns (r: Result<string>, ghost visited: seq<string>, ghost order: seq<string>)
      ensures EndpointParts(endpoint).None? || |values| % 2 != 0 ==> r == Ok("")
      ensures EndpointParts(endpoint).Some? && |values| % 2 == 0 ==>
                var (controllName, methodName) := EndpointParts(endpoint).value;
                var trees := map v | v in routers :: shape(routers[v]);
                && (forall i | 0 <= i < |visited| :: visited[i] in routers)
                && (forall i, j | 0 <= i < j < |visited| :: visited[i] != visited[j])
                && var (res, _) := WalkTrees(visited, trees, controllName, methodName, PairUp(values));
                   && (res.None? ==> r == Ok("") && forall v | v in routers :: v in visited)
                   && (res.Some? && res.value.1.WalkHit? ==>
                         && IsOrder(order, res.value.1.rest)
                         && r == Ok(res.value.1.path + QueryString(order, res.value.1.rest)))
                   && (res.Some? && res.value.1.WalkCrash? ==> r == Panic(res.value.1.msg))
    {
      visited, order := [], [];
      var parts := EndpointParts(endpoint);
      if parts.None? {
        return Ok(""), [], [];
      }
      if |values| % 2 != 0 {
        return Ok(""), [], [];
      }
      var params := PairValues(values);
      var (controllName, methodName) := parts.value;
      ghost var trees := map v | v in routers :: shape(routers[v]);
      var rest := routers.Keys;
      while rest != {}
        invariant rest <= routers.Keys
        invariant forall i | 0 <= i < |visited| :: visited[i] in routers && visited[i] !in rest
        invariant forall v | v in routers :: v in rest || v in visited
        invariant forall i, j | 0 <= i < j < |visited| :: visited[i] != visited[j]
        invariant WalkTrees(visited, trees, controllName, methodName, PairUp(values)) == (None, params)
        decreases rest
      {
        var verb :| verb in rest;
        var res, ps, o := GetUrl(shape(routers[verb]), "/", controllName, methodName, params, verb);
        WalkTreesSnoc(visited, verb, trees, controllName, methodName, PairUp(values));
        OrderStep(visited, verb, rest, routers);
        visited := visited + [verb];
        params := ps;
        if res.Hit? {
          return Ok(res.url), visited, o;
        }
        if res.Crash? {
          return Panic(res.msg), visited, o;
        }
        rest := rest - {verb};
      }
      r := Ok("");
    }
  }
}
