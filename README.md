# beego router: route registration, request dispatch and reverse routing

This project models the routing front end of beego's `ControllerRegister`, found in `router.go`, and proves properties of the model. It covers four parts.

**Registration**
- `Add` parses the mapping string that sends verbs to controller methods. Its entry is then fanned out to the per-verb route trees.
- `addToRouter` lower-cases the pattern unless routing is case sensitive. It creates a verb's tree only when the tree is missing.
- Also modelled: `AddMethod`, `Handler`, `AddAutoPrefix`, `InsertFilter` and `insertFilterRouter`.
- The register is a class whose `routers`, `filters` and `enableFilter` fields these methods update in place.
- A route tree is seen through the sequence of insertions made into it.

**Dispatch**
- `ServeHTTP` runs in order:
  - the verb check;
  - the filter chains at the five execution points (`doFilter`);
  - the static server and the session;
  - the route lookup, with the `_method` override and the `:splat` expansion;
  - the 404 and 405 answers;
  - the RESTful, handler or struct-controller run, including the controller lifecycle and the XSRF check;
  - the statistics and access log;
  - the final status flush and panic recovery (`recoverPanic`).
- The `responseWriter` wrapper and the request context are classes.
- Code the router calls but cannot see is an `Effect` supplied by an environment record. This covers filters, handlers, controller stages and the static server.
- The method returns the sequence of collaborator calls and records it made.
- The environment also supplies the trie's `Match`.

**Reverse routing**
- `URLFor` checks and pairs its arguments.
- `geturl` walks a tree depth first: the fixed children, then the wildcard child, then the leaves. It fills the wildcards of the first leaf that serves the endpoint. The params map is shared across the walk and across the verbs' trees, so deletions persist even when a branch fails.
- `tourl` builds the query string in the map's iteration order.

**Small decisions**
- the access-log filter (`logFilter.Filter`);
- the branches of `recoverPanic`;
- the effective verb and the run method of a struct route.

Go map iteration order is unspecified. The loops over a Go map in registration, in `SetParams`, in `tourl` and over the verbs in `URLFor` are written with a nondeterministic choice (`:|`), and their contracts hold for every order. The one exception is `geturl`'s loop over a node's fixed children: it follows the order of the node's shape, as the `URLFor` line under "## Left out" says.

## Model

| member | source | states |
|---|---|---|
| Mapping.ParseMethodMapping | router.go:141-164 | The parsing loops yield exactly the map or the panic that the piece-by-piece definition `ParseMapping` gives. |
| Mapping.ParseMappingSpec | router.go:144-164 | A mapping is accepted iff every `;`-piece has exactly one `:`, only `*` or supported verbs (any case) before it, and a controller method after it. An accepted map is non-empty and its values are controller methods. Its keys are exactly the upper-cased verbs some piece lists. Each key maps to the method of the last piece that lists it. |
| Mapping.ParsePiecesSpec | router.go:146-164 | Over any list of pieces: the parse succeeds iff all pieces are well formed. It only adds keys and keeps keys and values valid. |
| Mapping.ParsedTargets | router.go:146-162 | Over any list of pieces: the keys of the parse are the starting keys plus every listed verb. A listed key maps to the method of the last piece that lists it; any other key keeps its starting value. |
| Mapping.ParsePiecesSnoc | router.go:146-163 | Parsing one more piece continues from the map the earlier pieces built, and a panic stays. |
| Mapping.LastListing | router.go:152-157 | Gives the last piece that lists a verb, or -1 when none does. |
| Mapping.AddVerbsOk | router.go:152-162 | The verb list of one piece is accepted iff every token is `*` or a supported verb and the target method exists. |
| Mapping.AddVerbsValue | router.go:152-157 | An accepted verb list maps each upper-cased token to the target. It keeps every other key's value. |
| Mapping.TrailingSemicolonPanics | router.go:145-150 | An empty mapping string, or one ending in `;`, panics with the format error. |
| Mapping.NoMappingEmpty | router.go:143-144 | Without a mapping argument the methods map is empty. |
| Mapping.AddMethodMap | router.go:320-335 | Panics with "not support http method" iff the verb is neither `*` nor a supported verb. For `*` it maps every supported verb to itself. Otherwise it holds exactly the upper-cased verb, mapped to itself. |
| Mapping.BuildMethodMap | router.go:321-335 | The map-building loop gives `AddMethodMap`'s result. |
| Register.ControllerRegister.constructor | router.go:123-128 | A new register has no trees, no filters, and filtering off. |
| Register.ControllerRegister.AddToRouter | router.go:188-199 | Stores the pattern, lower-cased unless case sensitive, in the verb's tree. It creates the tree only if missing and leaves every other verb's tree unchanged. |
| Register.ControllerRegister.AddToAllVerbs | router.go:171-174 | Appends one insertion to every supported verb's tree and touches no other tree. The set of trees grows by exactly the supported verbs. |
| Register.TreesFor | router.go:171-185 | A verb's tree is touched by a fan-out iff the keys contain `*` and the verb is supported, or the keys contain the verb itself. |
| Register.ControllerRegister.FanOut | router.go:176-184 | For every verb, the new insertions are the old ones plus one copy of the entry per key that hits it (`*` hits every supported verb). This holds for any iteration order. |
| Register.ControllerRegister.Add | router.go:140-186 | On a malformed mapping, panics with `ParseMapping`'s message and changes nothing. Otherwise it fans the route out: into every verb's tree when the map is empty, else per key. |
| Register.ControllerRegister.AddMethod | router.go:320-346 | Panics for an unsupported verb and changes nothing. Otherwise it fans a RESTful route out per key of `AddMethodMap`. |
| Register.HandlerPattern | router.go:354-358 | Definition: a bool first option, `false` included, appends `?:all` to the pattern. Anything else leaves the pattern as it is. |
| Register.ControllerRegister.Handler | router.go:349-362 | Appends the handler route, with `HandlerPattern`'s pattern, to every supported verb's tree and to no other. |
| Register.ControllerRegister.AddFourToRouter | router.go:396-399 | Appends the four patterns, in order, to one verb's tree and leaves the others alone. |
| Register.ControllerRegister.AddFourToAllVerbs | router.go:395-400 | Appends the four insertions to every supported verb's tree. |
| Register.ControllerRegister.AddAutoPrefix | router.go:378-402 | Every verb's tree gets the four insertions of each method not in the exclusion list, in method order, and nothing else. Trees appear only when at least one method qualifies. |
| Register.NewFilterRouter | router.go:406-421 | Definition: the halt flag is true when no bool is given, else the first bool. The tree pattern is lower-cased unless case sensitive. |
| Register.ControllerRegister.InsertFilter | router.go:406-422 | Appends the new filter entry to its position's list, turns filtering on and returns nil. |
| Register.ControllerRegister.InsertFilterRouter | router.go:425-429 | Appends at the end of the position's list, leaves every other position's list unchanged, turns filtering on and returns nil. |
| Response.ResponseWriter.Write | router.go:911-914 | Marks output as started and forwards exactly the given bytes to the underlying writer. |
| Response.ResponseWriter.WriteHeader | router.go:918-922 | Records the status, marks output as started and forwards the status. |
| Response.Context.SetParams | router.go:617-622 | Copies every captured param into the context, overriding existing values, in any order. |
| Response.Context.ReplaceParams | router.go:704-706 | A non-nil match map replaces the context params. |
| Pipeline.Visit | router.go:616-623 | A matching filter's callback is called with the context params merged with the filter's captures. Its effect is then applied to the writer and to that merged context, and its panic is reported. A non-matching filter changes nothing. |
| Pipeline.DoFilterSpec | router.go:610-611 | Definition: nothing runs unless filtering is on and the position has a list. Otherwise it is the `RunFilters` walk. |
| Pipeline.DoFilter | router.go:609-632 | The loop ends as the walk `RunFilters` defines: same halt flag, panic, writer state and context state. |
| Pipeline.NeverHaltsWithoutReturnOnOutput | router.go:613-626 | A chain with no returnOnOutput filter never reports a halt. |
| Pipeline.HaltMeansStarted | router.go:613-626 | A halt is only reported once output has started. |
| Pipeline.HaltsAtFirstReturnOnOutput | router.go:613-615 | Once output has started, the chain halts no later than the first returnOnOutput filter, unless an earlier filter panicked. |
| Pipeline.CompletesWithoutHalt | router.go:612-628 | A walk that neither halts nor panics gets past every filter. |
| Pipeline.MergeCapturedSnoc | router.go:617-622 | Captured params merge last-write-wins. |
| Pipeline.ParamsAfterWalk | router.go:612-628 | When no callback sets the params itself, the params after a walk are the params before it, with the captures of each filter passed merged in order. |
| Dispatch.UrlPath | router.go:602-607 | Definition: the lookup path is the request path, lower-cased unless case sensitive. |
| Dispatch.LookupVerb | router.go:685-693 | A POST whose `_method` is PUT or DELETE is looked up under that verb. Every other request uses its own verb. |
| Dispatch.LookupVerbSupported | router.go:634-637 | After the verb check the lookup verb is supported. The override changes only POST, and only into PUT or DELETE. |
| Dispatch.RunMethodFor | router.go:745-751 | Definition: the run method is the verb's entry, else the `*` entry, else the verb itself. Its properties are in `RunMethodIsMapped`. |
| Dispatch.RunMethodIsMapped | router.go:745-751 | For a map `Add` accepted, the run method is a controller method unless neither the verb nor `*` is mapped. |
| Dispatch.SplatMap | router.go:698-703 | Every index of the split splat has its decimal key. |
| Dispatch.SplatMapAt | router.go:700-702 | Index `k`'s key holds the `k`-th piece. |
| Dispatch.ExplodeSplat | router.go:698-703 | Without `:splat` the params are unchanged. With it, the result is the params plus each `/`-piece under its decimal index. |
| Dispatch.ExplodedSplat | router.go:698-703 | After expansion, index `k` holds piece `k`, and any key that is no piece index keeps its presence and value. |
| Dispatch.XsrfCheckVerbs | router.go:773-774 | The XSRF cookie check runs iff the real verb is POST, DELETE or PUT. The override clause adds nothing. |
| Dispatch.LogFilter | router.go:88-99 | Logging is skipped iff the cleaned path is `/favicon.ico` or `/robots.txt`, or starts with a static directory prefix. |
| Dispatch.Recover | router.go:863-893 | Each condition, both ways: the abort sentinel is swallowed; without recovery the same value re-panics; with error pages on, a registered error code shows its page; anything else is logged, with the error shown in development mode. |
| Dispatch.AccessLogEvents | router.go:841-855 | An access-log record is written, with the matched pattern when a route was found, iff development mode or access logs are on and the log filter does not skip the path. |
| Register.ControllerRegister.BeginRequest | router.go:634-674 | The pre-routing phase ends as `Begin` defines. An unsupported verb writes 405, makes no other record and goes to the closing phase. Only pre-routing records are made. A stop without a panic means the session start failed and the 503 was recorded. Finding a route early means the closing phase comes next. |
| Register.ControllerRegister.BeforeRouting | router.go:634-674 | The verb check, the before-static filters, the static server, the session start and the before-router filters end as `Begin` defines. |
| Serve.BeginOutcomes | router.go:634-674 | For every case of the pre-routing phase: an unsupported verb answers 405 and goes to closing. A before-static filter that halts or panics stops there with no record. A static file served sets `findrouter` and goes to closing. A failed session start records the 503 and stops. Otherwise the before-router filters decide: a panic stops, a halt goes to closing, and anything else proceeds. |
| Register.ControllerRegister.FindRouter | router.go:676-710 | A controller and method chosen by a filter win, with no lookup and the params untouched. Otherwise there is exactly one lookup, under the lookup verb, and a route is found iff the verb's tree matches the path. A match with params replaces the context params with those params after the `:splat` expansion. Otherwise the params stay. |
| Serve.FindOutcomes | router.go:676-710 | A filter's choice wins with no lookup. Otherwise there is one lookup under `LookupVerb`, a route is found iff it matches, and the params of a match replace the context params after the `:splat` expansion. The chosen controller, method and status never change. |
| Serve.FindExplodesSplat | router.go:698-706 | After a lookup whose match has params, each `/`-piece of `:splat` is a context param under its index. Without `:splat` the context params are the match's params. |
| Register.ControllerRegister.RunController | router.go:756-818 | The stages run as `Lifecycle` defines. The record starts with Init for the chosen controller and run method, which runs once. Every record is a lifecycle stage. The XSRF cookie check runs only when XSRF is on and the verb requires it. |
| Register.ControllerRegister.RunStep | router.go:756-818 | One lifecycle stage is recorded and its effect is applied, as `Stage` defines. |
| Register.ControllerRegister.RunPreliminaries | router.go:756-780 | Init, Prepare, the XSRF token and check, and the URL mapping run as `Preliminaries` defines, stopping at the first panic. |
| Register.ControllerRegister.RunMainStages | router.go:781-818 | The action and render stages run as `MainStages` defines. |
| Serve.LifecycleRecords | router.go:756-818 | Every lifecycle starts with Init for the controller and method, which runs once. Every record is a stage. The XSRF cookie check runs only when XSRF is on and the verb requires it. |
| Serve.LifecycleSequence | router.go:756-818 | When no stage panics, the records are, in order: Init and Prepare; the XSRF token when XSRF is on; the cookie check when the verb also requires it; the URL mapping; the action iff output has not started; Render iff output has still not started, the status is 0 and auto-render is on; and Finish last. |
| Serve.StageRun | router.go:756-818 | Adding one stage in the allowed position keeps the record a lifecycle run. |
| Register.ControllerRegister.Execute | router.go:719-826 | The before-exec filters and the run end as `Exec` defines. When those filters pass, a RESTful route without the request verb answers 405. One with the verb runs its function. A handler route runs its handler. A struct route starts the lifecycle of its controller with `RunMethodFor`'s method. A missing controller panics. Every record is justified by the route, and only a panic stops the request. |
| Register.ControllerRegister.ExecuteSteps | router.go:719-826 | The before-exec filters and the run end as `Exec` defines. |
| Register.ControllerRegister.RunFound | router.go:725-818 | The RESTful function, the handler or the controller lifecycle runs as `Run` defines. |
| Serve.RunStarts | router.go:725-818 | A RESTful route runs exactly its function. A handler route runs exactly its handler. A struct route, or a filter's choice with no route, starts with Init of the target controller and method. No controller type means the reflection panic. |
| Serve.ExecOutcomes | router.go:719-826 | When the before-exec filters pass, the forward outcome follows the route: the 405, the function, the handler or the lifecycle with `RunMethodFor`'s method. |
| Serve.ExecRecords | router.go:719-826 | Only a panic stops. The records are none when the filters halt, the 405 for a RESTful route without the verb, and the run's records otherwise. |
| Serve.ExecJustified | router.go:719-826 | Every record of the run is an execution record justified by the route, and only a panic stops. |
| Serve.ExecLifecycle | router.go:745-818 | Lifecycle records appear only for a struct route or a filter's choice. Their Init names `RunMethodFor`'s method for a route and the chosen method otherwise. The XSRF cookie check needs XSRF on and a verb that requires it. |
| Register.ControllerRegister.Route | router.go:676-826 | No route means a 404, and a 404 means the lookup found nothing. A found route came from the lookup verb's tree. The run rules of `Execute` hold for that route. |
| Serve.RouteOutcomes | router.go:676-826 | Only a panic stops. Every record is a routing record, and the records are justified by the lookup and the route found. |
| Serve.LookupThenRun | router.go:676-826 | A lookup record followed by run records justified by the route it found is a justified routing record. |
| Register.ControllerRegister.CloseRequest | router.go:828-860 | Ends as `Close` defines. Only closing records are made. A status that was set is flushed on the way to the admin phase, and it is the last header the server's writer gets. Nothing else is flushed. A panic escapes exactly when `recoverPanic` re-panics it: never the abort sentinel, and only when recovery is off. |
| Serve.CloseRecords | router.go:828-860 | The closing phase makes only closing records. |
| Register.ControllerRegister.ServeHTTP | router.go:577-861 | The answer is `Answer`'s: the three phases in order. An unsupported verb gets a 405 and nothing is looked up or run. When the pre-routing phase proceeds and no filter chose a controller, there is a lookup under `LookupVerb`, and a 404 iff it found nothing. Every run record agrees with the route found. A panic escapes iff `recoverPanic` re-panics it. A status set on the way to the admin phase is flushed last. |
| Register.ControllerRegister.RunPhases | router.go:577-861 | The three phases end as `Answer` defines, and report the route found and the status flushed. |
| Serve.ServePhases | router.go:577-861 | The answer's records are the pre-routing, routing and closing records in that order. Nothing is routed when the pre-routing phase does not proceed. |
| Serve.ServeJustified | router.go:577-861 | Every record in the answer is justified by the lookup, the route found and the configuration. |
| Serve.ServeUnknownVerb | router.go:634-637 | An unsupported verb answers 405 with the text `Method Not Allowed`, then makes only closing records, and nothing escapes. Nothing is routed. |
| Serve.ServeHaltsBeforeRouting | router.go:634-674 | When the pre-routing phase does not proceed (an unsupported verb, a filter that halts or panics, a static file served, a failed session), nothing is looked up or run. |
| Serve.ServeLooksUp | router.go:676-711 | When the pre-routing phase proceeds and no filter chose a controller, the answer has a lookup under `LookupVerb`, and it has a 404 iff the lookup found nothing. |
| Serve.ServeHaltsAndLooksUp | router.go:634-711 | Nothing is looked up or run unless the pre-routing phase proceeds. When it proceeds and no filter chose a controller, there is a lookup under `LookupVerb`, and a 404 iff it found nothing. |
| Serve.ServeRunsRoute | router.go:719-818 | For a route found whose before-exec filters pass, the answer has the 405 for a RESTful route without the verb, the function for one with it, the handler for a handler route, and Init with `RunMethodFor`'s method for a struct route. |
| Serve.ServeCloses | router.go:828-870 | A panic escapes exactly when `recoverPanic` re-panics it, and the recovery record is last. A status set on the way to the admin phase is the last header, and the body is what the routing phase wrote. |
| Serve.AnswerFacts | router.go:577-870 | The facts `ServeHTTP` promises follow from `Answer`: the lookup rule, the escaping panic, the flushed status, the unknown-verb answer and the justification of every record. |
| Reverse.ToUrl | router.go:940-949 | The query is `QueryString` of the pairs, in an order that lists every key exactly once. The query is empty exactly when there are no pairs, and otherwise it starts with `?`. |
| Reverse.QueryStringEmpty | router.go:941-943 | The query is empty iff there are no params. |
| Reverse.QueryStringPairs | router.go:944-948 | When no value ends in `&`, the query is `?` followed by the `k=v` pairs joined by `&`, whatever the iteration order. |
| Reverse.JoinEndsWithoutAmp | router.go:944-948 | When no value ends in `&`, the joined pairs do not end in `&`, so the final trim removes nothing else. |
| Reverse.FindMethod | router.go:482-498 | The `find` decision equals `MethodFound`: the quick checks for a verb-named method, then the scan over the mapping. |
| Reverse.MethodFoundUnmapped | router.go:483-486 | A route with no mapping serves exactly the verb-named methods. |
| Reverse.MethodFoundStar | router.go:493-497 | A method mapped under `*` is found from every verb's tree. |
| Reverse.FillWildcards | router.go:522-538 | The `canskip` loop yields `SkipFill`'s outcome. |
| Reverse.ScanRegexp | router.go:543-560 | The regular-expression scan yields `RegexScan`'s outcome. |
| Reverse.FillPlaceholders | router.go:562-565 | The pieces replace the placeholders one by one, as `FillPieces` defines. |
| Reverse.FillLeaf | router.go:502-567 | Filling a found leaf gives `LeafFill`'s outcome. |
| Reverse.SingleWildcard | router.go:506-512 | A single-wildcard leaf fills iff its param is present. The param is removed before the leftovers form the query, and its value replaces the placeholder. Otherwise the walk fails with the params unchanged. |
| Reverse.SkipFillAllPresent | router.go:522-538 | When every wildcard is present, the leaf fills and exactly those params are consumed. |
| Reverse.SkipAfterMarker | router.go:523-535 | A `:` marker followed by a missing wildcard is passed over, and the fill goes on as if neither were there. |
| Reverse.SkipOnlyOnce | router.go:523-535 | A `:` marker followed by two missing wildcards fails the leaf, with the params unchanged. |
| Reverse.FailedFillKeepsDeletions | router.go:522-536 | For any number of present wildcards followed by a missing one, the leaf fails and every present wildcard's param stays deleted. |
| Reverse.SkipFillConsumes | router.go:522-538 | The wildcard loop only deletes params. |
| Reverse.RegexScanConsumes | router.go:543-560 | The regular-expression scan only deletes params. |
| Reverse.LeafFillConsumes | router.go:502-567 | Filling any leaf only deletes params. |
| Reverse.RegexScanInRange | router.go:547-549 | The scan cannot index past the wildcards when the expression has no more groups than the leaf has wildcards. |
| Reverse.GetUrl | router.go:465-574 | The loops give the answer of `Walk` and the params it leaves. `Walk` visits the fixed children in order, then the wildcard child at the placeholder segment, then the leaves. A leaf that does not serve the endpoint is passed over; a filled leaf answers; a failed one ends the node's leaves keeping its deletions; a skipped one goes on. The first answer wins, and each step starts from the params the previous one left. A URL is the filled path plus the query of the leftover params, in an order that lists each exactly once, so it is the bare path iff no param is left over. Nothing is answered iff the walk misses, and a panic is the walk's. |
| Reverse.WalkSound | router.go:465-574 | The walk only deletes params. It answers only when the tree has a leaf that serves the endpoint, and a tree without one answers nothing and leaves the params untouched. |
| Reverse.WalkFixedSound | router.go:466-472 | The same for the walk over the fixed children from a given position. |
| Reverse.WalkLeavesSound | router.go:481-570 | The same for the walk over a node's leaves. |
| Reverse.SingleWildcardRoute | router.go:473-511 | A `/user/:id` node, whose wildcard child has one leaf serving the endpoint with one wildcard whose value is given, answers the node's URL with that value in the wildcard's segment. The param is removed and the rest are left for the query. |
| Reverse.EndpointParts | router.go:434-438 | An endpoint names a controller and method iff splitting it on `.` gives more than one piece. |
| Reverse.EndpointNeedsDot | router.go:434-438 | An endpoint without `.` names nothing, and the method name holds no `.`. |
| Reverse.PairValues | router.go:443-453 | The pairing loop gives `PairUp`'s map. |
| Reverse.PairUpValues | router.go:443-453 | Every key comes from an even position. A key's value is the value after its last occurrence as a key. |
| Register.ControllerRegister.URLFor | router.go:433-462 | Returns "" when the endpoint has no `.` or the values are odd in number. Otherwise the verbs' trees are walked one by one, each at most once, with the params paired from the values handed from tree to tree, as `WalkTrees` defines: each tree starts from the params the previous ones left. The first tree that answers gives the URL or the panic. When none answers, every tree was walked and the result is "". |
| Reverse.WalkTreesSnoc | router.go:455-461 | Walking one more tree after trees that answered nothing continues from the params they left. |
| Reverse.WalkTreesSound | router.go:455-461 | The walk only deletes params. An answer comes from a walked verb's tree that has a serving leaf, and trees without one answer nothing. |

## Left out

- `Include`: it reads GOPATH and the file system and generates code. It is not modelled.
- The `Get`, `Post`, `Put`, `Delete`, `Head`, `Patch`, `Options` and `Any` wrappers and `AddAuto` are not modelled. They are one-line calls to `AddMethod` and `AddAutoPrefix`.
- Reflection: a controller type is its package path, its name and its list of exported method names. Method existence (`MethodByName`) is membership in that list.
- The "controller is not ControllerInterface" panic cannot arise in this model, because every controller type satisfies the interface.
- Route trees: `NewTree`, `AddRouter`, `Match` and `FilterRouter.ValidRouter` are defined outside this file. A tree is the log of its insertions. Matching is a function the environment supplies. Reverse lookup sees a tree through a shape function, also supplied, that gives its fixed children, wildcard child and leaves.
- Register.ControllerRegister.URLFor: Go visits `p.routers` in an unspecified order. The model picks each verb with `:|`, and the ghost `visited` names the order taken. A route object in a leaf is always a route descriptor.
- Reverse.GetUrl: Go visits a node's `fixrouters` map in an unspecified order. The model walks them in the order of the shape's sequence, so one sequence stands for one run's order. The query's order is returned as the ghost `order`, which lists each leftover param once.
- Pipeline.ParamsAfterWalk: stated only for walks whose callbacks never replace the params (`KeepsParams`). A callback that does replace them decides the params, as `ApplyContext` says.
- Regular expressions: a leaf's expression is its source text and a match predicate. It is not compiled.
- Controller lifecycle bodies, filter callbacks, handlers, RESTful functions and the static server are opaque. Each is an `Effect` that may write, set a status, choose a controller, replace the route params, and panic.
- `ServeHTTP` records that it calls the static server, the session manager, the body reader and the exception pages. It does not model what they do.
- The access-log filter is assumed to be the router's own `logFilter`. A user-installed filter is not modelled.
- Case mapping is ASCII only, and `fmt.Sprint` of a value is the value's text.
- The metrics goroutine, the timing, the `Sprintf` formatting of the access log, the stack capture with `runtime.Caller`, and `Hijack`, `Flush` and `Header` are not modelled.
- The `Server` header set in development mode is not modelled.
- Write errors of the server's writer are not modelled: writes always succeed.
- Register.ControllerRegister.ServeHTTP: the 405 body is the text only. The `Content-Type` header of `http.Error` is not modelled.
