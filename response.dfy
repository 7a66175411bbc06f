/** The per-request objects of the dispatch loop: the server's writer, the
    `responseWriter` wrapper that remembers whether output has started, the
    request, the context, and the effect a piece of foreign code has on them. */
module Response {
  import opened Routes

  newtype byte = x: int | 0 <= x < 256

  /** The bytes of an ASCII text. */
  function Bytes(s: string): (b: seq<byte>)
    ensures |b| == |s|
  {
    seq(|s|, i requires 0 <= i < |s| => (s[i] as int % 256) as byte)
  }

  /** An incoming request: its verb (`Method`), its URL path and its query values. */
  datatype Request = Request(verb: string, path: string, query: map<string, string>)

  /** `Input.Query`: the query value of `key`, or "" when it is absent. */
  function Query(req: Request, key: string): (v: string)
    ensures key in req.query ==> v == req.query[key]
    ensures key !in req.query ==> v == ""
  {
    if key in req.query then req.query[key] else ""
  }

  /** The value a panic carries: the controller's abort sentinel, or any
      other value, seen through its printed text. */
  datatype PanicValue = Abort | PanicWith(text: string)

  /** What a piece of code outside the router does to the request objects
      when it runs: an optional body write and header write on the wrapper, an
      optional output status, an optional controller and method for the
      router to run, optional new route params, and an optional panic raised
      after all of those. */
  datatype Effect = Effect(
    write: Option<seq<byte>>,
    writeHeader: Option<int>,
    setStatus: Option<int>,
    route: Option<(ControllerType, string)>,
    params: Option<map<string, string>>,
    panic: Option<PanicValue>)

  /** The server's writer (`http.ResponseWriter`): the status codes and the
      body bytes it has been handed. */
  class HttpWriter {
    var headers: seq<int>
    var body: seq<byte>

    constructor ()
      ensures headers == [] && body == []
    {
      headers := [];
      body := [];
    }

    method Write(p: seq<byte>) returns (n: int)
      modifies this
      ensures n == |p|
      ensures body == old(body) + p && headers == old(headers)
    {
      body := body + p;
      n := |p|;
    }

    method WriteHeader(code: int)
      modifies this
      ensures headers == old(headers) + [code] && body == old(body)
    {
      headers := headers + [code];
    }
  }

  /** A snapshot of the wrapper and the writer beneath it. */
  datatype WriterState = WriterState(started: bool, status: int, headers: seq<int>, body: seq<byte>)

  /** `responseWriter`: forwards to the server's writer and remembers that
      output has started. */
  class ResponseWriter {
    const writer: HttpWriter
    var started: bool
    var status: int

    constructor (writer: HttpWriter)
      ensures this.writer == writer && !started && status == 0
    {
      this.writer := writer;
      started := false;
      status := 0;
    }

    function State(): WriterState
      reads this, writer
    {
      WriterState(started, status, writer.headers, writer.body)
    }

    /** `Write`: marks output as started and forwards the bytes. */
    method Write(p: seq<byte>) returns (n: int)
      modifies this, writer
      ensures n == |p|
      ensures State() == old(State()).(started := true, body := old(writer.body) + p)
    {
      started := true;
      n := writer.Write(p);
    }

    /** `WriteHeader`: records the status, marks output as started and
        forwards the status. */
    method WriteHeader(code: int)
      modifies this, writer
      ensures State() == old(State()).(started := true, status := code, headers := old(writer.headers) + [code])
    {
      status := code;
      started := true;
      writer.WriteHeader(code);
    }
  }

  /** A snapshot of the context fields the router reads and writes. */
  datatype ContextState = ContextState(
    params: map<string, string>,
    runController: Option<ControllerType>,
    runMethod: string,
    outputStatus: int)

  /** The request context: the request, the route params, the controller and
      method a filter may have chosen, and the output status. */
  class Context {
    const request: Request
    var params: map<string, string>
    var runController: Option<ControllerType>
    var runMethod: string
    var outputStatus: int

    constructor (request: Request)
      ensures this.request == request
      ensures params == map[] && runController == None && runMethod == "" && outputStatus == 0
    {
      this.request := request;
      params := map[];
      runController := None;
      runMethod := "";
      outputStatus := 0;
    }

    function State(): ContextState
      reads this
    {
      ContextState(params, runController, runMethod, outputStatus)
    }

    /** The `for k, v := range params` loop: copies every captured param into
        the context, replacing a value already there. */
    method SetParams(ps: map<string, string>)
      modifies this
      ensures State() == old(State()).(params := old(params) + ps)
    {
      var rest := ps.Keys;
      while rest != {}
        invariant rest <= ps.Keys
        invariant forall k | k in ps.Keys - rest :: k in params && params[k] == ps[k]
        invariant forall k | k !in ps.Keys - rest :: (k in params <==> k in old(params))
        invariant forall k | k !in ps.Keys - rest && k in params :: params[k] == old(params)[k]
        invariant State() == old(State()).(params := params)
        decreases rest
      {
        var k :| k in rest;
        params := params[k := ps[k]];
        rest := rest - {k};
      }
      assert params == old(params) + ps;
    }

    /** Replaces the params wholesale, as the lookup does with a non-nil map. */
    method ReplaceParams(ps: map<string, string>)
      modifies this
      ensures State() == old(State()).(params := ps)
    {
      params := ps;
    }
  }

  /** The new writer state after an effect. */
  function ApplyWriter(w: WriterState, e: Effect): (w': WriterState)
    ensures w'.started <==> w.started || e.write.Some? || e.writeHeader.Some?
    ensures w'.status == (if e.writeHeader.Some? then e.writeHeader.value else w.status)
    ensures w'.headers == w.headers + (if e.writeHeader.Some? then [e.writeHeader.value] else [])
    ensures w'.body == w.body + (if e.write.Some? then e.write.value else [])
  {
    var w1 := if e.write.Some? then w.(started := true, body := w.body + e.write.value) else w;
    if e.writeHeader.Some? then
      w1.(started := true, status := e.writeHeader.value, headers := w1.headers + [e.writeHeader.value])
    else w1
  }

  /** The new context state after an effect. */
  function ApplyContext(c: ContextState, e: Effect): (c': ContextState)
    ensures c'.params == (if e.params.Some? then e.params.value else c.params)
    ensures c'.outputStatus == (if e.setStatus.Some? then e.setStatus.value else c.outputStatus)
    ensures e.route.None? ==> c'.runController == c.runController && c'.runMethod == c.runMethod
    ensures e.route.Some? ==> c'.runController == Some(e.route.value.0) && c'.runMethod == e.route.value.1
  {
    var c1 := if e.setStatus.Some? then c.(outputStatus := e.setStatus.value) else c;
    var c2 := if e.params.Some? then c1.(params := e.params.value) else c1;
    if e.route.Some? then c2.(runController := Some(e.route.value.0), runMethod := e.route.value.1) else c2
  }

  /** Runs a piece of foreign code: its writes go through the wrapper, its
      context changes into the context, and its panic, if any, comes back. */
  method Perform(e: Effect, w: ResponseWriter, ctx: Context) returns (panic: Option<PanicValue>)
    modifies w, w.writer, ctx
    ensures panic == e.panic
    ensures w.State() == ApplyWriter(old(w.State()), e)
    ensures ctx.State() == ApplyContext(old(ctx.State()), e)
  {
    if e.write.Some? {
      var _ := w.Write(e.write.value);
    }
    if e.writeHeader.Some? {
      w.WriteHeader(e.writeHeader.value);
    }
    if e.setStatus.Some? {
      ctx.outputStatus := e.setStatus.value;
    }
    if e.params.Some? {
      ctx.params := e.params.value;
    }
    if e.route.Some? {
      ctx.runController := Some(e.route.value.0);
      ctx.runMethod := e.route.value.1;
    }
    panic := e.panic;
  }

  /** Runs code that is handed the server's writer itself (a raw handler):
      its writes bypass the wrapper, and its panic, if any, comes back. */
  method PerformOnWriter(e: Effect, rw: HttpWriter) returns (panic: Option<PanicValue>)
    modifies rw
    ensures panic == e.panic
    ensures rw.body == old(rw.body) + (if e.write.Some? then e.write.value else [])
    ensures rw.headers == old(rw.headers) + (if e.writeHeader.Some? then [e.writeHeader.value] else [])
  {
    if e.write.Some? {
      var _ := rw.Write(e.write.value);
    }
    if e.writeHeader.Some? {
      rw.WriteHeader(e.writeHeader.value);
    }
    panic := e.panic;
  }
}
