/**
  The backend-independent part of the tracing library (tracing.go): the values the
  Tracing capability works on, the backend Registry with its no-op fallback, the
  no-op backend itself, and the request-tagging middleware MuxTagging.

  Foreign collaborators are observed, not executed: the logger is a list of log
  lines, span operations are a list of span events, and the calls the middleware
  makes on the tracer and on the wrapped handler are a list of calls.
 */
module Tracing {
  import opened Wrappers

  // ---------------------------------------------------------------------------
  // Errors

  /** A Go error value: `Plain` comes from fmt.Errorf without %w, `Wrapped` from
      fmt.Errorf("<context>: %w", cause). */
  datatype Error = Plain(message: string) | Wrapped(context: string, cause: Error)
  {
    /** The string that err.Error() returns. */
    function Text(): string {
      match this
      case Plain(m) => m
      case Wrapped(c, inner) => c + ": " + inner.Text()
    }

    /** errors.Unwrap: the wrapped cause, if any. */
    function Unwrap(): Option<Error> {
      if Wrapped? then Some(cause) else None
    }
  }

  /** `part` occurs somewhere inside `s`. */
  predicate Mentions(s: string, part: string) {
    exists i :: 0 <= i <= |s| - |part| && Slice(s, i, |part|) == part
  }

  /** The n characters of s that start at index i. */
  function Slice(s: string, i: nat, n: nat): string
    requires i + n <= |s|
  {
    s[i..i + n]
  }

  lemma MentionsMiddle(a: string, b: string, c: string)
    ensures Mentions(a + b + c, b)
  {
    var s := a + b + c;
    assert Slice(s, |a|, |b|) == b;
  }

  // ---------------------------------------------------------------------------
  // Values the capability works on

  /** A *zapctx.Logger handle; only its identity matters to this library. */
  datatype Logger = Logger(id: nat)

  /** A line logged at informational level through a logger. */
  datatype LogLine = Info(logger: Logger, message: string)

  /** The configuration handed to every backend constructor (Config in tracing.go). */
  datatype Config = Config(serviceName: string, log: Logger, env: seq<string>)

  datatype SpanConfig = SpanConfig(operationName: string)

  /** Go's uint64, the type of trace and span identifiers. */
  newtype u64 = x: int | 0 <= x < 0x1_0000_0000_0000_0000

  /** The identity of one span. */
  datatype Span = Span(traceId: u64, spanId: u64)

  /** A context.Context, reduced to the span that is active in it, if any. */
  datatype Context = Context(span: Option<Span>)

  /** Tag values (interface{} in Go) restricted to the kinds this library produces. */
  datatype TagValue = Str(s: string) | Int(i: int) | Bool(b: bool)

  /** A structured log field (zap.Field); only zap.Uint64 fields are produced here. */
  datatype Field = Uint64Field(key: string, value: u64)

  datatype FinishOption = WithError(err: Error)

  /** What a backend does to spans, in the order it does it. */
  datatype SpanEvent =
    | SpanStarted(span: Span, operation: string)
    | CallbackCalled(ctx: Context)
    | TagSet(span: Span, key: string, value: TagValue)
    | SpanFinished(span: Span, options: seq<FinishOption>)

  /** The callback handed to StartSpanFromContext; its result is the error it returns (None is nil). */
  type Callback = Context -> Option<Error>

  /** An http.RoundTripper: a base transport, possibly decorated by a tracing wrapper. */
  datatype RoundTripper = Transport(id: nat) | Decorated(decorator: string, inner: RoundTripper)

  /** A *mux.Router with the routes registered on it. */
  datatype Router = Router(routes: seq<string>)

  datatype RouterOption = WithServiceName(name: string)

  /** An http.Handler: a bare router, a router wrapped by the tracing router, or application code. */
  datatype Handler =
    | RouterHandler(router: Router)
    | InstrumentedRouter(router: Router, options: seq<RouterOption>)
    | AppHandler(id: nat)

  datatype InterceptorKind = UnaryServer | StreamServer | UnaryClient | StreamClient

  /** A gRPC interceptor that traces every RPC of its service except the untraced methods. */
  datatype Interceptor = Interceptor(kind: InterceptorKind, serviceName: string, untracedMethods: seq<string>)

  // ---------------------------------------------------------------------------
  // Registry

  /** A value of the Tracing interface: the no-op backend or a live backend of type B. */
  datatype Tracer<B> = Noop | Live(backend: B)

  /** A backend constructor, `func(config Config) (Tracing, error)`. */
  type Constructor<B> = Config -> Result<B, Error>

  datatype Registry<B> = Registry(constructors: map<string, Constructor<B>>)

  /** The result of New together with the lines it logged. */
  datatype Resolution<B> = Resolution(result: Result<Tracer<B>, Error>, logged: seq<LogLine>)

  const NoopMessage := "returning no-op tracer"

  /** Registry.New; `registry` is None for a nil *Registry. */
  function New<B>(registry: Option<Registry<B>>, name: string, config: Config): (r: Resolution<B>)
    // no name or no registry: the no-op backend, never an error, whatever is registered
    ensures name == "" || registry.None? ==>
              r.result == Success(Noop) && r.logged == [Info(config.log, NoopMessage)]
    ensures r.logged != [] <==> name == "" || registry.None?
    // an unknown name: an error with no cause
    ensures name != "" && registry.Some? && name !in registry.value.constructors ==>
              r.result.Failure? && r.result.error.Unwrap() == None
    // a registered name: exactly the constructor's backend, or its error wrapped
    ensures name != "" && registry.Some? && name in registry.value.constructors ==>
              match registry.value.constructors[name](config)
              case Success(b) => r.result == Success(Live(b))
              case Failure(e) =>
                r.result.Failure? && r.result.error.Unwrap() == Some(e) && Mentions(r.result.error.Text(), e.Text())
    // every error names the requested backend
    ensures r.result.Failure? ==> Mentions(r.result.error.Text(), name)
  {
    if name == "" || registry.None? then
      Resolution(Success(Noop), [Info(config.log, NoopMessage)])
    else if name !in registry.value.constructors then
      MentionsMiddle("unable to find tracer named: ", name, "");
      assert "unable to find tracer named: " + name + "" == "unable to find tracer named: " + name;
      Resolution(Failure(Plain("unable to find tracer named: " + name)), [])
    else
      match registry.value.constructors[name](config)
      case Failure(e) =>
        var err := Wrapped("unable to create registry " + name, e);
        assert err.Text() == "unable to create registry " + name + (": " + e.Text());
        assert err.Text() == ("unable to create registry " + name + ": ") + e.Text() + "";
        MentionsMiddle("unable to create registry ", name, ": " + e.Text());
        MentionsMiddle("unable to create registry " + name + ": ", e.Text(), "");
        Resolution(Failure(Wrapped("unable to create registry " + name, e)), [])
      case Success(b) =>
        Resolution(Success(Live(b)), [])
  }

  // ---------------------------------------------------------------------------
  // The no-op backend

  function NoopGrpcServerInterceptors(serviceName: string): (r: (seq<Interceptor>, seq<Interceptor>))
    ensures r.0 == [] && r.1 == []
  {
    ([], [])
  }

  function NoopGrpcClientInterceptors(serviceName: string): (r: (seq<Interceptor>, seq<Interceptor>))
    ensures r.0 == [] && r.1 == []
  {
    ([], [])
  }

  /** Runs the callback on the context it was given; no span is created. */
  function NoopStartSpanFromContext(ctx: Context, cfg: SpanConfig, callback: Callback): (r: (Option<Error>, seq<SpanEvent>))
    ensures r.0 == callback(ctx)
    ensures r.1 == [CallbackCalled(ctx)]
  {
    (callback(ctx), [CallbackCalled(ctx)])
  }

  function NoopWrapRoundTrip(rt: RoundTripper): (r: RoundTripper)
    ensures r == rt
  {
    rt
  }

  function NoopAttachTag(ctx: Context, key: string, value: TagValue): (events: seq<SpanEvent>)
    ensures events == []
  {
    []
  }

  function NoopDynamicFields(): (producers: seq<Context -> seq<Field>>)
    ensures producers == []
  {
    []
  }

  /** A fresh, uninstrumented router that is also the handler to serve. */
  function NoopCreateRootMux(): (r: (Router, Handler))
    ensures r.0.routes == []
    ensures r.1 == RouterHandler(r.0)
  {
    var router := Router([]);
    (router, RouterHandler(router))
  }

  // ---------------------------------------------------------------------------
  // Replaying calls on a backend

  /** The span events a backend records, given its AttachTag, when `calls` are made on it. */
  function Dispatch(calls: seq<Call>, attach: (Context, string, TagValue) -> seq<SpanEvent>): seq<SpanEvent>
  {
    if calls == [] then []
    else
      var last := calls[|calls| - 1];
      Dispatch(calls[..|calls| - 1], attach) + (if last.Attach? then attach(last.ctx, last.key, last.value) else [])
  }

  lemma {:induction false} DispatchAppend(a: seq<Call>, b: seq<Call>, attach: (Context, string, TagValue) -> seq<SpanEvent>)
    ensures Dispatch(a + b, attach) == Dispatch(a, attach) + Dispatch(b, attach)
    decreases |b|
  {
    if b == [] {
      assert a + b == a;
    } else {
      var b' := b[..|b| - 1];
      assert (a + b)[..|a + b| - 1] == a + b';
      assert (a + b)[|a + b| - 1] == b[|b| - 1];
      DispatchAppend(a, b', attach);
    }
  }

  /** Serving the request after the tag calls records nothing more. */
  lemma DispatchServed(a: seq<Call>, b: seq<Call>, handler: Handler, req: Request, attach: (Context, string, TagValue) -> seq<SpanEvent>)
    ensures Dispatch(a + b + [Serve(handler, req)], attach) == Dispatch(a, attach) + Dispatch(b, attach)
  {
    DispatchAppend(a, b, attach);
    DispatchAppend(a + b, [Serve(handler, req)], attach);
    assert Dispatch([Serve(handler, req)], attach) == [];
  }

  /** The tags a span carries after `events`; later settings of a key win. */
  function TagsOf(events: seq<SpanEvent>, span: Span): map<string, TagValue>
  {
    if events == [] then map[]
    else
      var last := events[|events| - 1];
      var before := TagsOf(events[..|events| - 1], span);
      if last.TagSet? && last.span == span then before[last.key := last.value] else before
  }

  lemma TagsOfAppend(events: seq<SpanEvent>, e: SpanEvent, span: Span)
    ensures TagsOf(events + [e], span) ==
            if e.TagSet? && e.span == span then TagsOf(events, span)[e.key := e.value] else TagsOf(events, span)
  {
    assert (events + [e])[..|events|] == events;
  }

  // ---------------------------------------------------------------------------
  // Request tagging middleware

  /** The route a request matched (mux.CurrentRoute), with its name ("" when unnamed). */
  datatype Route = Route(name: string)

  /** An incoming request: its context, its mux.Vars and its current route (None for nil). */
  datatype Request = Request(ctx: Context, vars: map<string, string>, route: Option<Route>)

  /** A call the tagging handler makes: AttachTag on the tracer, or ServeHTTP on the wrapped handler. */
  datatype Call = Attach(ctx: Context, key: string, value: TagValue) | Serve(handler: Handler, request: Request)

  const VarTagPrefix := "mux.vars."
  const NameTag := "mux.name"

  /** The tag key for route variable k, fmt.Sprintf("mux.vars.%s", k). */
  function VarTag(k: string): (key: string)
    ensures |key| == |VarTagPrefix| + |k| && key[..|VarTagPrefix|] == VarTagPrefix && key[|VarTagPrefix|..] == k
  {
    VarTagPrefix + k
  }

  lemma VarTagInjective(a: string, b: string)
    ensures VarTag(a) == VarTag(b) ==> a == b
  {
    if VarTag(a) == VarTag(b) {
      assert a == VarTag(a)[|VarTagPrefix|..];
    }
  }

  /** The order in which a Go map range visits the keys: each key exactly once. */
  ghost predicate IsEnumeration(order: seq<string>, keys: set<string>) {
    && (forall i, j :: 0 <= i < j < |order| ==> order[i] != order[j])
    && (forall k :: k in order <==> k in keys)
  }

  /** The tag calls for the route variables, visited in `order`. */
  function VarCalls(ctx: Context, vars: map<string, string>, order: seq<string>): (calls: seq<Call>)
    requires forall k :: k in order ==> k in vars
    ensures |calls| == |order|
  {
    if order == [] then []
    else
      var k := order[|order| - 1];
      VarCalls(ctx, vars, order[..|order| - 1]) + [Attach(ctx, VarTag(k), Str(vars[k]))]
  }

  /** The route-name tag call: only for a current route whose name is non-empty. */
  function NameCalls(ctx: Context, route: Option<Route>): (calls: seq<Call>)
    ensures calls != [] <==> route.Some? && route.value.name != ""
    ensures calls != [] ==> calls == [Attach(ctx, NameTag, Str(route.value.name))]
  {
    if route.Some? && route.value.name != "" then [Attach(ctx, NameTag, Str(route.value.name))] else []
  }

  /** What the handler MuxTagging(t)(handler) does when it serves `req`: the calls it makes,
      in order. `order` is the (unspecified) order in which the route variables were visited. */
  method MuxTagging(handler: Handler, req: Request) returns (calls: seq<Call>, ghost order: seq<string>)
    ensures IsEnumeration(order, req.vars.Keys)
    ensures calls == VarCalls(req.ctx, req.vars, order) + NameCalls(req.ctx, req.route) + [Serve(handler, req)]
    ensures |calls| == |req.vars| + |NameCalls(req.ctx, req.route)| + 1
    ensures forall k :: k in req.vars ==>
              exists i :: 0 <= i < |req.vars| && calls[i] == Attach(req.ctx, VarTag(k), Str(req.vars[k]))
    ensures calls[|req.vars|..|calls| - 1] == NameCalls(req.ctx, req.route)
    ensures calls[|calls| - 1] == Serve(handler, req)
  {
    calls, order := [], [];
    var remaining := req.vars.Keys;
    while remaining != {}
      invariant remaining <= req.vars.Keys
      invariant forall i, j :: 0 <= i < j < |order| ==> order[i] != order[j]
      invariant forall k :: k in order <==> k in req.vars.Keys - remaining
      invariant calls == VarCalls(req.ctx, req.vars, order)
      decreases remaining
    {
      var k :| k in remaining;
      assert k !in order;
      calls := calls + [Attach(req.ctx, VarTag(k), Str(req.vars[k]))];
      order := order + [k];
      remaining := remaining - {k};
    }
    if req.route.Some? {
      if req.route.value.name != "" {
        calls := calls + [Attach(req.ctx, NameTag, Str(req.route.value.name))];
      }
    }
    calls := calls + [Serve(handler, req)];
    TaggingCallsShape(handler, req, order);
  }

  /** The calls MuxTagging makes, read without the enumeration: one tag per route variable
      first, then the name tag, then the handler. */
  lemma TaggingCallsShape(handler: Handler, req: Request, order: seq<string>)
    requires IsEnumeration(order, req.vars.Keys)
    ensures var calls := VarCalls(req.ctx, req.vars, order) + NameCalls(req.ctx, req.route) + [Serve(handler, req)];
            && |calls| == |req.vars| + |NameCalls(req.ctx, req.route)| + 1
            && (forall k :: k in req.vars ==>
                  exists i :: 0 <= i < |req.vars| && calls[i] == Attach(req.ctx, VarTag(k), Str(req.vars[k])))
            && calls[|req.vars|..|calls| - 1] == NameCalls(req.ctx, req.route)
            && calls[|calls| - 1] == Serve(handler, req)
  {
    var varCalls := VarCalls(req.ctx, req.vars, order);
    var calls := varCalls + NameCalls(req.ctx, req.route) + [Serve(handler, req)];
    VarCallsTagEachVarOnce(req.ctx, req.vars, order);
    assert calls[..|varCalls|] == varCalls;
  }

  /** Each route variable is tagged exactly once, under its own key and with its own value. */
  lemma {:induction false} VarCallsTagEachVarOnce(ctx: Context, vars: map<string, string>, order: seq<string>)
    requires IsEnumeration(order, vars.Keys)
    ensures |VarCalls(ctx, vars, order)| == |vars|
    ensures forall k :: k in vars ==>
              exists i :: 0 <= i < |order| && VarCalls(ctx, vars, order)[i] == Attach(ctx, VarTag(k), Str(vars[k]))
    ensures forall i, j :: 0 <= i < j < |order| ==> VarCalls(ctx, vars, order)[i] != VarCalls(ctx, vars, order)[j]
  {
    var calls := VarCalls(ctx, vars, order);
    forall i | 0 <= i < |order|
      ensures calls[i] == Attach(ctx, VarTag(order[i]), Str(vars[order[i]]))
    {
      VarCallsAt(ctx, vars, order, i);
    }
    forall k | k in vars
      ensures exists i :: 0 <= i < |order| && calls[i] == Attach(ctx, VarTag(k), Str(vars[k]))
    {
      var i :| 0 <= i < |order| && order[i] == k;
      assert calls[i] == Attach(ctx, VarTag(k), Str(vars[k]));
    }
    forall i, j | 0 <= i < j < |order|
      ensures calls[i] != calls[j]
    {
      VarTagInjective(order[i], order[j]);
    }
    EnumerationLength(order, vars.Keys);
  }

  lemma {:induction false} VarCallsAt(ctx: Context, vars: map<string, string>, order: seq<string>, i: nat)
    requires forall k :: k in order ==> k in vars
    requires i < |order|
    ensures VarCalls(ctx, vars, order)[i] == Attach(ctx, VarTag(order[i]), Str(vars[order[i]]))
    decreases |order|
  {
    var prefix := order[..|order| - 1];
    if i < |order| - 1 {
      assert prefix[i] == order[i];
      VarCallsAt(ctx, vars, prefix, i);
    }
  }

  /** An enumeration of a set has exactly as many entries as the set. */
  lemma {:induction false} EnumerationLength(order: seq<string>, keys: set<string>)
    requires IsEnumeration(order, keys)
    ensures |order| == |keys|
    decreases |order|
  {
    if order != [] {
      var last := order[|order| - 1];
      var prefix := order[..|order| - 1];
      assert forall k :: k in prefix ==> k in order;
      forall k
        ensures k in prefix <==> k in keys - {last}
      {
        if k in prefix {
          var i :| 0 <= i < |prefix| && prefix[i] == k;
          assert order[i] == k;
        }
        if k in keys - {last} {
          var i :| 0 <= i < |order| && order[i] == k;
          assert i != |order| - 1;
          assert prefix[i] == k;
        }
      }
      EnumerationLength(prefix, keys - {last});
    } else {
      assert forall k :: k !in keys;
      assert keys == {};
    }
  }

  /** The no-op backend records nothing, whatever calls are made on it. */
  lemma {:induction false} NoopRecordsNothing(calls: seq<Call>)
    ensures Dispatch(calls, NoopAttachTag) == []
    decreases |calls|
  {
    if calls != [] {
      NoopRecordsNothing(calls[..|calls| - 1]);
    }
  }

  /** The example of a request with route variable id=42 on the route named get-item. */
  lemma TaggingExample(ctx: Context, handler: Handler, order: seq<string>)
    requires IsEnumeration(order, {"id"})
    ensures var req := Request(ctx, map["id" := "42"], Some(Route("get-item")));
            VarCalls(ctx, req.vars, order) + NameCalls(ctx, req.route) + [Serve(handler, req)]
            == [Attach(ctx, "mux.vars.id", Str("42")), Attach(ctx, "mux.name", Str("get-item")), Serve(handler, req)]
  {
    var vars := map["id" := "42"];
    assert vars.Keys == {"id"};
    EnumerationLength(order, {"id"});
    assert order[0] in {"id"};
    assert order == ["id"];
    assert order[..0] == [];
    assert VarTag("id") == "mux.vars.id";
    assert VarCalls(ctx, vars, order) == [Attach(ctx, "mux.vars.id", Str("42"))];
  }
}
