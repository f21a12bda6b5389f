# gotracing, modelled in Dafny

A model of the decision logic of `gotracing`, a small Go library that puts several
distributed-tracing backends behind one `Tracing` interface. It has four parts.

- **Registry** (`tracing.go`). A registry maps backend names to constructors. `Registry.New`
  resolves a name to a live backend. With no name, or a nil registry, it falls back to the
  no-op backend.
- **No-op backend** (`tracing.go`). Every method is a pass-through.
- **Tagging middleware** (`tracing.go`). `MuxTagging` copies the route variables and the route
  name of a request onto the active span, then serves the request.
- **Datadog backend** (`datadog/datadog.go`). Its constructor decodes two socket paths from the
  environment. It probes the trace socket with bounded retries (required) and the metrics socket
  (optional), then starts the tracer client with an ordered list of options. Its methods start and
  finish spans, set tags, inject the span identity into log fields, build the instrumented root
  router and wrap HTTP transports.

Files:

- `wrappers.dfy`: module `Wrappers`, with `Option` and `Result`.
- `tracing.dfy`: module `Tracing`, the model of `tracing.go`.
- `datadog.dfy`: module `Datadog`, the model of `datadog/datadog.go`.

How the outside world is represented:

- **File system.** A function `fs(path, t)` gives the outcome of `os.Stat(path)` at time `t`, in
  milliseconds. The outcome is one of `NotExist`, `File`, `Dir` or `StatFailed`.
- **Sleeping.** `time.Sleep` advances a clock. The probe reports how many times it slept.
- **Tunables.** The process-wide settings `fileExistsCheckInterval` and `fileExistsMaxAttempt`
  are parameters.
- **Logger.** What it is asked to log is returned as a list of lines.
- **Tracer client.** `tracer.Start` is observed through the options it receives. Span operations
  (start, tag, finish) are returned as a list of span events.
- **Tagging middleware.** Its calls on the tracer and on the wrapped handler are returned as a
  list of calls.
- **Backends.** Any backend's `AttachTag` can replay that list of calls (`Tracing.Dispatch`).
  `Tracing.TagsOf` then reads off the tags a span ends up with.

## Model

| member | source | states |
|---|---|---|
| `Tracing.New` | tracing.go:33-47 | An empty name or a nil registry gives the no-op backend and no error, whatever is registered, and logs the "no-op tracer" line. An unknown name gives an error with no cause. A failing constructor gives an error that wraps the constructor's error and contains its text. A successful constructor's backend is returned exactly. Every error names the requested backend. |
| `Tracing.NoopGrpcServerInterceptors` | tracing.go:59-61 | The no-op backend supplies no server interceptors of either kind. |
| `Tracing.NoopGrpcClientInterceptors` | tracing.go:63-65 | The no-op backend supplies no client interceptors of either kind. |
| `Tracing.NoopStartSpanFromContext` | tracing.go:67-69 | The callback runs once, on the caller's own context. Its error is returned unchanged. No span is created. |
| `Tracing.NoopWrapRoundTrip` | tracing.go:71-73 | The transport is returned as it is. |
| `Tracing.NoopAttachTag` | tracing.go:75-76 | Attaching a tag records nothing. |
| `Tracing.NoopDynamicFields` | tracing.go:78-80 | There are no log-field producers. |
| `Tracing.NoopCreateRootMux` | tracing.go:82-85 | A new router with no routes. The handler returned serves that same router. |
| `Tracing.NoopRecordsNothing` | tracing.go:75-76 | Whatever calls are made on the no-op backend, no span event is recorded. |
| `Tracing.NameCalls` | tracing.go:94-98 | A `mux.name` tag call exists if and only if there is a current route with a non-empty name. It carries that name. |
| `Tracing.MuxTagging` | tracing.go:88-102 | First come the route-variable tags, one per variable, in some enumeration of the variables that visits each key exactly once. Then comes the `mux.name` tag, for a named route only. The wrapped handler is called last, exactly once. All tags are attached to the request's context. |
| `Tracing.TaggingCallsShape` | tracing.go:88-102 | Whatever the enumeration, the calls are: one variable tag per route variable, all within the first `len(vars)` calls, then the name tag calls, then the wrapped handler as the last call. |
| `Tracing.VarCallsTagEachVarOnce` | tracing.go:91-93 | Every route variable `k` is tagged `mux.vars.k` with its own value. There are as many variable tags as variables, and no two are equal. |
| `Tracing.TaggingExample` | tracing.go:91-99 | Variables `{id: 42}` on the route `get-item` give the calls `mux.vars.id=42`, then `mux.name=get-item`, then the handler. |
| `Datadog.ApmFile` | datadog/datadog.go:41-46 | The trace socket path is never empty. It is the configured path when one is set, and `/var/run/datadog/apm.socket` otherwise. |
| `Datadog.StatsFile` | datadog/datadog.go:48-53 | The metrics socket path is never empty. It is the configured path when one is set, and `/var/run/datadog/dsd.socket` otherwise. |
| `Datadog.SplitN` | datadog/datadog.go:58 | `strings.SplitN` with a positive limit gives between 1 and `limit` pieces. With limit 1 it gives the whole string as the only piece. |
| `Datadog.SplitNJoin` | datadog/datadog.go:58 | Joining the pieces of a split with the separator gives back the original entry. |
| `Datadog.AddEntry` | datadog/datadog.go:58-62 | An entry that does not split into exactly two pieces leaves the map unchanged. Otherwise it sets the first piece to the second. |
| `Datadog.EnvMapAsWrittenIsEmpty` | datadog/datadog.go:56-63 | With the split limit of 1 in the source, the map built from any environment list is empty. |
| `Datadog.EnvMapWithLimitTwo` | datadog/datadog.go:57-63 | With a limit of 2, `[K1=V1, K2=V2, malformed]` decodes to `{K1: V1, K2: V2}` and the malformed entry is ignored. This is the decoding that was evidently intended. |
| `Datadog.FromMap` | datadog/datadog.go:64-68 | `DD_APM_RECEIVER_SOCKET` and `DD_DOGSTATSD_SOCKET` fill the two paths. An absent key leaves its path empty. |
| `Datadog.DecodedPathsAreDefaults` | datadog/datadog.go:41-68 | For every environment list, the decoded paths are empty, so both sockets take their default paths. |
| `Datadog.EnvToStruct` | datadog/datadog.go:55-69 | The loop builds the entry-by-entry map. The decoded configuration always has both paths empty. |
| `Datadog.ProbeFrom` | datadog/datadog.go:162-171 | The probe never sleeps more than the attempts left allow. |
| `Datadog.FileExists` | datadog/datadog.go:162-171 | The retry loop computes the probe's verdict and sleep count: at most `maxAttempt` sleeps. |
| `Datadog.ProbeAllMissing` | datadog/datadog.go:163-170 | If every stat says "not exist", the verdict is false after `maxAttempt` sleeps: one after every stat, the last one included. |
| `Datadog.ProbeFirstHit` | datadog/datadog.go:163-167 | The probe stops at the first stat that is not "not exist", having slept once per earlier stat. A file is found. A directory is not. Any other stat error panics. |
| `Datadog.FileExistsSuccess` | datadog/datadog_test.go:32-39 | A file present from the start is found at once, with no sleep. |
| `Datadog.FileExistsFailed` | datadog/datadog_test.go:26-30 | A missing file is not found, after 5 stats and 5 sleeps of 100 ms. |
| `Datadog.FileExistsAfterSeveralAttemptSuccess` | datadog/datadog_test.go:41-59 | A file that is in place by the second stat is found after one sleep. |
| `Datadog.FileExistsAfterSeveralAttemptTimeout` | datadog/datadog_test.go:61-79 | A file created after 1 s is missed by 5 stats 100 ms apart. |
| `Datadog.NewTracer` | datadog/datadog.go:71-91 | If the trace socket is not found, the result is the error naming its path. The metrics socket is then never probed, the tracer is not started and nothing is logged. On success, the options are runtime metrics, the logger and the trace socket, in that order. A fourth option, the `unix://` metrics address, is added exactly when the metrics probe finds the socket. The backend carries the service name, and "DataDog tracing enabled" is logged. A stat error panics. Since nothing is ever decoded, the only possible error names `/var/run/datadog/apm.socket`. |
| `Datadog.GrpcClientInterceptors` | datadog/datadog.go:99-103 | One unary and one stream client interceptor. Each carries the service name and leaves the health check untraced. |
| `Datadog.GrpcServerInterceptors` | datadog/datadog.go:105-109 | One unary and one stream server interceptor. Each carries the service name and leaves the health check untraced. |
| `Datadog.StartSpanFromContext` | datadog/datadog.go:111-121 | One span is started, named by the operation. The callback runs once, on the child context that carries the span. The span is then finished exactly once. The finish carries an error option exactly when the callback failed, and that option holds the callback's error. The callback's error is returned unchanged. A callback that ignores the span returns what it would under the no-op backend. |
| `Datadog.AttachTag` | datadog/datadog.go:123-129 | With no span in the context nothing happens. Otherwise exactly that key and value are set on the active span. |
| `Datadog.SpanFields` | datadog/datadog.go:133-142 | No fields if and only if there is no span or its trace id is 0. Otherwise the fields are exactly `dd.trace_id`, then `dd.span_id`, with the span's identifiers. |
| `Datadog.DynamicFields` | datadog/datadog.go:131-144 | Exactly one producer, which yields `SpanFields` for every context. |
| `Datadog.CreateRootMux` | datadog/datadog.go:146-153 | A new router, served through the tracing router. The tracing router's options are exactly `[WithServiceName(name)]` when the service name is non-empty, and empty otherwise. |
| `Datadog.WrapRoundTrip` | datadog/datadog.go:155-160 | The transport comes back unchanged if and only if the receiver is nil. Otherwise it is decorated, with the original transport inside. |
| `Datadog.TaggedSpanCarriesRouteTags` | tracing.go:88-102 | When `MuxTagging` serves a request on the Datadog backend with a span active, the middleware's own tag calls set exactly the route tags on that span: `mux.vars.k` for every variable and `mux.name` for a named route. |

## Notes on the code

- **The environment is never decoded.** `envToStruct` splits each entry with
  `strings.SplitN(e, "=", 1)` (datadog/datadog.go:58). That call always returns a single piece,
  so no entry passes the `len(p) != 2` guard and the map stays empty. As a result,
  `DD_APM_RECEIVER_SOCKET` and `DD_DOGSTATSD_SOCKET` are never honoured and the default socket
  paths are always used. The model reproduces this: `SplitLimit` is 1, and this is proved in
  `EnvMapAsWrittenIsEmpty`, `DecodedPathsAreDefaults` and the contract of `NewTracer`. This is
  very likely a latent bug. `EnvMapWithLimitTwo` shows what a limit of 2 would decode. The
  model keeps the code's behaviour everywhere else.
- **One more sleep than might be expected.** `fileExists` sleeps after every "not exist", the
  last attempt included. A probe that never finds the file therefore blocks for `maxAttempt`
  intervals (25 s with the defaults), not `maxAttempt - 1`.
- **A stat error panics.** When `os.Stat` fails with an error other than "not exist",
  `info.IsDir()` is called on a nil `FileInfo`. The model treats this as an explicit `Panics`
  verdict, and `NewTracer` as the `Panicked` outcome.

## Left out

- The file system, the clock and sleeping are not real. `os.Stat` is the oracle `fs(path, t)`, a
  stat takes no time, and `time.Sleep` only advances the clock.
- The tunables are parameters. Tests that reassign the process-wide `fileExistsCheckInterval`,
  and the goroutines that race file creation against the probe, become different oracles.
- Datadog.FileExists: the attempt limit is a `nat`. A negative `fileExistsMaxAttempt` in Go
  behaves like 0 (no stat, result false), and that case is not modelled separately.
- Datadog.FromMap: `json.Marshal`/`json.Unmarshal` are modelled as an exact lookup of the two
  keys. Go's case-insensitive matching of JSON keys to struct tags is not modelled.
- The error returns of `json.Marshal` and of `envToStruct` (datadog/datadog.go:65-67, 73-75) are
  left out. They cannot happen for a map of strings.
- dd-trace-go internals are foreign code and are left out:
  - `tracer.Start` is observed only through its options.
  - The span that `tracer.StartSpanFromContext` creates is a parameter (`started`). Parent and
    child linking of trace ids is not modelled.
  - `ddhttp.WrapRoundTripper` is the `Decorated` transport. It is not modelled further.
  - The gRPC interceptors are values that record the service name and the untraced methods.
- The gorilla/mux router and `ddtrace2.NewRouter` are foreign code. They are values: a router
  with its routes, and a handler that serves it.
- The zap/zapctx logger and the `ddZappedLogger` adapter (datadog/datadog.go:173-179) are foreign
  code. The logger is an identity carried by the `WithLogger` option and by the log lines. The
  adapter's forwarding of tracer messages is not modelled.
- Callbacks are pure functions of their context. Anything a callback does to the span itself
  (tags it sets) and a panic inside it, which the deferred finish would still see, are not
  modelled.
- Tracing.New: a constructor's result is either a backend or an error. A Go constructor returning
  both a nil backend and a nil error, or both values non-nil, is not representable.
- `var _ gotracing.Constructor = NewTracer` (datadog/datadog.go:30) is not modelled as a
  registration. `NewTracer` observes the file system and the clock, so it is a method here, while
  registry constructors are pure functions. `Tracing.New` is proved for every constructor.
- Tag values are a closed set (string, integer, boolean) instead of Go's `interface{}`.
- Context values other than the active span are not modelled.
- Datadog.TaggedSpanCarriesRouteTags: only the middleware's own tag calls are counted. Tags the wrapped handler sets while serving the request (it gets the same context, tracing.go:99), and tags already on the span (such as those the ddtrace router sets), are not modelled: `Serve` records no span events.
