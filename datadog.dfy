/**
  The socket-backed Datadog backend (datadog/datadog.go): decoding the socket paths
  from the environment, the bounded existence probe of a socket, the start-up of the
  tracer client, span lifecycle, tagging, log-field injection, the instrumented root
  router and the transport wrapper.

  The file system is an oracle: `fs(path, t)` is what os.Stat(path) reports at time t
  (milliseconds). time.Sleep advances a clock. tracer.Start and the logger are
  observed as the options passed and the lines logged.
 */
module Datadog {
  import opened Wrappers
  import opened Tracing

  const DdApmFile := "/var/run/datadog/apm.socket"
  const DdStatsFile := "/var/run/datadog/dsd.socket"

  /** The defaults of the process-wide probe tunables: 5 seconds, 5 attempts. */
  const DefaultCheckIntervalMs: nat := 5000
  const DefaultMaxAttempt: nat := 5

  const ApmKey := "DD_APM_RECEIVER_SOCKET"
  const StatsKey := "DD_DOGSTATSD_SOCKET"

  const HealthCheckMethod := "/grpc.health.v1.Health/Check"
  const EnabledMessage := "DataDog tracing enabled"

  // ---------------------------------------------------------------------------
  // Socket configuration

  /** The `config` struct: the two socket paths as decoded from the environment. */
  datatype SocketConfig = SocketConfig(apmFile: string, statsFile: string)

  /** config.apmFile(): the configured trace socket, or the default when unset. */
  function ApmFile(c: SocketConfig): (path: string)
    ensures path != ""
    ensures c.apmFile != "" ==> path == c.apmFile
    ensures c.apmFile == "" ==> path == DdApmFile
  {
    if c.apmFile == "" then DdApmFile else c.apmFile
  }

  /** config.statsFile(): the configured metrics socket, or the default when unset. */
  function StatsFile(c: SocketConfig): (path: string)
    ensures path != ""
    ensures c.statsFile != "" ==> path == c.statsFile
    ensures c.statsFile == "" ==> path == DdStatsFile
  {
    if c.statsFile == "" then DdStatsFile else c.statsFile
  }

  // ---------------------------------------------------------------------------
  // Environment decoding

  /** The index of the first `sep` in s, or |s| when there is none. */
  function IndexOf(s: string, sep: char): (i: nat)
    ensures i <= |s|
    ensures i < |s| ==> s[i] == sep
    ensures forall j :: 0 <= j < i ==> s[j] != sep
  {
    if s == [] then 0
    else if s[0] == sep then 0
    else 1 + IndexOf(s[1..], sep)
  }

  /** strings.SplitN(s, sep, n) for n >= 0: at most n pieces, the last one unsplit. */
  function SplitN(s: string, sep: char, n: nat): (parts: seq<string>)
    ensures n == 0 <==> parts == []
    ensures |parts| <= n
    ensures n == 1 ==> parts == [s]
    decreases n
  {
    if n == 0 then []
    else
      var i := IndexOf(s, sep);
      if n == 1 || i == |s| then [s]
      else [s[..i]] + SplitN(s[i + 1..], sep, n - 1)
  }

  /** strings.Join(parts, sep). */
  function Join(parts: seq<string>, sep: char): string {
    if parts == [] then ""
    else if |parts| == 1 then parts[0]
    else parts[0] + [sep] + Join(parts[1..], sep)
  }

  /** Splitting loses nothing: joining the pieces with the separator gives back s. */
  lemma {:induction false} SplitNJoin(s: string, sep: char, n: nat)
    requires n > 0
    ensures Join(SplitN(s, sep, n), sep) == s
    decreases n
  {
    var i := IndexOf(s, sep);
    if n > 1 && i < |s| {
      var rest := SplitN(s[i + 1..], sep, n - 1);
      SplitNJoin(s[i + 1..], sep, n - 1);
      assert SplitN(s, sep, n) == [s[..i]] + rest;
      JoinCons(s[..i], rest, sep);
      SplitAround(s, i);
    }
  }

  /** Joining a piece in front of a non-empty list puts one separator between them. */
  lemma JoinCons(head: string, rest: seq<string>, sep: char)
    requires rest != []
    ensures Join([head] + rest, sep) == head + [sep] + Join(rest, sep)
  {
    assert ([head] + rest)[1..] == rest;
  }

  /** A string is its prefix, the character at i and its suffix. */
  lemma SplitAround(s: string, i: nat)
    requires i < |s|
    ensures s == s[..i] + [s[i]] + s[i + 1..]
  {
  }

  /** The limit envToStruct passes to strings.SplitN. */
  const SplitLimit: nat := 1

  /** One iteration of envToStruct's loop: split the entry with `limit`; an entry that splits
      into exactly two pieces sets key := value, any other entry is skipped. */
  function AddEntry(m: map<string, string>, e: string, limit: nat): (m': map<string, string>)
    ensures |SplitN(e, '=', limit)| != 2 ==> m' == m
    ensures |SplitN(e, '=', limit)| == 2 ==> m' == m[SplitN(e, '=', limit)[0] := SplitN(e, '=', limit)[1]]
  {
    var p := SplitN(e, '=', limit);
    if |p| != 2 then m else m[p[0] := p[1]]
  }

  /** The map envToStruct builds from `env` when it splits each entry with `limit`; later entries win. */
  function EnvMap(env: seq<string>, limit: nat): map<string, string>
  {
    if env == [] then map[] else AddEntry(EnvMap(env[..|env| - 1], limit), env[|env| - 1], limit)
  }

  /** With the limit of 1 that the source uses, no entry is ever split, so nothing is decoded. */
  lemma {:induction false} EnvMapAsWrittenIsEmpty(env: seq<string>)
    ensures EnvMap(env, SplitLimit) == map[]
    decreases |env|
  {
    if env != [] {
      EnvMapAsWrittenIsEmpty(env[..|env| - 1]);
    }
  }

  /** A KEY=VALUE entry whose key holds no '=' splits, with a limit of 2, into key and value. */
  lemma SplitKeyValue(key: string, value: string)
    requires '=' !in key
    ensures SplitN(key + "=" + value, '=', 2) == [key, value]
  {
    var s := key + "=" + value;
    assert forall j :: 0 <= j < |key| ==> s[j] == key[j] && s[j] != '=';
    assert s[|key|] == '=';
    assert IndexOf(s, '=') == |key|;
    assert s[..|key|] == key;
    assert s[|key| + 1..] == value;
  }

  /** With a limit of 2 the decoder would behave as intended: ["A=1", "B=2", "malformed"] decodes
      to {A: 1, B: 2}, the malformed entry being ignored; so does every list of that shape. */
  lemma EnvMapWithLimitTwo(k1: string, v1: string, k2: string, v2: string, malformed: string)
    requires '=' !in k1 && '=' !in k2 && '=' !in malformed
    ensures EnvMap([k1 + "=" + v1, k2 + "=" + v2, malformed], 2) == map[k1 := v1, k2 := v2]
  {
    var e1, e2 := k1 + "=" + v1, k2 + "=" + v2;
    assert EnvMap([e1, e2, malformed], 2) == AddEntry(EnvMap([e1, e2], 2), malformed, 2) by {
      EnvMapSnoc([e1, e2], malformed, 2);
      assert [e1, e2] + [malformed] == [e1, e2, malformed];
    }
    assert EnvMap([e1, e2], 2) == AddEntry(EnvMap([e1], 2), e2, 2) by {
      EnvMapSnoc([e1], e2, 2);
      assert [e1] + [e2] == [e1, e2];
    }
    assert EnvMap([e1], 2) == AddEntry(map[], e1, 2) by {
      EnvMapSnoc([], e1, 2);
      assert [] + [e1] == [e1];
    }
    AddKeyValue(map[], k1, v1);
    AddKeyValue(map[k1 := v1], k2, v2);
    AddUnseparated(map[k1 := v1, k2 := v2], malformed, 2);
  }

  /** With a limit of 2, a KEY=VALUE entry whose key holds no '=' sets KEY to VALUE. */
  lemma AddKeyValue(m: map<string, string>, key: string, value: string)
    requires '=' !in key
    ensures AddEntry(m, key + "=" + value, 2) == m[key := value]
  {
    SplitKeyValue(key, value);
  }

  /** An entry without a separator is skipped. */
  lemma AddUnseparated(m: map<string, string>, e: string, limit: nat)
    requires '=' !in e && limit > 0
    ensures AddEntry(m, e, limit) == m
  {
    SplitUnseparated(e, limit);
  }

  lemma EnvMapSnoc(env: seq<string>, e: string, limit: nat)
    ensures EnvMap(env + [e], limit) == AddEntry(EnvMap(env, limit), e, limit)
  {
    assert (env + [e])[..|env|] == env;
  }

  /** An entry without a separator is never split. */
  lemma SplitUnseparated(s: string, n: nat)
    requires '=' !in s && n > 0
    ensures SplitN(s, '=', n) == [s]
  {
    assert IndexOf(s, '=') == |s|;
  }

  /** What json.Unmarshal puts into `config` from the decoded map: the tagged keys, or "" when absent. */
  function FromMap(m: map<string, string>): (c: SocketConfig)
    ensures ApmKey in m ==> c.apmFile == m[ApmKey]
    ensures StatsKey in m ==> c.statsFile == m[StatsKey]
    ensures ApmKey !in m ==> c.apmFile == ""
    ensures StatsKey !in m ==> c.statsFile == ""
  {
    SocketConfig(if ApmKey in m then m[ApmKey] else "", if StatsKey in m then m[StatsKey] else "")
  }

  /** The configuration NewTracer decodes from an environment list. */
  function DecodeEnv(env: seq<string>): SocketConfig {
    FromMap(EnvMap(env, SplitLimit))
  }

  /** Whatever the environment holds, the decoded paths are empty and both sockets take their defaults. */
  lemma DecodedPathsAreDefaults(env: seq<string>)
    ensures DecodeEnv(env) == SocketConfig("", "")
    ensures ApmFile(DecodeEnv(env)) == DdApmFile && StatsFile(DecodeEnv(env)) == DdStatsFile
  {
    EnvMapAsWrittenIsEmpty(env);
  }

  /** envToStruct: split every entry, collect the pairs, decode the map into `config`. */
  method EnvToStruct(env: seq<string>) returns (cfg: SocketConfig)
    ensures cfg == FromMap(EnvMap(env, SplitLimit))
    ensures cfg == SocketConfig("", "")
  {
    var m: map<string, string> := map[];
    for i := 0 to |env|
      invariant m == EnvMap(env[..i], SplitLimit)
    {
      assert env[..i + 1][..i] == env[..i];
      m := AddEntry(m, env[i], SplitLimit);
    }
    assert env[..|env|] == env;
    cfg := FromMap(m);
    DecodedPathsAreDefaults(env);
  }

  // ---------------------------------------------------------------------------
  // Socket existence probe

  /** What os.Stat reports: no such file, a file, a directory, or another error (nil info). */
  datatype StatOutcome = NotExist | File | Dir | StatFailed

  /** `fs(path, t)`: the outcome of os.Stat(path) at time t. */
  type FileSystem = (string, nat) -> StatOutcome

  /** fileExists returned true (Found) or false (NotFound), or panicked on a nil FileInfo. */
  datatype Verdict = Found | NotFound | Panics

  /** A probe's verdict and the number of times it slept. */
  datatype Probe = Probe(verdict: Verdict, sleeps: nat)

  /** The probe of `path` from time `now` with `left` attempts to go, having slept `slept` times. */
  function ProbeFrom(fs: FileSystem, path: string, now: nat, interval: nat, left: nat, slept: nat): (p: Probe)
    ensures slept <= p.sleeps <= slept + left
    decreases left
  {
    if left == 0 then Probe(NotFound, slept)
    else
      match fs(path, now)
      case NotExist => ProbeFrom(fs, path, now + interval, interval, left - 1, slept + 1)
      case File => Probe(Found, slept)
      case Dir => Probe(NotFound, slept)
      case StatFailed => Probe(Panics, slept)
  }

  /** The probe made by a call to fileExists. */
  function FileProbe(fs: FileSystem, path: string, now: nat, interval: nat, maxAttempt: nat): Probe {
    ProbeFrom(fs, path, now, interval, maxAttempt, 0)
  }

  /** The k-th stat of a probe that starts at `now` happens after k sleeps. */
  function Observed(fs: FileSystem, path: string, now: nat, interval: nat, k: nat): StatOutcome {
    fs(path, now + k * interval)
  }

  /** fileExists: stat up to maxAttempt times, sleeping after each "not exist". */
  method FileExists(fs: FileSystem, filename: string, now: nat, interval: nat, maxAttempt: nat)
    returns (verdict: Verdict, sleeps: nat)
    ensures Probe(verdict, sleeps) == FileProbe(fs, filename, now, interval, maxAttempt)
    ensures sleeps <= maxAttempt
  {
    var clock: nat := now;
    sleeps := 0;
    var attempt := 0;
    while attempt < maxAttempt
      invariant attempt <= maxAttempt && sleeps == attempt
      invariant ProbeFrom(fs, filename, clock, interval, maxAttempt - attempt, sleeps)
                == FileProbe(fs, filename, now, interval, maxAttempt)
    {
      var info := fs(filename, clock);
      if info != NotExist {
        verdict := if info == StatFailed then Panics else if info == Dir then NotFound else Found;
        return;
      }
      clock := clock + interval;
      sleeps := sleeps + 1;
      attempt := attempt + 1;
    }
    verdict := NotFound;
  }

  /** A path that never shows up is reported missing after maxAttempt stats and maxAttempt sleeps. */
  lemma {:induction false} ProbeAllMissing(fs: FileSystem, path: string, now: nat, interval: nat, left: nat, slept: nat)
    requires forall k: nat :: k < left ==> Observed(fs, path, now, interval, k) == NotExist
    ensures ProbeFrom(fs, path, now, interval, left, slept) == Probe(NotFound, slept + left)
    decreases left
  {
    if left > 0 {
      assert Observed(fs, path, now, interval, 0) == NotExist;
      var next := now + interval;
      forall k: nat | k < left - 1
        ensures Observed(fs, path, next, interval, k) == NotExist
      {
        assert Observed(fs, path, now, interval, k + 1) == NotExist;
        assert now + (k + 1) * interval == next + k * interval;
      }
      ProbeAllMissing(fs, path, next, interval, left - 1, slept + 1);
    }
  }

  /** The probe stops at the first stat that is not "not exist", after sleeping once per earlier stat:
      a file is found, a directory is not, and another stat error panics. */
  lemma {:induction false} ProbeFirstHit(fs: FileSystem, path: string, now: nat, interval: nat, left: nat, slept: nat, j: nat)
    requires j < left
    requires forall k: nat :: k < j ==> Observed(fs, path, now, interval, k) == NotExist
    requires Observed(fs, path, now, interval, j) != NotExist
    ensures ProbeFrom(fs, path, now, interval, left, slept).sleeps == slept + j
    ensures ProbeFrom(fs, path, now, interval, left, slept).verdict ==
            match Observed(fs, path, now, interval, j)
            case File => Found
            case Dir => NotFound
            case _ => Panics
    decreases j
  {
    if j > 0 {
      assert Observed(fs, path, now, interval, 0) == NotExist;
      var next := now + interval;
      forall k: nat | k < j - 1
        ensures Observed(fs, path, next, interval, k) == NotExist
      {
        assert Observed(fs, path, now, interval, k + 1) == NotExist;
        assert now + (k + 1) * interval == next + k * interval;
      }
      assert now + j * interval == next + (j - 1) * interval;
      ProbeFirstHit(fs, path, next, interval, left - 1, slept + 1, j - 1);
    }
  }

  /** A path present from the start is found at once, without sleeping. */
  lemma FileExistsSuccess(path: string, now: nat, interval: nat)
    ensures FileProbe((p: string, t: nat) => File, path, now, interval, DefaultMaxAttempt) == Probe(Found, 0)
  {
  }

  /** A path that never appears is not found; all 5 attempts are made and each one is followed by a sleep. */
  lemma FileExistsFailed(path: string, now: nat)
    ensures FileProbe((p: string, t: nat) => NotExist, path, now, 100, DefaultMaxAttempt) == Probe(NotFound, 5)
  {
    ProbeAllMissing((p: string, t: nat) => NotExist, path, now, 100, DefaultMaxAttempt, 0);
  }

  /** A file created one interval after the probe starts is found on the second stat, after one sleep. */
  lemma FileExistsAfterSeveralAttemptSuccess(path: string)
    ensures FileProbe((p: string, t: nat) => if t >= 100 then File else NotExist, path, 0, 100, DefaultMaxAttempt)
            == Probe(Found, 1)
  {
    var fs: FileSystem := (p: string, t: nat) => if t >= 100 then File else NotExist;
    assert Observed(fs, path, 0, 100, 0) == NotExist;
    assert Observed(fs, path, 0, 100, 1) == File;
    ProbeFirstHit(fs, path, 0, 100, DefaultMaxAttempt, 0, 1);
  }

  /** A file created after 1 s is missed by a probe of 5 attempts 100 ms apart (its stats are at 0..400 ms). */
  lemma FileExistsAfterSeveralAttemptTimeout(path: string)
    ensures FileProbe((p: string, t: nat) => if t >= 1000 then File else NotExist, path, 0, 100, DefaultMaxAttempt)
            == Probe(NotFound, 5)
  {
    var fs: FileSystem := (p: string, t: nat) => if t >= 1000 then File else NotExist;
    forall k: nat | k < DefaultMaxAttempt
      ensures Observed(fs, path, 0, 100, k) == NotExist
    {
      assert k * 100 < 1000;
    }
    ProbeAllMissing(fs, path, 0, 100, DefaultMaxAttempt, 0);
  }

  // ---------------------------------------------------------------------------
  // Tracer construction

  /** The options passed to tracer.Start. */
  datatype StartOption =
    | WithRuntimeMetrics
    | WithLogger(logger: Logger)
    | WithUds(path: string)
    | WithDogstatsdAddress(address: string)

  /** The *Tracing a successful NewTracer returns. */
  datatype DdTracer = DdTracer(serviceName: string)

  /** NewTracer returns a result, or panics (inside fileExists, on a stat error other than "not exist"). */
  datatype Outcome = Returned(result: Result<DdTracer, Error>) | Panicked

  /** The probe of the trace socket NewTracer makes, starting at `now`. */
  function ApmProbe(original: Config, fs: FileSystem, now: nat, interval: nat, maxAttempt: nat): Probe {
    FileProbe(fs, ApmFile(DecodeEnv(original.env)), now, interval, maxAttempt)
  }

  /** The probe of the metrics socket NewTracer makes, once the trace socket probe is over. */
  function StatsProbe(original: Config, fs: FileSystem, now: nat, interval: nat, maxAttempt: nat): Probe {
    var apm := ApmProbe(original, fs, now, interval, maxAttempt);
    FileProbe(fs, StatsFile(DecodeEnv(original.env)), now + apm.sleeps * interval, interval, maxAttempt)
  }

  /** NewTracer. Returns the outcome, the options tracer.Start was called with (None when it was
      not called), the lines logged, and the clock after the probes. */
  method NewTracer(original: Config, fs: FileSystem, now: nat, interval: nat, maxAttempt: nat)
    returns (outcome: Outcome, started: Option<seq<StartOption>>, logged: seq<LogLine>, clock: nat)
    // the trace socket is required: without it, an error naming the path, and the
    // metrics socket is never probed and the tracer never started
    ensures ApmProbe(original, fs, now, interval, maxAttempt).verdict == NotFound ==>
              && outcome == Returned(Failure(Plain("unable to find datadog APM file " + ApmFile(DecodeEnv(original.env)))))
              && started == None && logged == []
              && clock == now + ApmProbe(original, fs, now, interval, maxAttempt).sleeps * interval
    ensures ApmProbe(original, fs, now, interval, maxAttempt).verdict == Panics ==>
              outcome == Panicked && started == None && logged == []
    ensures ApmProbe(original, fs, now, interval, maxAttempt).verdict == Found &&
            StatsProbe(original, fs, now, interval, maxAttempt).verdict == Panics ==>
              outcome == Panicked && started == None && logged == []
    // with it: runtime metrics, the logger, the trace socket, and the metrics socket only when found
    ensures ApmProbe(original, fs, now, interval, maxAttempt).verdict == Found &&
            StatsProbe(original, fs, now, interval, maxAttempt).verdict != Panics ==>
              && outcome == Returned(Success(DdTracer(original.serviceName)))
              && started.Some?
              && 3 <= |started.value| <= 4
              && started.value[..3] == [WithRuntimeMetrics, WithLogger(original.log), WithUds(ApmFile(DecodeEnv(original.env)))]
              && (|started.value| == 4 <==> StatsProbe(original, fs, now, interval, maxAttempt).verdict == Found)
              && (|started.value| == 4 ==>
                    started.value[3] == WithDogstatsdAddress("unix://" + StatsFile(DecodeEnv(original.env))))
              && logged == [Info(original.log, EnabledMessage)]
              && clock == now + (ApmProbe(original, fs, now, interval, maxAttempt).sleeps +
                                 StatsProbe(original, fs, now, interval, maxAttempt).sleeps) * interval
    // since nothing is ever decoded from the environment, the only error names the default path
    ensures outcome == Returned(Failure(Plain("unable to find datadog APM file " + DdApmFile))) ||
            outcome == Panicked || outcome.result.Success?
  {
    var cfg := EnvToStruct(original.env);
    assert cfg == DecodeEnv(original.env);
    started, logged, clock := None, [], now;
    var apmVerdict, apmSleeps := FileExists(fs, ApmFile(cfg), clock, interval, maxAttempt);
    assert Probe(apmVerdict, apmSleeps) == ApmProbe(original, fs, now, interval, maxAttempt);
    clock := clock + apmSleeps * interval;
    if apmVerdict == Panics {
      outcome := Panicked;
      return;
    }
    if apmVerdict == NotFound {
      outcome := Returned(Failure(Plain("unable to find datadog APM file " + ApmFile(cfg))));
      return;
    }
    var startOptions := [WithRuntimeMetrics, WithLogger(original.log), WithUds(ApmFile(cfg))];
    var statsVerdict, statsSleeps := FileExists(fs, StatsFile(cfg), clock, interval, maxAttempt);
    assert Probe(statsVerdict, statsSleeps) == StatsProbe(original, fs, now, interval, maxAttempt);
    clock := clock + statsSleeps * interval;
    if statsVerdict == Panics {
      outcome := Panicked;
      return;
    }
    if statsVerdict == Found {
      startOptions := startOptions + [WithDogstatsdAddress("unix://" + StatsFile(cfg))];
    }
    started := Some(startOptions);
    logged := [Info(original.log, EnabledMessage)];
    outcome := Returned(Success(DdTracer(original.serviceName)));
  }

  // ---------------------------------------------------------------------------
  // The Tracing methods of the Datadog backend

  function GrpcClientInterceptors(t: DdTracer, serviceName: string): (r: (seq<Interceptor>, seq<Interceptor>))
    ensures r.0 == [Interceptor(UnaryClient, serviceName, [HealthCheckMethod])]
    ensures r.1 == [Interceptor(StreamClient, serviceName, [HealthCheckMethod])]
  {
    ([Interceptor(UnaryClient, serviceName, [HealthCheckMethod])], [Interceptor(StreamClient, serviceName, [HealthCheckMethod])])
  }

  function GrpcServerInterceptors(t: DdTracer, serviceName: string): (r: (seq<Interceptor>, seq<Interceptor>))
    ensures r.0 == [Interceptor(UnaryServer, serviceName, [HealthCheckMethod])]
    ensures r.1 == [Interceptor(StreamServer, serviceName, [HealthCheckMethod])]
  {
    ([Interceptor(UnaryServer, serviceName, [HealthCheckMethod])], [Interceptor(StreamServer, serviceName, [HealthCheckMethod])])
  }

  /** StartSpanFromContext. `started` is the span the tracer library creates. The finish is deferred,
      so it runs after the callback returns and reads the callback's error. */
  method StartSpanFromContext(t: DdTracer, ctx: Context, cfg: SpanConfig, callback: Callback, started: Span)
    returns (retErr: Option<Error>, events: seq<SpanEvent>)
    ensures var child := ctx.(span := Some(started));
            // the callback's error, unchanged
            && retErr == callback(child)
            // one span named by the operation, the callback run once inside it, then one finish
            && |events| == 3
            && events[0] == SpanStarted(started, cfg.operationName)
            && events[1] == CallbackCalled(child)
            && events[2].SpanFinished? && events[2].span == started
            // the finish carries an error option exactly when the callback failed, and that error
            && (retErr.None? ==> events[2].options == [])
            && (retErr.Some? ==> events[2].options == [WithError(retErr.value)])
            // a callback that does not look at the span fails exactly as under the no-op backend
            && (callback(ctx) == callback(child) ==> retErr == NoopStartSpanFromContext(ctx, cfg, callback).0)
  {
    var span := started;
    var child := ctx.(span := Some(span));
    events := [SpanStarted(span, cfg.operationName), CallbackCalled(child)];
    retErr := callback(child);
    var opts: seq<FinishOption> := [];
    if retErr.Some? {
      opts := opts + [WithError(retErr.value)];
    }
    events := events + [SpanFinished(span, opts)];
  }

  /** AttachTag: set the tag on the span active in ctx; nothing when there is none. */
  function AttachTag(ctx: Context, key: string, value: TagValue): (events: seq<SpanEvent>)
    ensures ctx.span.None? ==> events == []
    ensures ctx.span.Some? ==> events == [TagSet(ctx.span.value, key, value)]
  {
    match ctx.span
    case None => []
    case Some(sp) => [TagSet(sp, key, value)]
  }

  const TraceIdKey := "dd.trace_id"
  const SpanIdKey := "dd.span_id"

  /** The log-field producer: the active span's identifiers, unless there is no span or its trace id is 0. */
  function SpanFields(ctx: Context): (fields: seq<Field>)
    ensures fields == [] <==> ctx.span.None? || ctx.span.value.traceId == 0
    ensures fields != [] ==>
              fields == [Uint64Field(TraceIdKey, ctx.span.value.traceId), Uint64Field(SpanIdKey, ctx.span.value.spanId)]
  {
    match ctx.span
    case None => []
    case Some(sp) => if sp.traceId == 0 then [] else [Uint64Field(TraceIdKey, sp.traceId), Uint64Field(SpanIdKey, sp.spanId)]
  }

  /** DynamicFields: exactly one producer, SpanFields. */
  function DynamicFields(t: DdTracer): (producers: seq<Context -> seq<Field>>)
    ensures |producers| == 1
    ensures forall ctx :: producers[0](ctx) == SpanFields(ctx)
  {
    [SpanFields]
  }

  /** CreateRootMux: a fresh router, served through the tracing router, which is named after
      the service exactly when the service name is set. */
  function CreateRootMux(t: DdTracer): (r: (Router, Handler))
    ensures r.0.routes == []
    ensures r.1.InstrumentedRouter? && r.1.router == r.0
    ensures r.1.options == [] <==> t.serviceName == ""
    ensures t.serviceName != "" ==> r.1.options == [WithServiceName(t.serviceName)]
  {
    var opts := if t.serviceName != "" then [WithServiceName(t.serviceName)] else [];
    var router := Router([]);
    (router, InstrumentedRouter(router, opts))
  }

  const DdHttpDecorator := "ddhttp"

  /** WrapRoundTrip on a possibly nil *Tracing: a nil receiver leaves the transport as it is,
      a live one decorates it (and only it). */
  function WrapRoundTrip(t: Option<DdTracer>, rt: RoundTripper): (r: RoundTripper)
    ensures r == rt <==> t.None?
    ensures t.Some? ==> r.Decorated? && r.inner == rt
  {
    if t.None? then rt else Decorated(DdHttpDecorator, rt)
  }

  // ---------------------------------------------------------------------------
  // The tagging middleware on this backend

  /** The tags MuxTagging should leave on the active span: one per route variable and, for a named
      route, its name. */
  function RouteTags(vars: map<string, string>, route: Option<Route>): map<string, TagValue> {
    var varTags := TagsFor(vars, vars.Keys);
    if route.Some? && route.value.name != "" then varTags[NameTag := Str(route.value.name)] else varTags
  }

  /** The variable tags for the keys in `keys`. */
  function TagsFor(vars: map<string, string>, keys: set<string>): (tags: map<string, TagValue>)
    requires keys <= vars.Keys
  {
    map k | k in keys :: VarTag(k) := Str(vars[k])
  }

  /** The tag map for one key more: the earlier map with that key's tag set. */
  /** The tag map for one key more: the earlier map with that key's tag set. */
  lemma TagsForAdd(vars: map<string, string>, keys: set<string>, k: string)
    requires keys <= vars.Keys && k in vars
    ensures TagsFor(vars, keys + {k}) == TagsFor(vars, keys)[VarTag(k) := Str(vars[k])]
  {
    var a := TagsFor(vars, keys + {k});
    var b := TagsFor(vars, keys)[VarTag(k) := Str(vars[k])];
    forall key | key in a ensures key in b && a[key] == b[key] {
      var x :| x in keys + {k} && VarTag(x) == key;
      VarTagInjective(x, k);
    }
  }

  /** The keys visited so far, as a set. */
  function Visited(order: seq<string>): (keys: set<string>)
    ensures forall k :: k in keys <==> k in order
  {
    if order == [] then {} else Visited(order[..|order| - 1]) + {order[|order| - 1]}
  }

  lemma {:induction false} TagsOfVarCalls(ctx: Context, vars: map<string, string>, order: seq<string>, sp: Span)
    requires ctx.span == Some(sp)
    requires forall k :: k in order ==> k in vars
    ensures TagsOf(Dispatch(VarCalls(ctx, vars, order), AttachTag), sp) == TagsFor(vars, Visited(order))
    decreases |order|
  {
    if order != [] {
      var prefix := order[..|order| - 1];
      var k := order[|order| - 1];
      var before := Dispatch(VarCalls(ctx, vars, prefix), AttachTag);
      var e := TagSet(sp, VarTag(k), Str(vars[k]));
      assert Dispatch(VarCalls(ctx, vars, order), AttachTag) == before + [e] by {
        var calls := VarCalls(ctx, vars, order);
        assert calls[..|calls| - 1] == VarCalls(ctx, vars, prefix);
      }
      TagsOfVarCalls(ctx, vars, prefix, sp);
      TagsOfAppend(before, e, sp);
      TagsForAdd(vars, Visited(prefix), k);
    }
  }

  /** End to end: when MuxTagging serves a request on this backend with a span active, its own tag
      calls set exactly the route tags on that span (what the wrapped handler does is not modelled). */
  lemma TaggedSpanCarriesRouteTags(handler: Handler, req: Request, order: seq<string>, sp: Span)
    requires req.ctx.span == Some(sp)
    requires IsEnumeration(order, req.vars.Keys)
    ensures var calls := VarCalls(req.ctx, req.vars, order) + NameCalls(req.ctx, req.route) + [Serve(handler, req)];
            TagsOf(Dispatch(calls, AttachTag), sp) == RouteTags(req.vars, req.route)
  {
    var varCalls := VarCalls(req.ctx, req.vars, order);
    var nameCalls := NameCalls(req.ctx, req.route);
    var events := Dispatch(varCalls, AttachTag);
    DispatchServed(varCalls, nameCalls, handler, req, AttachTag);
    TagsOfVarCalls(req.ctx, req.vars, order, sp);
    assert Visited(order) == req.vars.Keys;
    if nameCalls != [] {
      var e := TagSet(sp, NameTag, Str(req.route.value.name));
      assert Dispatch(nameCalls, AttachTag) == [e] by {
        assert nameCalls[..0] == [];
      }
      TagsOfAppend(events, e, sp);
    } else {
      assert events + Dispatch(nameCalls, AttachTag) == events;
    }
  }
}
