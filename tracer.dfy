/** `Faraday::Tracer`: the middleware that wraps every outgoing Faraday
    request in an OpenTracing span. */
module FaradayTracer {
  import opened Wrappers
  import opened Ruby
  import opened Recording

  /** A parent for the new span: none (a root span), a span or span
      context used as it is, or a zero-argument producer called when the
      request is made. A producer may itself yield nothing. */
  datatype ParentRef =
    | NoParent
    | Concrete(span: SpanRef)
    | Lazy(produce: () -> Option<SpanRef>)

  /** The keys of a per-request context hash the middleware looks at:
      `:span_name`, `:span` and `:service_name`. A key that is absent
      (or nil) is `None` / `NoParent`. */
  datatype Overrides = Overrides(spanName: Option<string>, span: ParentRef, serviceName: Option<string>)

  /** `env.request.context`: absent (the request has no `context`, or it is
      nil), present but not a Hash, or a Hash. */
  datatype RequestContext = NoContext | NotAHash | Hash(overrides: Overrides)

  /** The parts of `Faraday::Env` the middleware reads: the method symbol's
      name (`:post` is "post"), the URL's string form and the context. */
  datatype Env = Env(httpMethod: string, url: string, context: RequestContext)

  /** What the next app does: completes with a response, or raises. */
  datatype Outcome = Completes(status: int, body: string) | Raises(error: Exception)

  /** The middleware's stored configuration (`@parent_span`, `@span_name`,
      `@service_name`, `@errors`). */
  datatype Config = Config(parentSpan: ParentRef, spanName: Option<string>, serviceName: Option<string>, errors: seq<string>)

  const DefaultErrors: seq<string> := [StandardError]
  const Component := "faraday"

  predicate HasSpanNameOverride(ctx: RequestContext) {
    ctx.Hash? && ctx.overrides.spanName.Some?
  }

  predicate HasParentOverride(ctx: RequestContext) {
    ctx.Hash? && !ctx.overrides.span.NoParent?
  }

  predicate HasServiceNameOverride(ctx: RequestContext) {
    ctx.Hash? && ctx.overrides.serviceName.Some?
  }

  /** The span name: the request's `:span_name`, else the configured name,
      else the upper-cased HTTP method. */
  function SpanName(env: Env, configured: Option<string>): (name: string)
    ensures HasSpanNameOverride(env.context) ==> name == env.context.overrides.spanName.value
    ensures !HasSpanNameOverride(env.context) && configured.Some? ==> name == configured.value
    ensures !HasSpanNameOverride(env.context) && configured.None? ==> name == Upcase(env.httpMethod)
  {
    var requested := if env.context.Hash? then env.context.overrides.spanName else None;
    Prefer(requested, configured).GetOr(Upcase(env.httpMethod))
  }

  /** The parent reference in force: the request's `:span`, else the
      configured one. */
  function EffectiveParent(ctx: RequestContext, configured: ParentRef): ParentRef {
    if HasParentOverride(ctx) then ctx.overrides.span else configured
  }

  /** The parent passed as `child_of:`, resolved when the request is made:
      a producer is called, anything else is passed through, and with
      neither an override nor a default the span is a root span. */
  function ParentSpan(env: Env, configured: ParentRef): (parent: Option<SpanRef>)
    ensures !HasParentOverride(env.context) && configured.NoParent? ==> parent.None?
    ensures HasParentOverride(env.context) && env.context.overrides.span.Concrete? ==>
              parent == Some(env.context.overrides.span.span)
    ensures HasParentOverride(env.context) && env.context.overrides.span.Lazy? ==>
              parent == env.context.overrides.span.produce()
    ensures !HasParentOverride(env.context) && configured.Concrete? ==> parent == Some(configured.span)
    ensures !HasParentOverride(env.context) && configured.Lazy? ==> parent == configured.produce()
  {
    match EffectiveParent(env.context, configured)
    case NoParent => None
    case Concrete(s) => Some(s)
    case Lazy(produce) => produce()
  }

  /** The remote service name: the request's `:service_name`, else the
      configured one, else none. */
  function PeerService(env: Env, configured: Option<string>): (service: Option<string>)
    ensures HasServiceNameOverride(env.context) ==> service == env.context.overrides.serviceName
    ensures !HasServiceNameOverride(env.context) ==> service == configured
  {
    Prefer(if env.context.Hash? then env.context.overrides.serviceName else None, configured)
  }

  /** The tags the span is started with. */
  function PrepareTags(env: Env, service: Option<string>): (tags: map<string, TagValue>)
    ensures "component" in tags && tags["component"] == Str(Component)
    ensures "span.kind" in tags && tags["span.kind"] == Str("client")
    ensures "http.method" in tags && tags["http.method"] == Sym(env.httpMethod)
    ensures "http.url" in tags && tags["http.url"] == Str(env.url)
    ensures "peer.service" in tags <==> service.Some?
    ensures service.Some? ==> tags["peer.service"] == Str(service.value)
    ensures tags.Keys <= {"component", "span.kind", "http.method", "http.url", "peer.service"}
  {
    var tags := map[
      "component" := Str(Component),
      "span.kind" := Str("client"),
      "http.method" := Sym(env.httpMethod),
      "http.url" := Str(env.url)
    ];
    if service.Some? then tags["peer.service" := Str(service.value)] else tags
  }

  /** The `on_complete` callback: the status code, and for a status of 500
      or more an error tag and a log carrying the response body. */
  function CompletionEvents(span: SpanRef, status: int, body: string): seq<Event> {
    [TagSet(span, "http.status_code", Int(status))]
    + if status >= 500
      then [TagSet(span, "error", Bool(true)), Logged(span, map["event" := Text("error"), "message" := Text(body)])]
      else []
  }

  /** The `rescue *@errors => e` clause: an error tag and a log carrying the
      exception object, when the exception is one of the configured classes. */
  function RescueEvents(errors: seq<string>, span: SpanRef, e: Exception): seq<Event> {
    if Rescues(errors, e)
    then [TagSet(span, "error", Bool(true)), Logged(span, map["event" := Text("error"), "error.object" := Raised(e)])]
    else []
  }

  /** The events one `call` records, and what the caller of `call` sees. */
  datatype Run = Run(events: seq<Event>, result: Outcome)

  /** What `call` records between `inject` and the `ensure` clause: a
      failing `inject` goes straight to the rescue clause; otherwise the
      next app is called and either completes or raises. */
  function Guarded(errors: seq<string>, span: SpanRef, injectFault: Option<Exception>, response: Outcome): seq<Event> {
    match injectFault
    case Some(e) => RescueEvents(errors, span, e)
    case None =>
      [AppCalled] + match response
                    case Completes(status, body) => CompletionEvents(span, status, body)
                    case Raises(e) => RescueEvents(errors, span, e)
  }

  /** One `call(env)` of a middleware configured by `cfg`, whose tracer
      numbers the new span `span` and raises `injectFault` from `inject`,
      in front of a next app that behaves as `response`. */
  function Trace(cfg: Config, env: Env, span: SpanRef, injectFault: Option<Exception>, response: Outcome): (run: Run)
    ensures |run.events| >= 3
    ensures run.events[0] == SpanStarted(span, SpanName(env, cfg.spanName), ParentSpan(env, cfg.parentSpan),
                                         PrepareTags(env, PeerService(env, cfg.serviceName)))
    ensures run.events[1] == Injected(span, Rack)
    ensures run.events[|run.events| - 1] == Finished(span)
    ensures run.result == if injectFault.Some? then Raises(injectFault.value) else response
  {
    var start := SpanStarted(span, SpanName(env, cfg.spanName), ParentSpan(env, cfg.parentSpan),
                             PrepareTags(env, PeerService(env, cfg.serviceName)));
    Run([start, Injected(span, Rack)] + Guarded(cfg.errors, span, injectFault, response) + [Finished(span)],
        if injectFault.Some? then Raises(injectFault.value) else response)
  }

  /** The middleware object. Its configuration is fixed at construction. */
  class Tracer {
    const tracer: Recorder
    const config: Config

    constructor (tracer: Recorder, span: ParentRef := NoParent, spanName: Option<string> := None,
                 serviceName: Option<string> := None, errors: seq<string> := DefaultErrors)
      ensures this.tracer == tracer
      ensures config == Config(span, spanName, serviceName, errors)
    {
      this.tracer := tracer;
      config := Config(span, spanName, serviceName, errors);
    }

    /** `call(env)`: start a span, inject it into the request headers, run
        the next app, tag the outcome, re-raise any exception, and finish
        the span on the way out. */
    method Call(env: Env, response: Outcome) returns (r: Outcome)
      modifies tracer
      ensures tracer.nextId == old(tracer.nextId) + 1
      ensures var run := Trace(config, env, SpanRef(old(tracer.nextId)), tracer.injectFault, response);
              tracer.events == old(tracer.events) + run.events && r == run.result
    {
      var span := tracer.StartSpan(SpanName(env, config.spanName), ParentSpan(env, config.parentSpan),
                                   PrepareTags(env, PeerService(env, config.serviceName)));
      var raised := tracer.Inject(span, Rack);
      ghost var injected := tracer.events;
      if raised.None? {
        tracer.CallApp();
        match response
        case Completes(status, body) =>
          OnComplete(span, status, body);
        case Raises(e) =>
          raised := Some(e);
      }
      if raised.Some? {
        Rescue(span, raised.value);
        r := Raises(raised.value);
      } else {
        r := response;
      }
      assert tracer.events == injected + Guarded(config.errors, span, tracer.injectFault, response);
      tracer.Finish(span);
    }

    /** The block given to `on_complete`, run when the response arrives. */
    method OnComplete(span: SpanRef, status: int, body: string)
      modifies tracer
      ensures tracer.nextId == old(tracer.nextId)
      ensures tracer.events == old(tracer.events) + CompletionEvents(span, status, body)
    {
      tracer.SetTag(span, "http.status_code", Int(status));
      if status >= 500 {
        tracer.SetTag(span, "error", Bool(true));
        tracer.LogKv(span, map["event" := Text("error"), "message" := Text(body)]);
      }
    }

    /** The `rescue *@errors => e` clause, up to the re-raise. */
    method Rescue(span: SpanRef, e: Exception)
      modifies tracer
      ensures tracer.nextId == old(tracer.nextId)
      ensures tracer.events == old(tracer.events) + RescueEvents(config.errors, span, e)
    {
      if Rescues(config.errors, e) {
        tracer.SetTag(span, "error", Bool(true));
        tracer.LogKv(span, map["event" := Text("error"), "error.object" := Raised(e)]);
      }
    }
  }
}
