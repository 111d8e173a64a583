# Faraday::Tracer, modelled in Dafny

`Faraday::Tracer` is a Faraday middleware that wraps every outgoing HTTP
request in an OpenTracing span. For each request it resolves a span name, a
parent span and a peer-service name, starts a span tagged with the request's
metadata, injects the span's context into the request headers, calls the next
app, tags the span with the response status (and as an error for 5xx), tags and
logs any configured exception before re-raising it unchanged, and finishes the
span on every exit path.

The model:

- `wrappers.dfy` (module `Wrappers`): `Option`, and the helper `Prefer`,
  Ruby's `a || b` on values that are nil or present.
- `ruby.dfy` (module `Ruby`): exceptions with their class ancestry, which
  exceptions a `rescue *classes` clause catches (`Rescues`, by `is_a?`), and
  `String#upcase` on ASCII (`Upcase`).
- `recording.dfy` (module `Recording`): the middleware's collaborators — the
  tracer, the span it starts, and the next app — seen as one `Recorder` object
  that appends every call made into them to a sequence of events
  (`SpanStarted`, `Injected`, `AppCalled`, `TagSet`, `Logged`, `Finished`).
- `tracer.dfy` (module `FaradayTracer`): the request (`Env`), its optional
  context (absent, not a Hash, or a Hash of three optional overrides), the
  parent reference (`NoParent | Concrete | Lazy`), the stored configuration,
  the four resolution helpers, the specification function `Trace` giving the
  events and the outcome of one call, and the class `Tracer` whose `Call`
  method performs the calls on the `Recorder` and is proved to follow `Trace`.
- `tracer_properties.dfy` (module `TracerProperties`): lemmas about `Trace`:
  one span started and finished once per call, finish last, the app called once
  and only after `inject`, 5xx tagging, exception capture and re-raise, a
  non-Hash context being ignored, and the scenarios of the project's own tests.

Modelling choices:

- The next app is represented by what it does when called: `Call` takes its
  `Outcome` (`Completes(status, body)` or `Raises(e)`) as a parameter, since
  the real app performs network I/O. The `on_complete` callback fires
  synchronously, before the `ensure` clause.
- A captured exception is one that `is_a?` one of the configured classes, as
  Ruby's `rescue` decides; the default list is `[StandardError]`, so
  `Timeout::Error` is captured and `Interrupt` is not.
- The `rescue` and `ensure` clauses of `call` enclose `inject` as well as the
  app call. The model follows the code there: a tracer whose `inject` raises a
  captured exception gets the error tag and log, the app is not called, the
  span is finished, and the exception propagates. Since the span has already
  been started when `inject` runs, the code does this bookkeeping even though
  the app was never reached.
- The `http.method` tag is the method symbol itself (`Sym("post")`), as the
  code passes `env[:method]` unconverted; only the span name upper-cases it.

## Model

| member | source | states |
|---|---|---|
| Ruby.Rescues | lib/faraday/tracer.rb:50 | `rescue *classes` catches `e` if and only if some listed class is among `e`'s ancestry; an empty list catches nothing |
| Ruby.Upcase | lib/faraday/tracer.rb:62 | upcasing keeps the length, maps each character to its upper case, and leaves no ASCII lower-case letter |
| FaradayTracer.SpanName | lib/faraday/tracer.rb:60-63 | the span name is the Hash context's `:span_name` when set, else the configured name, else the upper-cased method |
| FaradayTracer.ParentSpan | lib/faraday/tracer.rb:65-71 | the parent is the Hash context's `:span` when set, else the configured one; a producer is called and its result used, a span is passed through, and with neither the span is a root span |
| FaradayTracer.PeerService | lib/faraday/tracer.rb:88-91 | the service name is the Hash context's `:service_name` when set, else the configured one (possibly none) |
| FaradayTracer.PrepareTags | lib/faraday/tracer.rb:73-86 | the start tags always hold component "faraday", span.kind "client", the method and the URL string; `peer.service` is present if and only if a service name resolved, and no other key is |
| FaradayTracer.Trace | lib/faraday/tracer.rb:37-56 | a call's events open with `start_span` (with the resolved name, parent and tags) then `inject`, end with `finish`, and the caller sees exactly the app's outcome, or the exception `inject` raised |
| FaradayTracer.Tracer.constructor | lib/faraday/tracer.rb:21-35 | the middleware stores the tracer and the configured parent, span name, service name and error classes, with the error classes defaulting to `[StandardError]` |
| FaradayTracer.Tracer.Call | lib/faraday/tracer.rb:37-56 | one call starts one new span and appends to the tracer's record exactly the events `Trace` gives, returning `Trace`'s outcome |
| FaradayTracer.Tracer.OnComplete | lib/faraday/tracer.rb:42-49 | the completion block tags the status and, for status 500 or more, tags an error and logs the body |
| FaradayTracer.Tracer.Rescue | lib/faraday/tracer.rb:50-53 | the rescue clause tags an error and logs the exception object when it is of a configured class, and records nothing otherwise |
| Recording.Recorder.constructor | spec/faraday/support/recording_tracer.rb:4-6 | a new recording tracer has recorded nothing and started no span |
| Recording.Recorder.StartSpan | spec/faraday/support/recording_tracer.rb:8-10 | `start_span` returns a new span and records its name, parent and tags |
| Recording.Recorder.Inject | spec/faraday/support/recording_tracer.rb:12-13 | `inject` is recorded, and raises only what the tracer is configured to raise |
| Recording.Recorder.CallApp | lib/faraday/tracer.rb:42 | calling the next app is recorded |
| Recording.Recorder.SetTag | spec/faraday/support/recording_tracer.rb:31-32 | `set_tag` is recorded with its span, key and value |
| Recording.Recorder.LogKv | lib/faraday/tracer.rb:47 | `log_kv` is recorded with its span and fields |
| Recording.Recorder.Finish | spec/faraday/support/recording_tracer.rb:23-25 | `finish` is recorded with its span |
| TracerProperties.OneSpanPerCall | lib/faraday/tracer.rb:37-56 | every call starts exactly one span and finishes exactly one, as its last event; the app is called once, right after `inject`, exactly when `inject` did not raise; every span call is on the started span |
| TracerProperties.GuardedShape | lib/faraday/tracer.rb:41-53 | between `inject` and `finish` there are only tags, logs and at most one app call, which comes first |
| TracerProperties.CompletionTagging | lib/faraday/tracer.rb:42-49 | on completion the status code is tagged; the error tag and the body log are present if and only if the status is 500 or more; no exception is logged; the response is returned |
| TracerProperties.RaisedErrorHandling | lib/faraday/tracer.rb:50-55 | a raised exception comes out unchanged; the error tag and the log carrying that exception are present if and only if it is of a configured class; no status is tagged and no body logged; an exception outside the configured classes leaves no tag and no log at all |
| TracerProperties.NonHashContextIgnored | lib/faraday/tracer.rb:60-91 | a request context that is not a Hash yields the same call as no context at all |
| TracerProperties.PostSpanIsNamedPost | spec/faraday/tracer_spec.rb:6-9 | with no overrides a `:post` request's span is named "POST" |
| TracerProperties.ConfiguredParentIsChildOf | spec/faraday/tracer_spec.rb:16-30 | a configured parent span, or a producer returning it, reaches `start_span` as `child_of` |
| TracerProperties.TimeoutErrorIsCapturedByDefault | spec/faraday/tracer_spec.rb:32-55 | with the default error list a `Timeout::Error` from the app is tagged, logged as the same object, re-raised, and the span is finished |
| TracerProperties.InterruptIsNotCapturedByDefault | lib/faraday/tracer.rb:27 | with the default error list an `Interrupt` is neither tagged nor logged, is re-raised, and the span is still finished |

## Left out

- Faraday's middleware base class, `Faraday::Env` beyond the method, URL and request context, and the HTTP transport: the next app is an outcome passed to `Call`.
- The `OpenTracing.global_tracer` default for the tracer: the tracer is always passed to the constructor.
- What `inject` writes into the request headers under the Rack format, and span-context structure: `inject` is recorded as an event naming the span and the format.
- An `on_complete` callback that fires after the `ensure` clause has finished the span (an asynchronous adapter): the callback fires synchronously.
- `start_span` itself raising, which leaves `span` nil in the `ensure` clause.
- A parent producer (or any resolution helper) that raises: `span` is then still nil when the `rescue` and `ensure` clauses run, so `span.set_tag` or `span.finish` raises `NoMethodError`, which replaces the original exception; in the model a producer always returns a value.
- Exceptions raised by `set_tag`, `log_kv` or `finish`, or inside the completion block: the recorder never raises except from `inject`.
- Ruby duck typing: `respond_to?(:context)`, `respond_to?(:call)`, and `false` as an override value; overrides are explicit optional values and the parent is an explicit variant.
- FaradayTracer.ParentSpan: a producer is a pure Dafny function, so how many times it is invoked is not observable; the model calls it once, at call time, by construction.
- Ruby.Upcase: Unicode case mapping beyond ASCII is not modelled (HTTP method names are ASCII).
- The value returned by `on_complete` (the Faraday response object): the caller's result is the app's `Outcome` itself.
