/** The middleware's collaborators, seen only through the calls it makes
    into them: the OpenTracing tracer (`start_span`, `inject`), the span it
    starts (`set_tag`, `log_kv`, `finish`) and the next app in the chain.
    A `Recorder` stands in for all three and keeps those calls, in order,
    as a sequence of events. */
module Recording {
  import opened Wrappers
  import opened Ruby

  /** A span or span context, as passed to `child_of:` or returned by
      `start_span`. */
  datatype SpanRef = SpanRef(id: nat)

  /** The carrier format handed to `inject`; the middleware only ever
      uses the Rack header format. */
  datatype Format = Rack

  datatype TagValue = Str(s: string) | Sym(name: string) | Int(n: int) | Bool(b: bool)

  datatype LogValue = Text(s: string) | Raised(e: Exception)

  datatype Event =
    | SpanStarted(span: SpanRef, name: string, childOf: Option<SpanRef>, tags: map<string, TagValue>)
    | Injected(context: SpanRef, format: Format)
    | AppCalled
    | TagSet(span: SpanRef, key: string, value: TagValue)
    | Logged(span: SpanRef, fields: map<string, LogValue>)
    | Finished(span: SpanRef)

  predicate IsStart(e: Event) { e.SpanStarted? }
  predicate IsFinish(e: Event) { e.Finished? }
  predicate IsAppCall(e: Event) { e.AppCalled? }

  /** The number of events in `evs` that satisfy `p`. */
  function Count(evs: seq<Event>, p: Event -> bool): (n: nat)
    ensures n <= |evs|
    ensures n == 0 <==> forall i :: 0 <= i < |evs| ==> !p(evs[i])
  {
    if evs == [] then 0 else (if p(evs[0]) then 1 else 0) + Count(evs[1..], p)
  }

  lemma {:induction false} CountAppend(a: seq<Event>, b: seq<Event>, p: Event -> bool)
    ensures Count(a + b, p) == Count(a, p) + Count(b, p)
  {
    if a == [] {
      assert a + b == b;
    } else {
      assert (a + b)[1..] == a[1..] + b;
      CountAppend(a[1..], b, p);
    }
  }

  /** Records every call made into the tracer, the spans and the next app.
      Spans it starts are numbered from `nextId`; `injectFault` is the
      exception, if any, that its `inject` raises (a misconfigured tracer). */
  class Recorder {
    var events: seq<Event>
    var nextId: nat
    const injectFault: Option<Exception>

    constructor (injectFault: Option<Exception>)
      ensures events == [] && nextId == 0 && this.injectFault == injectFault
    {
      events := [];
      nextId := 0;
      this.injectFault := injectFault;
    }

    /** `tracer.start_span(name, child_of:, tags:)`: returns a new span. */
    method StartSpan(name: string, childOf: Option<SpanRef>, tags: map<string, TagValue>) returns (span: SpanRef)
      modifies this
      ensures span == SpanRef(old(nextId)) && nextId == old(nextId) + 1
      ensures events == old(events) + [SpanStarted(span, name, childOf, tags)]
    {
      span := SpanRef(nextId);
      nextId := nextId + 1;
      events := events + [SpanStarted(span, name, childOf, tags)];
    }

    /** `tracer.inject(span.context, format, carrier)`; the call is recorded
        whether or not it raises. */
    method Inject(context: SpanRef, format: Format) returns (raised: Option<Exception>)
      modifies this
      ensures raised == injectFault && nextId == old(nextId)
      ensures events == old(events) + [Injected(context, format)]
    {
      raised := injectFault;
      events := events + [Injected(context, format)];
    }

    /** `@app.call(env)`. */
    method CallApp()
      modifies this
      ensures nextId == old(nextId) && events == old(events) + [AppCalled]
    {
      events := events + [AppCalled];
    }

    /** `span.set_tag(key, value)`. */
    method SetTag(span: SpanRef, key: string, value: TagValue)
      modifies this
      ensures nextId == old(nextId) && events == old(events) + [TagSet(span, key, value)]
    {
      events := events + [TagSet(span, key, value)];
    }

    /** `span.log_kv(**fields)`. */
    method LogKv(span: SpanRef, fields: map<string, LogValue>)
      modifies this
      ensures nextId == old(nextId) && events == old(events) + [Logged(span, fields)]
    {
      events := events + [Logged(span, fields)];
    }

    /** `span.finish`. */
    method Finish(span: SpanRef)
      modifies this
      ensures nextId == old(nextId) && events == old(events) + [Finished(span)]
    {
      events := events + [Finished(span)];
    }
  }
}
