/** What one `Faraday::Tracer#call` promises, stated over the events it
    records (see `FaradayTracer.Trace`, which `Tracer.Call` is proved to
    follow). */
module TracerProperties {
  import opened Wrappers
  import opened Ruby
  import opened Recording
  import opened FaradayTracer

  /** `e` is the next-app call, or a call on `span` (or on its context). */
  predicate AboutSpan(e: Event, span: SpanRef) {
    match e
    case SpanStarted(s, _, _, _) => s == span
    case Injected(c, _) => c == span
    case AppCalled => true
    case TagSet(s, _, _) => s == span
    case Logged(s, _) => s == span
    case Finished(s) => s == span
  }

  /** The log entry the `on_complete` block writes for a 5xx response. */
  function MessageLog(span: SpanRef, body: string): Event {
    Logged(span, map["event" := Text("error"), "message" := Text(body)])
  }

  /** The log entry the rescue clause writes for a captured exception. */
  function ExceptionLog(span: SpanRef, e: Exception): Event {
    Logged(span, map["event" := Text("error"), "error.object" := Raised(e)])
  }

  /** Between `inject` and `finish` only tags, logs and the app call
      happen, all on the started span, and the app is called first, once,
      and only when `inject` succeeded. */
  lemma {:induction false} GuardedShape(errors: seq<string>, span: SpanRef, fault: Option<Exception>, response: Outcome)
    ensures var g := Guarded(errors, span, fault, response);
      (forall i :: 0 <= i < |g| ==> (g[i].TagSet? || g[i].Logged? || g[i].AppCalled?) && AboutSpan(g[i], span)) &&
      (fault.None? <==> |g| > 0 && g[0] == AppCalled) &&
      (forall i :: 0 < i < |g| ==> !g[i].AppCalled?)
  {
    var g := Guarded(errors, span, fault, response);
    match fault
    case Some(e) =>
      assert g == RescueEvents(errors, span, e);
    case None =>
      match response
      case Completes(status, body) =>
        assert g == [AppCalled] + CompletionEvents(span, status, body);
      case Raises(e) =>
        assert g == [AppCalled] + RescueEvents(errors, span, e);
  }

  /** The events of a call: the opening `start_span` and `inject`, the
      guarded part, and `finish`. */
  lemma TraceShape(cfg: Config, env: Env, span: SpanRef, fault: Option<Exception>, response: Outcome)
    ensures var evs := Trace(cfg, env, span, fault, response).events;
      evs == evs[..2] + Guarded(cfg.errors, span, fault, response) + [Finished(span)] &&
      evs[0].SpanStarted? && evs[0].span == span && evs[1] == Injected(span, Rack)
  {
  }

  /** Counting over a call's events, given the shape of its parts. */
  lemma {:induction false} CountCallEvents(opening: seq<Event>, g: seq<Event>, span: SpanRef, called: bool)
    requires |opening| == 2 && opening[0].SpanStarted? && opening[1].Injected?
    requires forall i :: 0 <= i < |g| ==> g[i].TagSet? || g[i].Logged? || g[i].AppCalled?
    requires called <==> |g| > 0 && g[0] == AppCalled
    requires forall i :: 0 < i < |g| ==> !g[i].AppCalled?
    ensures var evs := opening + g + [Finished(span)];
      Count(evs, IsStart) == 1 && Count(evs, IsFinish) == 1 &&
      Count(evs, IsAppCall) == (if called then 1 else 0)
  {
    assert Count(g, IsStart) == 0 && Count(g, IsFinish) == 0;
    CountAppend(opening + g, [Finished(span)], IsStart);
    CountAppend(opening, g, IsStart);
    CountAppend(opening + g, [Finished(span)], IsFinish);
    CountAppend(opening, g, IsFinish);
    CountAppend(opening + g, [Finished(span)], IsAppCall);
    CountAppend(opening, g, IsAppCall);
    if called {
      assert g == [AppCalled] + g[1..];
      CountAppend([AppCalled], g[1..], IsAppCall);
    } else {
      assert Count(g, IsAppCall) == 0;
    }
  }

  /** Each call starts exactly one span and finishes it exactly once, as
      its last act; it calls the next app at most once, right after
      `inject`, and only if `inject` did not raise; and every span call it
      makes is on the span it started. */
  lemma {:induction false} OneSpanPerCall(cfg: Config, env: Env, span: SpanRef, fault: Option<Exception>, response: Outcome)
    ensures var evs := Trace(cfg, env, span, fault, response).events;
      Count(evs, IsStart) == 1 && Count(evs, IsFinish) == 1 &&
      evs[|evs| - 1] == Finished(span) &&
      Count(evs, IsAppCall) == (if fault.None? then 1 else 0) &&
      (fault.None? <==> evs[2] == AppCalled) &&
      (forall i :: 0 <= i < |evs| ==> AboutSpan(evs[i], span))
  {
    var evs := Trace(cfg, env, span, fault, response).events;
    var g := Guarded(cfg.errors, span, fault, response);
    TraceShape(cfg, env, span, fault, response);
    GuardedShape(cfg.errors, span, fault, response);
    CountCallEvents(evs[..2], g, span, fault.None?);
    forall i | 0 <= i < |evs| ensures AboutSpan(evs[i], span) {
      if 2 <= i < |evs| - 1 {
        assert evs[i] == g[i - 2];
      }
    }
  }

  /** The two error logs are told apart by their fields. */
  lemma LogsDiffer(span: SpanRef, body: string, e: Exception)
    ensures MessageLog(span, body) != ExceptionLog(span, e)
  {
    assert "message" !in ExceptionLog(span, e).fields;
  }

  /** A tag or a log is among a call's events exactly when it is in the
      guarded part. */
  lemma {:induction false} TagsAndLogsAreGuarded(evs: seq<Event>, g: seq<Event>, span: SpanRef, x: Event)
    requires |evs| >= 2 && evs[0].SpanStarted? && evs[1].Injected?
    requires evs == evs[..2] + g + [Finished(span)]
    requires x.TagSet? || x.Logged?
    ensures x in evs <==> x in g
  {
    if x in evs {
      var i :| 0 <= i < |evs| && evs[i] == x;
      assert 2 <= i < |evs| - 1;
      assert g[i - 2] == x;
    }
  }

  /** When the next app completes, the span gets the status code, and it
      gets the error tag and the body-carrying error log if and only if
      the status is 500 or more; nothing is logged about an exception. */
  lemma CompletionTagging(cfg: Config, env: Env, span: SpanRef, status: int, body: string)
    ensures var run := Trace(cfg, env, span, None, Completes(status, body));
      run.result == Completes(status, body) &&
      TagSet(span, "http.status_code", Int(status)) in run.events &&
      (TagSet(span, "error", Bool(true)) in run.events <==> status >= 500) &&
      (MessageLog(span, body) in run.events <==> status >= 500) &&
      (forall e :: ExceptionLog(span, e) !in run.events)
  {
    var evs := Trace(cfg, env, span, None, Completes(status, body)).events;
    var g := Guarded(cfg.errors, span, None, Completes(status, body));
    TraceShape(cfg, env, span, None, Completes(status, body));
    if status >= 500 {
      assert g == [AppCalled, TagSet(span, "http.status_code", Int(status)), TagSet(span, "error", Bool(true)), MessageLog(span, body)];
    } else {
      assert g == [AppCalled, TagSet(span, "http.status_code", Int(status))];
    }
    TagsAndLogsAreGuarded(evs, g, span, TagSet(span, "http.status_code", Int(status)));
    TagsAndLogsAreGuarded(evs, g, span, TagSet(span, "error", Bool(true)));
    TagsAndLogsAreGuarded(evs, g, span, MessageLog(span, body));
    forall e ensures ExceptionLog(span, e) !in evs {
      LogsDiffer(span, body, e);
      TagsAndLogsAreGuarded(evs, g, span, ExceptionLog(span, e));
    }
  }

  /** When `inject` or the next app raises `e`, exactly `e` comes out of
      the call; the span gets the error tag and the log carrying `e` if
      and only if `e` is an instance of a configured error class; no
      status code is tagged and no response body is logged; and an `e`
      outside the configured classes leaves no tag and no log at all. */
  lemma RaisedErrorHandling(cfg: Config, env: Env, span: SpanRef, fault: Option<Exception>, response: Outcome, e: Exception)
    requires fault == Some(e) || (fault.None? && response == Raises(e))
    ensures var run := Trace(cfg, env, span, fault, response);
      run.result == Raises(e) &&
      (TagSet(span, "error", Bool(true)) in run.events <==> Rescues(cfg.errors, e)) &&
      (ExceptionLog(span, e) in run.events <==> Rescues(cfg.errors, e)) &&
      (forall status :: TagSet(span, "http.status_code", Int(status)) !in run.events) &&
      (forall body :: MessageLog(span, body) !in run.events) &&
      (!Rescues(cfg.errors, e) ==>
         forall i :: 0 <= i < |run.events| ==> !run.events[i].TagSet? && !run.events[i].Logged?)
  {
    var evs := Trace(cfg, env, span, fault, response).events;
    var g := Guarded(cfg.errors, span, fault, response);
    TraceShape(cfg, env, span, fault, response);
    var rescued := if Rescues(cfg.errors, e) then [TagSet(span, "error", Bool(true)), ExceptionLog(span, e)] else [];
    assert g == (if fault.Some? then [] else [AppCalled]) + rescued;
    TagsAndLogsAreGuarded(evs, g, span, TagSet(span, "error", Bool(true)));
    TagsAndLogsAreGuarded(evs, g, span, ExceptionLog(span, e));
    forall status ensures TagSet(span, "http.status_code", Int(status)) !in evs {
      TagsAndLogsAreGuarded(evs, g, span, TagSet(span, "http.status_code", Int(status)));
    }
    forall body ensures MessageLog(span, body) !in evs {
      LogsDiffer(span, body, e);
      TagsAndLogsAreGuarded(evs, g, span, MessageLog(span, body));
    }
    if !Rescues(cfg.errors, e) {
      forall i | 0 <= i < |evs| ensures !evs[i].TagSet? && !evs[i].Logged? {
        if 2 <= i < |evs| - 1 {
          assert evs[i] == g[i - 2];
        }
      }
    }
  }

  /** A context that is not a Hash is treated exactly like no context. */
  lemma NonHashContextIgnored(cfg: Config, env: Env, span: SpanRef, fault: Option<Exception>, response: Outcome)
    requires env.context.NotAHash?
    ensures Trace(cfg, env, span, fault, response) == Trace(cfg, env.(context := NoContext), span, fault, response)
  {
  }

  /** Ruby class ancestry of `Timeout::Error`, an ordinary runtime error. */
  const TimeoutErrorAncestry := ["Timeout::Error", "RuntimeError", StandardError, "Exception", "Object", "BasicObject"]

  /** Ruby class ancestry of `Interrupt`, raised on Ctrl-C. */
  const InterruptAncestry := ["Interrupt", "SignalException", "Exception", "Object", "BasicObject"]

  /** With no overrides, a POST request's span is named "POST". */
  lemma PostSpanIsNamedPost(url: string)
    ensures SpanName(Env("post", url, NoContext), None) == "POST"
  {
    var name := SpanName(Env("post", url, NoContext), None);
    assert name == Upcase("post");
    assert name[0] == 'P' && name[1] == 'O' && name[2] == 'S' && name[3] == 'T';
  }

  /** A parent given at construction reaches `start_span` as `child_of:`,
      whether it is the span itself or a producer returning it. */
  lemma ConfiguredParentIsChildOf(p: SpanRef, env: Env, span: SpanRef, fault: Option<Exception>, response: Outcome)
    requires !HasParentOverride(env.context)
    ensures Trace(Config(Concrete(p), None, None, DefaultErrors), env, span, fault, response).events[0].childOf == Some(p)
    ensures Trace(Config(Lazy(() => Some(p)), None, None, DefaultErrors), env, span, fault, response).events[0].childOf == Some(p)
  {
  }

  /** With the default error list, an app raising `Timeout::Error` leaves
      a span tagged as an error, logging the very exception, finished,
      and the same exception comes out of the call. */
  lemma TimeoutErrorIsCapturedByDefault(env: Env, span: SpanRef, id: nat)
    ensures var e := Exception(id, TimeoutErrorAncestry);
      var run := Trace(Config(NoParent, None, None, DefaultErrors), env, span, None, Raises(e));
      run.result == Raises(e) &&
      TagSet(span, "error", Bool(true)) in run.events &&
      ExceptionLog(span, e) in run.events &&
      run.events[|run.events| - 1] == Finished(span)
  {
    var e := Exception(id, TimeoutErrorAncestry);
    assert IsA(e, DefaultErrors[0]);
    RaisedErrorHandling(Config(NoParent, None, None, DefaultErrors), env, span, None, Raises(e), e);
  }

  /** With the default error list, an `Interrupt` is not captured: it
      propagates with no tag and no log, and the span is still finished. */
  lemma InterruptIsNotCapturedByDefault(env: Env, span: SpanRef, id: nat)
    ensures var e := Exception(id, InterruptAncestry);
      var run := Trace(Config(NoParent, None, None, DefaultErrors), env, span, None, Raises(e));
      run.result == Raises(e) &&
      TagSet(span, "error", Bool(true)) !in run.events &&
      (forall i :: 0 <= i < |run.events| ==> !run.events[i].TagSet? && !run.events[i].Logged?) &&
      run.events[|run.events| - 1] == Finished(span)
  {
    var e := Exception(id, InterruptAncestry);
    assert !Rescues(DefaultErrors, e);
    RaisedErrorHandling(Config(NoParent, None, None, DefaultErrors), env, span, None, Raises(e), e);
  }
}
