/**
 * The redirect-chain engine of dispatcher.js as a state machine on values.
 *
 * The source runs a request as a chain of promise callbacks: `dispatch`
 * selects a rule (or the status handler) and calls `redirecting`, which
 * announces the hop, calls the handler and, when the handler settles,
 * dispatches again, calls `error`, or calls `redirected`; `error` either
 * re-dispatches a status or, on a second failure, finalizes.  Here each of
 * those transitions is one application of `Next` to a `State` and a pending
 * `Step`, and `Chain` runs the transitions until the chain is `Finished`.
 * The class `Dispatcher.Context` performs the same transitions in place and is
 * proved against these functions.
 */
module DispatchSpec {
  import opened Wrappers
  import opened Interpolation
  import opened Matching

  /** What a handler or the engine asks to dispatch next: a URL to route through
      the mappings, or a number meaning "synthesize a status response". */
  datatype Target = Url(url: string) | Code(status: int)

  /** The reason given to `error`: a number (kept as the status) or any other
      cause (an exception, a rejection value), which becomes status 500. */
  datatype Reason = Status(code: int) | Cause(description: string)

  /** How a handler's `redirect` call settles: resolved with a defined value,
      resolved with `undefined`, or rejected / thrown synchronously (both
      reach `error` with the reason). */
  datatype Settlement = Returns(target: Target) | ReturnsUndefined | Fails(reason: Reason)

  /** Everything a handler call does that the engine can observe: the status
      code it sets on the response (if any), whether it calls `response.end`,
      and how its promise settles. */
  datatype Outcome = Outcome(setStatus: Option<int>, callsEnd: bool, settlement: Settlement)

  /** The handler inputs the model keeps: the ordinal of the call within the
      request, the handler type and the (interpolated) redirect value. */
  datatype Invocation = Invocation(call: nat, kind: string, redirect: Value)

  /** The configuration fields the engine reads. */
  datatype Configuration = Configuration(mappings: seq<Mapping>, maxRedirect: int)

  /** What stays fixed during one request: the configuration, the external
      handlers (any behaviour, one outcome per call), and the request method. */
  datatype Env = Env(configuration: Configuration, handlers: Invocation -> Outcome, verb: string)

  /** The shared `emitParameters` accumulator (timestamps left out). */
  datatype Params = Params(
    verb: string,
    url: string,
    kind: Option<string>,
    redirect: Option<Value>,
    statusCode: Option<int>)

  /** The lifecycle events, each with the payload its listeners receive. */
  datatype Event =
    | OnIncoming(params: Params)
    | OnRedirecting(params: Params)
    | OnRedirected(params: Params)
    | OnError(params: Params, reason: Reason)

  /** The response as the engine sees it: its status code, the `$responseEnded`
      marker, how many end-wrappers `hookEnd` has installed, and whether the
      transport's own `end` has been called. */
  datatype ResponseState = ResponseState(statusCode: int, ended: bool, endWrappers: nat, finished: bool)

  /** The per-request state: the request's redirect-hop counter, the context's
      `failed` flag, the response, the emit accumulator, the emitted events
      (append-only), the value the request's promise resolved with, and the
      number of handler calls made so far. */
  datatype State = State(
    hops: nat,
    failed: bool,
    response: ResponseState,
    params: Params,
    trace: seq<Event>,
    resolution: Option<Params>,
    calls: nat)

  /** The pending continuation of the chain. */
  datatype Step = DispatchTo(target: Target, index: nat) | ErrorWith(reason: Reason) | Finished

  /** The argument `dispatch` builds for `redirecting`: handler type,
      interpolated redirect, the URL being routed (absent for a status
      redirect) and the index of the matched rule (0 for a status redirect). */
  datatype Descriptor = Descriptor(kind: string, redirect: Value, url: Option<string>, index: nat)

  /** `hookEnd`: install the end-wrapper unless one is already there. */
  function HookEnd(r: ResponseState): ResponseState {
    r.(endWrappers := if r.endWrappers == 0 then 1 else r.endWrappers)
  }

  /** `response.end()`: a wrapped end marks the response ended; the
      transport's end runs in every case. */
  function End(r: ResponseState): ResponseState {
    r.(ended := r.ended || r.endWrappers > 0, finished := true)
  }

  /** The observable effect of one handler call on the response. */
  function Apply(o: Outcome, r: ResponseState): ResponseState {
    var r1 := if o.setStatus.Some? then r.(statusCode := o.setStatus.value) else r;
    if o.callsEnd then End(r1) else r1
  }

  /** The rule-selection part of `dispatch`: a numeric target goes to the
      status handler without looking at the mappings; a URL goes to the first
      rule at or after `index` that matches, or nowhere. */
  function Route(env: Env, target: Target, index: nat): Option<Descriptor> {
    match target
    case Code(n) => Some(Descriptor("status", Number(n), None, 0))
    case Url(u) =>
      match FirstMatch(env.configuration.mappings, env.verb, u, index)
      case None => None
      case Some(hit) =>
        var mapping := env.configuration.mappings[hit.index];
        Some(Descriptor(mapping.kind, Interpolate(hit.captures, mapping.redirect), Some(u), hit.index))
  }

  /** `redirected`: record the final status code in the accumulator, emit
      `redirected`, resolve the request's promise (a promise resolves once). */
  function Finalize(st: State): (r: State)
    ensures r.trace == st.trace + [OnRedirected(r.params)]
    ensures Redirects(r.trace) == Redirects(st.trace) + 1 && Errors(r.trace) == Errors(st.trace)
    ensures r.params.statusCode == Some(st.response.statusCode)
    ensures r.params == st.params.(statusCode := Some(st.response.statusCode))
    ensures r.resolution == if st.resolution.None? then Some(r.params) else st.resolution
    ensures r.(params := st.params, trace := st.trace, resolution := st.resolution) == st
  {
    var p := st.params.(statusCode := Some(st.response.statusCode));
    CountsAppend(st.trace, OnRedirected(p));
    st.(params := p,
        trace := st.trace + [OnRedirected(p)],
        resolution := if st.resolution.None? then Some(p) else st.resolution)
  }

  /** The outcome the handler produces for the next call of this request. */
  function Invoke(env: Env, st: State, d: Descriptor): Outcome {
    env.handlers(Invocation(st.calls, d.kind, d.redirect))
  }

  /** The synchronous part of `redirecting`: record type and redirect in the
      accumulator, emit `redirecting`, hook `end`, and call the handler, whose
      effects on the response are those of its outcome. */
  function Announce(st: State, d: Descriptor, o: Outcome): (r: State)
    ensures r.trace == st.trace + [OnRedirecting(r.params)]
    ensures r.params == st.params.(kind := Some(d.kind), redirect := Some(d.redirect))
    ensures r.calls == st.calls + 1 && r.hops == st.hops && r.failed == st.failed && r.resolution == st.resolution
  {
    var p := st.params.(kind := Some(d.kind), redirect := Some(d.redirect));
    st.(params := p,
        trace := st.trace + [OnRedirecting(p)],
        response := Apply(o, HookEnd(st.response)),
        calls := st.calls + 1)
  }

  /** The callbacks attached to the handler's promise (and the `catch` around
      the call): a defined result is a new hop, `undefined` either finishes
      (response ended) or passes through to the next rule, and a rejection or
      throw goes to `error`. */
  function Interpret(env: Env, st: State, settlement: Settlement, d: Descriptor): (r: (State, Step))
    ensures r.0.failed == st.failed && r.0.calls == st.calls
    ensures |st.trace| <= |r.0.trace| && r.0.trace[..|st.trace|] == st.trace
    ensures Errors(r.0.trace) == Errors(st.trace)
    ensures Redirects(r.0.trace) == Redirects(st.trace) + (if r.1.Finished? then 1 else 0)
    ensures r.1.Finished? ==> |r.0.trace| > 0 && r.0.trace[|r.0.trace| - 1] == OnRedirected(r.0.params)
    ensures r.1.Finished? && st.resolution.None? ==> r.0.resolution == Some(r.0.params)
    ensures st.resolution.Some? ==> r.0.resolution == st.resolution
    ensures r.0.hops == st.hops || r.0.hops == st.hops + 1
    ensures r.0.hops == st.hops + 1 && r.0.hops > env.configuration.maxRedirect ==> r.1 == ErrorWith(Status(508))
    ensures r.0.hops == st.hops && r.1.DispatchTo? ==> r.1.target.Url? && r.1.index == d.index + 1
  {
    match settlement
    case Returns(t) =>
      var s2 := st.(hops := st.hops + 1);
      if s2.hops > env.configuration.maxRedirect then (s2, ErrorWith(Status(508)))
      else (s2, DispatchTo(t, 0))
    case ReturnsUndefined =>
      if st.response.ended then
        var s2 := Finalize(st);
        assert s2.trace[..|st.trace|] == st.trace;
        (s2, Finished)
      else (st, DispatchTo(Url(if d.url.Some? then d.url.value else "undefined"), d.index + 1))
    case Fails(reason) => (st, ErrorWith(reason))
  }

  /** `redirecting` as a whole.  A hop emits `redirecting` and calls the
      handler once; only a defined result moves the hop counter, by one; a
      pass-through resumes after the matched rule; `redirected` is emitted
      exactly when the chain finishes here. */
  function Settle(env: Env, st: State, d: Descriptor): (r: (State, Step))
    ensures r.0.failed == st.failed && r.0.calls == st.calls + 1
    ensures |st.trace| < |r.0.trace| && r.0.trace[..|st.trace|] == st.trace
    ensures Errors(r.0.trace) == Errors(st.trace)
    ensures Redirects(r.0.trace) == Redirects(st.trace) + (if r.1.Finished? then 1 else 0)
    ensures r.1.Finished? ==> r.0.trace[|r.0.trace| - 1] == OnRedirected(r.0.params)
    ensures r.1.Finished? && st.resolution.None? ==> r.0.resolution == Some(r.0.params)
    ensures st.resolution.Some? ==> r.0.resolution == st.resolution
    ensures r.0.hops == st.hops || r.0.hops == st.hops + 1
    ensures r.0.hops == st.hops + 1 && r.0.hops > env.configuration.maxRedirect ==> r.1 == ErrorWith(Status(508))
    ensures r.0.hops == st.hops && r.1.DispatchTo? ==> r.1.target.Url? && r.1.index == d.index + 1
  {
    var o := Invoke(env, st, d);
    var s1 := Announce(st, d, o);
    CountsAppend(st.trace, OnRedirecting(s1.params));
    assert s1.trace[..|st.trace|] == st.trace;
    var r := Interpret(env, s1, o.settlement, d);
    assert r.0.trace[..|st.trace|] == r.0.trace[..|s1.trace|][..|st.trace|];
    r
  }

  /** The status `error` routes: a numeric reason is kept, anything else is 500. */
  function StatusOf(reason: Reason): int {
    if reason.Status? then reason.code else 500
  }

  /** `error`: emit `error`; on a first failure set `failed` and re-dispatch
      the status; on a failure while already failed, end the response and
      finalize without dispatching again. */
  function Fail(st: State, reason: Reason): (r: (State, Step))
    ensures r.0.failed && r.0.hops == st.hops && r.0.calls == st.calls
    ensures |st.trace| < |r.0.trace| && r.0.trace[..|st.trace|] == st.trace
    ensures Errors(r.0.trace) == Errors(st.trace) + 1
    ensures r.1.Finished? == st.failed
    ensures Redirects(r.0.trace) == Redirects(st.trace) + (if r.1.Finished? then 1 else 0)
    ensures r.1.Finished? ==> r.0.trace[|r.0.trace| - 1] == OnRedirected(r.0.params)
    ensures r.1.Finished? && st.resolution.None? ==> r.0.resolution == Some(r.0.params)
    ensures st.resolution.Some? ==> r.0.resolution == st.resolution
    ensures !r.1.Finished? ==> r.1 == DispatchTo(Code(StatusOf(reason)), 0)
  {
    var s1 := st.(trace := st.trace + [OnError(st.params, reason)]);
    CountsAppend(st.trace, OnError(st.params, reason));
    if st.failed then
      var s2 := Finalize(s1.(response := End(s1.response)));
      assert s2.trace[..|st.trace|] == st.trace;
      (s2, Finished)
    else (s1.(failed := true), DispatchTo(Code(StatusOf(reason)), 0))
  }

  /* ---- the measure that every step lowers ---- */

  function FailRoom(st: State): nat {
    if st.failed then 0 else 1
  }

  /** Hops still allowed before the counter exceeds `max-redirect`. */
  function HopRoom(env: Env, st: State): nat {
    if st.hops > env.configuration.maxRedirect then 0
    else env.configuration.maxRedirect + 1 - st.hops
  }

  /** A numeric dispatch may pass through to a scan from index 1; a scan from
      `index` may pass through only to a later index; both may fail. */
  function StepRank(env: Env, step: Step): nat {
    var n := |env.configuration.mappings|;
    match step
    case Finished => 0
    case ErrorWith(_) => 1
    case DispatchTo(Url(_), i) => 2 + (if i < n then n - i else 0)
    case DispatchTo(Code(_), _) => n + 3
  }

  /** The lexicographic order on (FailRoom, HopRoom, StepRank). */
  predicate Below(env: Env, st2: State, k2: Step, st1: State, k1: Step) {
    FailRoom(st2) < FailRoom(st1)
    || (FailRoom(st2) == FailRoom(st1)
        && (HopRoom(env, st2) < HopRoom(env, st1)
            || (HopRoom(env, st2) == HopRoom(env, st1) && StepRank(env, k2) < StepRank(env, k1))))
  }

  /** Number of `redirected` events in a trace. */
  function Redirects(t: seq<Event>): nat {
    if t == [] then 0
    else Redirects(t[..|t| - 1]) + (if t[|t| - 1].OnRedirected? then 1 else 0)
  }

  /** Number of `error` events in a trace. */
  function Errors(t: seq<Event>): nat {
    if t == [] then 0
    else Errors(t[..|t| - 1]) + (if t[|t| - 1].OnError? then 1 else 0)
  }

  /** One transition of the engine.  Every transition lowers the measure, keeps
      the trace append-only, never lowers the hop counter, never clears
      `failed`, emits `error` exactly when it handles a failure, and emits
      `redirected` exactly when it finishes the chain. */
  function Next(env: Env, st: State, step: Step): (r: (State, Step))
    requires !step.Finished?
    ensures Below(env, r.0, r.1, st, step)
    ensures |st.trace| <= |r.0.trace| && r.0.trace[..|st.trace|] == st.trace
    ensures st.hops <= r.0.hops && st.calls <= r.0.calls
    ensures r.0.failed == (st.failed || step.ErrorWith?)
    ensures Errors(r.0.trace) == Errors(st.trace) + (if step.ErrorWith? then 1 else 0)
    ensures Redirects(r.0.trace) == Redirects(st.trace) + (if r.1.Finished? then 1 else 0)
    ensures r.1.Finished? ==> |r.0.trace| > 0 && r.0.trace[|r.0.trace| - 1] == OnRedirected(r.0.params)
    ensures r.1.Finished? && st.resolution.None? ==> r.0.resolution == Some(r.0.params)
    ensures st.resolution.Some? ==> r.0.resolution == st.resolution
    ensures st.failed && step.ErrorWith? ==> r.1.Finished?
  {
    match step
    case ErrorWith(reason) => Fail(st, reason)
    case DispatchTo(target, index) =>
      match Route(env, target, index)
      case None => (st, ErrorWith(Status(501)))
      case Some(d) => Settle(env, st, d)
  }

  /** The whole chain from a state and a pending step to its end.  It always
      terminates (whatever the handlers do) and it ends with exactly one more
      `redirected` event, as its last event, with the request's promise
      resolved; it emits at most two `error` events (one once `failed` is
      set), and it never lowers the hop counter or clears `failed`. */
  function Chain(env: Env, st: State, step: Step): (r: State)
    decreases FailRoom(st), HopRoom(env, st), StepRank(env, step)
    ensures |st.trace| <= |r.trace| && r.trace[..|st.trace|] == st.trace
    ensures st.hops <= r.hops && st.calls <= r.calls && (st.failed ==> r.failed)
    ensures step.Finished? ==> r == st
    ensures !step.Finished? ==> |r.trace| > |st.trace| && Redirects(r.trace) == Redirects(st.trace) + 1
    ensures !step.Finished? ==> r.trace[|r.trace| - 1] == OnRedirected(r.params) && r.resolution.Some?
    ensures Errors(r.trace) <= Errors(st.trace) + (if st.failed then 1 else 2)
  {
    if step.Finished? then st
    else
      var next := Next(env, st, step);
      var r := Chain(env, next.0, next.1);
      assert r.trace[..|st.trace|] == r.trace[..|next.0.trace|][..|st.trace|];
      r
  }
  lemma CountsAppend(t: seq<Event>, e: Event)
    ensures Redirects(t + [e]) == Redirects(t) + (if e.OnRedirected? then 1 else 0)
    ensures Errors(t + [e]) == Errors(t) + (if e.OnError? then 1 else 0)
  {
    assert (t + [e])[..|t|] == t;
  }

}
