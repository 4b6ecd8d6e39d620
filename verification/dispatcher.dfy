/**
 * The in-place side of dispatcher.js: the response whose `end` is wrapped,
 * the request's hop counter, the per-request dispatch context (`this` inside
 * `dispatch`, `redirecting`, `error` and `redirected`), the configuration's
 * in-flight list, and the exported entry point.  Each method performs the
 * transition of DispatchSpec that models it; the request's asynchronous chain
 * of callbacks becomes the loop of `Context.Run`, one transition per turn.
 */
module Dispatcher {
  import opened Wrappers
  import opened Interpolation
  import opened Matching
  import opened DispatchSpec
  import opened DispatchProps

  /** The transport response, with the two markers the dispatcher attaches. */
  class Response {
    var statusCode: int
    var ended: bool        // `$responseEnded`
    var endWrappers: nat   // wrappers installed around `end` (`$dispatcherEnd`)
    var finished: bool     // the transport's own `end` has run

    constructor (statusCode: int)
      ensures View() == ResponseState(statusCode, false, 0, false)
    {
      this.statusCode := statusCode;
      ended, endWrappers, finished := false, 0, false;
    }

    function View(): ResponseState
      reads this
    {
      ResponseState(statusCode, ended, endWrappers, finished)
    }

    /** `hookEnd(response)`: wrap `end` so that it sets the ended marker,
        unless the current `end` is already the dispatcher's wrapper. */
    method HookEnd()
      modifies this
      ensures View() == DispatchSpec.HookEnd(old(View()))
    {
      if endWrappers == 0 {
        endWrappers := 1;
      }
    }

    /** `response.end()`, through the wrapper when one is installed. */
    method End()
      modifies this
      ensures View() == DispatchSpec.End(old(View()))
    {
      if endWrappers > 0 {
        ended := true;
      }
      finished := true;
    }
  }

  /** The transport request with the dispatcher's hop counter
      (`$requestRedirectCount`). */
  class Request {
    const verb: string
    const url: string
    var redirectCount: nat

    constructor (verb: string, url: string)
      ensures this.verb == verb && this.url == url && redirectCount == 0
    {
      this.verb, this.url := verb, url;
      redirectCount := 0;
    }
  }

  /** The context object a request's dispatch runs on.  The event emitter is
      represented by the list of events it has been asked to emit, and the
      request's promise by the value it resolved with. */
  class Context {
    const configuration: Configuration
    const handlers: Invocation -> Outcome
    const request: Request
    const response: Response
    var failed: bool
    var emitParameters: Params
    var events: seq<Event>
    var resolution: Option<Params>
    var calls: nat

    constructor (configuration: Configuration, handlers: Invocation -> Outcome,
                 request: Request, response: Response, emitParameters: Params)
      ensures this.configuration == configuration && this.handlers == handlers
      ensures this.request == request && this.response == response
      ensures !failed && this.emitParameters == emitParameters
      ensures events == [] && resolution == None && calls == 0
    {
      this.configuration, this.handlers := configuration, handlers;
      this.request, this.response := request, response;
      failed := false;
      this.emitParameters := emitParameters;
      events, resolution, calls := [], None, 0;
    }

    function Env(): Env {
      DispatchSpec.Env(configuration, handlers, request.verb)
    }

    /** The context, request and response seen as one DispatchSpec state. */
    function Snapshot(): State
      reads this, request, response
    {
      State(request.redirectCount, failed, response.View(), emitParameters, events, resolution, calls)
    }

    /** `eventEmitter.emit(...)`: listeners are assumed not to throw, except
        for `error`, whose throw is caught and logged. */
    method Emit(e: Event)
      modifies this`events
      ensures events == old(events) + [e]
    {
      events := events + [e];
    }

    /** `redirected`: completes the accumulator, emits `redirected`, resolves. */
    method Redirected()
      modifies this`emitParameters, this`events, this`resolution
      ensures Snapshot() == Finalize(old(Snapshot()))
    {
      emitParameters := emitParameters.(statusCode := Some(response.statusCode));
      Emit(OnRedirected(emitParameters));
      if resolution.None? {
        resolution := Some(emitParameters);
      }
    }

    /** `redirecting`: announce the hop, hook `end`, call the handler, then
        run the callback for the way it settles. */
    method Redirecting(d: Descriptor) returns (next: Step)
      modifies this, request, response
      ensures (Snapshot(), next) == Settle(Env(), old(Snapshot()), d)
    {
      emitParameters := emitParameters.(kind := Some(d.kind), redirect := Some(d.redirect));
      Emit(OnRedirecting(emitParameters));
      response.HookEnd();
      var outcome := handlers(Invocation(calls, d.kind, d.redirect));
      calls := calls + 1;
      if outcome.setStatus.Some? {
        response.statusCode := outcome.setStatus.value;
      }
      if outcome.callsEnd {
        response.End();
      }
      assert Snapshot() == Announce(old(Snapshot()), d, outcome);
      next := Settled(outcome.settlement, d);
    }

    /** The callbacks given to the handler promise's `then`, and the `catch`
        around the handler call. */
    method Settled(settlement: Settlement, d: Descriptor) returns (next: Step)
      modifies this`emitParameters, this`events, this`resolution, request
      ensures (Snapshot(), next) == Interpret(Env(), old(Snapshot()), settlement, d)
    {
      match settlement {
        case Returns(target) =>
          request.redirectCount := request.redirectCount + 1;
          if request.redirectCount > configuration.maxRedirect {
            next := ErrorWith(Status(508));
          } else {
            next := DispatchTo(target, 0);
          }
        case ReturnsUndefined =>
          if response.ended {
            Redirected();
            next := Finished;
          } else {
            next := DispatchTo(Url(if d.url.Some? then d.url.value else "undefined"), d.index + 1);
          }
        case Fails(reason) =>
          next := ErrorWith(reason);
      }
    }

    /** `dispatch(url, index)`. */
    method Dispatch(target: Target, index: nat) returns (next: Step)
      modifies this, request, response
      ensures (Snapshot(), next) == Next(Env(), old(Snapshot()), DispatchTo(target, index))
    {
      match target {
        case Code(n) =>
          next := Redirecting(Descriptor("status", Number(n), None, 0));
        case Url(u) =>
          var hit := FindRule(configuration.mappings, request.verb, u, index);
          if hit.None? {
            next := ErrorWith(Status(501));
          } else {
            var mapping := configuration.mappings[hit.value.index];
            next := Redirecting(Descriptor(mapping.kind, Interpolate(hit.value.captures, mapping.redirect),
                                           Some(u), hit.value.index));
          }
      }
    }

    /** `error(reason)`. */
    method Error(reason: Reason) returns (next: Step)
      modifies this, request, response
      ensures (Snapshot(), next) == Next(Env(), old(Snapshot()), ErrorWith(reason))
    {
      var statusCode := if reason.Status? then reason.code else 500;
      Emit(OnError(emitParameters, reason));
      if failed {
        response.End();
        Redirected();
        next := Finished;
      } else {
        failed := true;
        next := DispatchTo(Code(statusCode), 0);
      }
    }

    /** Runs the chain that `dispatch(target)` starts until it finishes. */
    method Run(target: Target)
      modifies this, request, response
      ensures Snapshot() == Chain(Env(), old(Snapshot()), DispatchTo(target, 0))
    {
      var step := DispatchTo(target, 0);
      while !step.Finished?
        invariant Chain(Env(), Snapshot(), step) == Chain(Env(), old(Snapshot()), DispatchTo(target, 0))
        decreases FailRoom(Snapshot()), HopRoom(Env(), Snapshot()), StepRank(Env(), step)
      {
        match step {
          case DispatchTo(t, i) =>
            step := Dispatch(t, i);
          case ErrorWith(reason) =>
            step := Error(reason);
        }
      }
    }
  }

  /** A request's completion promise; identity is all the in-flight list uses. */
  class Promise {
    constructor ()
    {
    }
  }

  /** `configuration[$configurationRequests]`: the in-flight promises. */
  class Requests {
    var promises: seq<Promise>

    constructor ()
      ensures promises == []
    {
      promises := [];
    }

    method Push(p: Promise)
      modifies this
      ensures promises == old(promises) + [p]
    {
      promises := promises + [p];
    }

    /** `promises.filter(promise => promise !== p)`. */
    method Remove(p: Promise)
      modifies this
      ensures promises == Without(old(promises), p)
    {
      promises := Without(promises, p);
    }
  }

  /** The sequence with every occurrence of `x` removed, order kept. */
  function Without<T(==)>(s: seq<T>, x: T): (r: seq<T>)
    ensures x !in r
    ensures forall i :: 0 <= i < |r| ==> r[i] in s
    ensures forall i :: 0 <= i < |s| && s[i] != x ==> s[i] in r
    ensures |r| <= |s|
  {
    if s == [] then []
    else (if s[0] == x then [] else [s[0]]) + Without(s[1..], x)
  }

  lemma {:induction false} WithoutAppend<T>(s: seq<T>, y: T, x: T)
    ensures Without(s + [y], x) == Without(s, x) + (if y == x then [] else [y])
  {
    if s == [] {
      assert s + [y] == [y];
    } else {
      assert (s + [y])[1..] == s[1..] + [y];
      WithoutAppend(s[1..], y, x);
    }
  }

  /** Adding a fresh entry and then filtering it out restores the list. */
  lemma {:induction false} WithoutFresh<T>(s: seq<T>, x: T)
    requires x !in s
    ensures Without(s + [x], x) == s
  {
    WithoutAppend(s, x, x);
    WithoutAbsent(s, x);
  }

  lemma {:induction false} WithoutAbsent<T>(s: seq<T>, x: T)
    requires x !in s
    ensures Without(s, x) == s
  {
    if s != [] {
      assert x !in s[1..];
      WithoutAbsent(s[1..], x);
    }
  }

  /** The state a request starts in: hop counter 0, not failed, the
      accumulator holding method and URL, and `incoming` emitted. */
  function Initial(verb: string, url: string, response: ResponseState): State {
    var p := Params(verb, url, None, None, None);
    State(0, false, response, p, [OnIncoming(p)], None, 0)
  }

  /** Whatever the handlers do, a request's chain ends with exactly one
      `redirected` event, as its last event, with its promise resolved; it emits
      at most two `error` events and counts at most `max-redirect` + 2 hops. */
  lemma RequestChainFacts(env: Env, verb: string, url: string, response: ResponseState)
    ensures var final := Chain(env, Initial(verb, url, response), DispatchTo(Url(url), 0));
            Redirects(final.trace) == 1 && final.trace[|final.trace| - 1].OnRedirected?
            && Errors(final.trace) <= 2 && final.resolution.Some? && final.hops <= Cap(env) + 2
  {
    var start := Initial(verb, url, response);
    assert Redirects(start.trace) == 0 && Errors(start.trace) == 0 by {
      assert start.trace[..0] == [];
    }
    HopBound(env, start, DispatchTo(Url(url), 0));
  }

  /** The start of the exported entry: build the accumulator, emit
      `incoming`, and reset the request's hop counter. */
  method Incoming(configuration: Configuration, handlers: Invocation -> Outcome,
                  request: Request, response: Response) returns (context: Context)
    modifies request
    ensures fresh(context) && context.request == request && context.response == response
    ensures context.configuration == configuration && context.handlers == handlers
    ensures context.Snapshot() == Initial(request.verb, request.url, response.View())
  {
    var emitParameters := Params(request.verb, request.url, None, None, None);
    context := new Context(configuration, handlers, request, response, emitParameters);
    context.Emit(OnIncoming(emitParameters));
    request.redirectCount := 0;
  }

  /** The exported entry: announce the request, reset its hop counter, enter
      the in-flight list (the `hold` gate taken as open), run the chain, and
      leave the list once the request's promise has resolved.  The chain
      always ends with exactly one `redirected` event, emits at most two
      `error` events and counts at most `max-redirect` + 2 hops. */
  method Serve(configuration: Configuration, handlers: Invocation -> Outcome,
               requests: Requests, request: Request, response: Response) returns (context: Context)
    modifies requests, request, response
    ensures fresh(context) && context.request == request && context.response == response
    ensures context.Snapshot()
              == Chain(context.Env(), Initial(request.verb, request.url, old(response.View())),
                       DispatchTo(Url(request.url), 0))
    ensures Redirects(context.events) == 1 && context.events[|context.events| - 1].OnRedirected?
    ensures Errors(context.events) <= 2
    ensures context.resolution.Some?
    ensures request.redirectCount <= Cap(context.Env()) + 2
    ensures requests.promises == old(requests.promises)
  {
    var promise := new Promise();
    context := Incoming(configuration, handlers, request, response);
    ghost var env := context.Env();
    ghost var start := context.Snapshot();
    assert start == Initial(request.verb, request.url, old(response.View()));
    requests.Push(promise);
    context.Run(Url(request.url));
    ghost var final := Chain(env, start, DispatchTo(Url(request.url), 0));
    assert context.Snapshot() == final;
    requests.Remove(promise);
    assert context.Snapshot() == final;
    WithoutFresh(old(requests.promises), promise);
    RequestChainFacts(env, request.verb, request.url, old(response.View()));
    assert context.events == final.trace && context.resolution == final.resolution;
    assert request.redirectCount == final.hops;
  }
}
