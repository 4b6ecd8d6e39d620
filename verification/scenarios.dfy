/**
 * End-to-end runs of the dispatcher on small configurations: a status rule
 * that answers directly, a request no rule matches, and a handler that keeps
 * redirecting until the loop guard stops it.  The status handler in these
 * runs sets the status code it is given and ends the response.
 */
module Scenarios {
  import opened Wrappers
  import opened Interpolation
  import opened Matching
  import opened DispatchSpec
  import opened Dispatcher

  /** A status handler that renders the status it receives; every other
      handler type keeps redirecting to "/next". */
  function Handlers(inv: Invocation): Outcome {
    if inv.kind == "status" && inv.redirect.Number? then
      Outcome(Some(inv.redirect.number), true, ReturnsUndefined)
    else
      Outcome(None, false, Returns(Url("/next")))
  }

  /** A pattern that matches exactly the URL `u`. */
  function Exactly(u: string): string -> Option<Captures> {
    url => if url == u then Some([Some(url)]) else None
  }

  /** Any URL matches. */
  function Anything(url: string): Option<Captures> {
    Some([Some(url)])
  }

  /** A single rule `GET /` -> status 200: one `redirecting`, then one
      `redirected` carrying 200, and no `error`. */
  lemma StatusRuleAnswers(initialStatus: int, maxRedirect: int)
    ensures var env := Env(Configuration([Mapping(Some(["GET"]), Exactly("/"), "status", Number(200))], maxRedirect),
                           Handlers, "GET");
            var r := Chain(env, Initial("GET", "/", ResponseState(initialStatus, false, 0, false)),
                           DispatchTo(Url("/"), 0));
            |r.trace| == 3 && r.trace[1].OnRedirecting? && r.trace[1].params.redirect == Some(Number(200))
            && r.trace[2] == OnRedirected(r.params) && r.params.statusCode == Some(200)
            && r.response.statusCode == 200 && Errors(r.trace) == 0
  {
    var mapping := Mapping(Some(["GET"]), Exactly("/"), "status", Number(200));
    var env := Env(Configuration([mapping], maxRedirect), Handlers, "GET");
    var s0 := Initial("GET", "/", ResponseState(initialStatus, false, 0, false));
    assert TryMatch(mapping, "GET", "/") == Some([Some("/")]);
    assert FirstMatch([mapping], "GET", "/", 0) == Some(Hit(0, [Some("/")]));
    var d := Descriptor("status", Number(200), Some("/"), 0);
    assert Route(env, Url("/"), 0) == Some(d);
    var n1 := Next(env, s0, DispatchTo(Url("/"), 0));
    assert n1 == Settle(env, s0, d);
    assert n1.1 == Finished;
    assert Chain(env, s0, DispatchTo(Url("/"), 0)) == n1.0;
    assert Errors(s0.trace) == 0 by { assert s0.trace[..0] == []; }
  }

  /** A first failure with a status: `error`, then the status handler renders
      the status and the run ends in one `redirected` carrying it. */
  lemma FailureRendered(cfg: Configuration, verb: string, st: State, code: int)
    requires !st.failed
    ensures var r := Chain(Env(cfg, Handlers, verb), st, ErrorWith(Status(code)));
            var p := st.params.(kind := Some("status"), redirect := Some(Number(code)));
            r.trace == st.trace + [OnError(st.params, Status(code)), OnRedirecting(p), OnRedirected(r.params)]
            && r.params.statusCode == Some(code) && r.hops == st.hops
  {
    var env := Env(cfg, Handlers, verb);
    var f := st.(trace := st.trace + [OnError(st.params, Status(code))], failed := true);
    assert StatusOf(Status(code)) == code;
    assert Fail(st, Status(code)) == (f, DispatchTo(Code(code), 0));
    var n1 := Next(env, st, ErrorWith(Status(code)));
    assert n1 == (f, DispatchTo(Code(code), 0));
    var d := Descriptor("status", Number(code), None, 0);
    assert Route(env, Code(code), 0) == Some(d);
    var o := Outcome(Some(code), true, ReturnsUndefined);
    assert Invoke(env, n1.0, d) == o;
    var s1 := Announce(n1.0, d, o);
    assert s1.response.ended && s1.response.statusCode == code;
    var s2 := Finalize(s1);
    assert Interpret(env, s1, ReturnsUndefined, d) == (s2, Finished);
    assert Next(env, n1.0, n1.1) == (s2, Finished);
    assert Chain(env, n1.0, n1.1) == s2;
    assert s1.params == st.params.(kind := Some("status"), redirect := Some(Number(code)));
    assert Chain(env, st, ErrorWith(Status(code))) == s2;
    assert s2.trace == st.trace + [OnError(st.params, Status(code)), OnRedirecting(s1.params), OnRedirected(s2.params)];
  }

  /** No rule at all: `error` with 501, the 501 is rendered by the status
      handler, and the run ends in one `redirected` carrying 501. */
  lemma NoRuleRenders501(initialStatus: int, maxRedirect: int)
    ensures var env := Env(Configuration([], maxRedirect), Handlers, "GET");
            var r := Chain(env, Initial("GET", "/missing", ResponseState(initialStatus, false, 0, false)),
                           DispatchTo(Url("/missing"), 0));
            |r.trace| == 4 && r.trace[1].OnError? && r.trace[1].reason == Status(501)
            && r.trace[2].OnRedirecting? && r.trace[2].params.redirect == Some(Number(501))
            && r.trace[3] == OnRedirected(r.params) && r.params.statusCode == Some(501)
  {
    var env := Env(Configuration([], maxRedirect), Handlers, "GET");
    var s0 := Initial("GET", "/missing", ResponseState(initialStatus, false, 0, false));
    assert Next(env, s0, DispatchTo(Url("/missing"), 0)) == (s0, ErrorWith(Status(501)));
    FailureRendered(env.configuration, "GET", s0, 501);
  }

  /** With `max-redirect` 1 and a handler that always answers with a new URL,
      the second hop exceeds the limit: `error` with 508, which the status
      handler renders, and the counter stops at 2. */
  lemma LoopGuardStopsRedirects(initialStatus: int)
    ensures var env := Env(Configuration([Mapping(None, Anything, "url", Text("/next"))], 1), Handlers, "GET");
            var r := Chain(env, Initial("GET", "/", ResponseState(initialStatus, false, 0, false)),
                           DispatchTo(Url("/"), 0));
            r.hops == 2 && |r.trace| == 6
            && r.trace[1].OnRedirecting? && r.trace[2].OnRedirecting?
            && r.trace[3].OnError? && r.trace[3].reason == Status(508)
            && r.trace[4].OnRedirecting? && r.trace[4].params.redirect == Some(Number(508))
            && r.trace[5] == OnRedirected(r.params) && r.params.statusCode == Some(508)
  {
    var mapping := Mapping(None, Anything, "url", Text("/next"));
    var env := Env(Configuration([mapping], 1), Handlers, "GET");
    var s0 := Initial("GET", "/", ResponseState(initialStatus, false, 0, false));
    assert Expand([Some("/")], "/next") == "/next" by { ExpandPlain([Some("/")], "/next"); }
    assert Expand([Some("/next")], "/next") == "/next" by { ExpandPlain([Some("/next")], "/next"); }
    assert FirstMatch([mapping], "GET", "/", 0) == Some(Hit(0, [Some("/")]));
    var d1 := Descriptor("url", Text("/next"), Some("/"), 0);
    var o := Outcome(None, false, Returns(Url("/next")));
    assert Route(env, Url("/"), 0) == Some(d1);
    assert Invoke(env, s0, d1) == o;
    var a1 := Announce(s0, d1, o);
    var n1 := Interpret(env, a1, o.settlement, d1);
    assert n1 == (a1.(hops := 1), DispatchTo(Url("/next"), 0));
    assert Next(env, s0, DispatchTo(Url("/"), 0)) == n1;
    assert FirstMatch([mapping], "GET", "/next", 0) == Some(Hit(0, [Some("/next")]));
    var d2 := Descriptor("url", Text("/next"), Some("/next"), 0);
    assert Route(env, Url("/next"), 0) == Some(d2);
    assert Invoke(env, n1.0, d2) == o;
    var a2 := Announce(n1.0, d2, o);
    var n2 := Interpret(env, a2, o.settlement, d2);
    assert n2 == (a2.(hops := 2), ErrorWith(Status(508)));
    assert Next(env, n1.0, n1.1) == n2;
    assert |n2.0.trace| == 3 && n2.0.trace[1].OnRedirecting? && n2.0.trace[2].OnRedirecting?;
    assert Chain(env, s0, DispatchTo(Url("/"), 0)) == Chain(env, n2.0, n2.1);
    FailureRendered(env.configuration, "GET", n2.0, 508);
  }
}
