/**
 * Properties of the redirect-chain engine (module DispatchSpec): how a target
 * is routed, what each kind of handler settlement does, the once-only
 * `failed` flag, the hop limit, and the end-to-end runs a request can take.
 */
module DispatchProps {
  import opened Wrappers
  import opened Interpolation
  import opened Matching
  import opened DispatchSpec

  /* ---- dispatch ---- */

  /** A numeric target never consults the mapping table: whatever the
      mappings, the request method and the start index, it goes to the
      `status` handler with the number as its redirect value. */
  lemma NumericTargetSkipsScan(e1: Env, e2: Env, n: int, i: nat, j: nat)
    ensures Route(e1, Code(n), i) == Route(e2, Code(n), j)
    ensures Route(e1, Code(n), i).Some?
    ensures Route(e1, Code(n), i).value.kind == "status"
    ensures Route(e1, Code(n), i).value.redirect == Number(n)
  {
  }

  /** A URL goes to rule `j` exactly when `j` is the lowest index at or after
      the start index whose `tryMatch` succeeds; the handler then receives the
      rule's template interpolated with that match, and the rule index is
      kept for pass-through. */
  lemma UrlTargetFirstMatchWins(env: Env, u: string, i: nat, j: nat)
    requires j < |env.configuration.mappings|
    ensures (Route(env, Url(u), i).Some? && Route(env, Url(u), i).value.index == j)
        <==> (i <= j
              && TryMatch(env.configuration.mappings[j], env.verb, u).Some?
              && forall k :: i <= k < j ==> TryMatch(env.configuration.mappings[k], env.verb, u) == None)
    ensures Route(env, Url(u), i).Some? && Route(env, Url(u), i).value.index == j ==>
              var m := env.configuration.mappings[j];
              Route(env, Url(u), i).value
                == Descriptor(m.kind, Interpolate(TryMatch(m, env.verb, u).value, m.redirect), Some(u), j)
  {
    var maps := env.configuration.mappings;
    var r := FirstMatch(maps, env.verb, u, i);
    if i <= j && TryMatch(maps[j], env.verb, u).Some?
       && forall k :: i <= k < j ==> TryMatch(maps[k], env.verb, u) == None {
      assert r.Some?;
    }
  }

  /** When no rule at or after the start index matches, dispatching the URL is
      exactly a failure with status 501 (no route). */
  lemma NoRouteIs501(env: Env, st: State, u: string, i: nat)
    requires forall k :: i <= k < |env.configuration.mappings| ==>
               TryMatch(env.configuration.mappings[k], env.verb, u) == None
    ensures Chain(env, st, DispatchTo(Url(u), i)) == Chain(env, st, ErrorWith(Status(501)))
  {
    assert Route(env, Url(u), i) == None;
    assert Next(env, st, DispatchTo(Url(u), i)) == (st, ErrorWith(Status(501)));
  }

  /* ---- redirecting: how a handler's settlement is interpreted ---- */

  /** A defined result is one more hop: the counter rises by exactly one; past
      `max-redirect` the chain fails with 508 (loop detected), otherwise the
      result is dispatched from rule 0. */
  lemma DefinedResultIsOneHop(env: Env, st: State, d: Descriptor, t: Target)
    requires Invoke(env, st, d).settlement == Returns(t)
    ensures Settle(env, st, d).0.hops == st.hops + 1
    ensures Settle(env, st, d).1
              == if st.hops + 1 > env.configuration.maxRedirect then ErrorWith(Status(508))
                 else DispatchTo(t, 0)
  {
  }

  /** An undefined result when the response has been ended (by this handler
      or earlier, through the end-wrapper) finishes the chain: one
      `redirected` event carrying the response's status code, and the
      request's promise resolves.  The hop counter does not move. */
  lemma UndefinedAfterEndFinishes(env: Env, st: State, d: Descriptor)
    requires Invoke(env, st, d).settlement == ReturnsUndefined
    requires Invoke(env, st, d).callsEnd || st.response.ended
    ensures Settle(env, st, d).1 == Finished
    ensures Settle(env, st, d).0.hops == st.hops
    ensures var r := Settle(env, st, d).0;
            r.trace[|r.trace| - 1] == OnRedirected(r.params)
            && r.params.statusCode == Some(r.response.statusCode)
            && (st.resolution.None? ==> r.resolution == Some(r.params))
  {
  }

  /** An undefined result with the response not ended passes through: the same
      URL is routed again from the rule after the matched one, and the hop
      counter does not move.  After a status hop, which has no URL, the
      pattern is run on the text "undefined" from rule 1. */
  lemma UndefinedWithoutEndPassesThrough(env: Env, st: State, d: Descriptor)
    requires Invoke(env, st, d).settlement == ReturnsUndefined
    requires !Invoke(env, st, d).callsEnd && !st.response.ended
    ensures Settle(env, st, d).0.hops == st.hops
    ensures Settle(env, st, d).1
              == DispatchTo(Url(if d.url.Some? then d.url.value else "undefined"), d.index + 1)
  {
  }

  /** A rejected promise or a synchronous throw goes to `error` with its reason. */
  lemma FailureGoesToError(env: Env, st: State, d: Descriptor, reason: Reason)
    requires Invoke(env, st, d).settlement == Fails(reason)
    ensures Settle(env, st, d).0.hops == st.hops
    ensures Settle(env, st, d).1 == ErrorWith(reason)
  {
  }

  /** Every handler call is announced first: the event emitted just before the
      call carries the handler type and the redirect value it receives, and
      the response the handler sees has exactly one end-wrapper. */
  lemma HopAnnounced(env: Env, st: State, d: Descriptor)
    requires st.response.endWrappers <= 1
    ensures var r := Settle(env, st, d).0;
            r.trace[|st.trace|] == OnRedirecting(st.params.(kind := Some(d.kind), redirect := Some(d.redirect)))
            && r.response.endWrappers == 1
  {
  }

  /* ---- error ---- */

  /** A first failure emits `error`, sets `failed` and re-dispatches the status,
      so the status is rendered by the ordinary status-handler route: a
      numeric reason is dispatched as it is, any other reason as 500. */
  lemma FirstFailureRedispatches(st: State, reason: Reason)
    requires !st.failed
    ensures Fail(st, reason).0.failed
    ensures Fail(st, reason).0.trace == st.trace + [OnError(st.params, reason)]
    ensures reason.Status? ==> Fail(st, reason).1 == DispatchTo(Code(reason.code), 0)
    ensures reason.Cause? ==> Fail(st, reason).1 == DispatchTo(Code(500), 0)
  {
  }

  /** A failure while `failed` is set does not dispatch again: it emits `error`,
      ends the response and finalizes, and no handler is called any more. */
  lemma SecondFailureFinalizes(env: Env, st: State, reason: Reason)
    requires st.failed
    ensures var r := Chain(env, st, ErrorWith(reason));
            r.calls == st.calls
            && r.response.finished
            && |r.trace| == |st.trace| + 2
            && r.trace[|st.trace|] == OnError(st.params, reason)
            && r.trace[|st.trace| + 1] == OnRedirected(r.params)
  {
    var n := Next(env, st, ErrorWith(reason));
    assert n.1 == Finished;
    assert Chain(env, st, ErrorWith(reason)) == n.0;
  }

  /* ---- the hop limit ---- */

  /** The largest hop count the engine lets a chain continue from. */
  function Cap(env: Env): nat {
    if env.configuration.maxRedirect < 0 then 0 else env.configuration.maxRedirect
  }

  /** An invariant of the chain: the counter goes past the limit at most once
      before `failed` is set and at most once after.  While it is past the
      limit and `failed` is unset, the pending step is the 508 failure, not a
      dispatch; once it is two past the limit, no dispatch is pending.  (The
      status re-dispatch of that 508, and pass-throughs from it, do run with
      the counter past the limit.) */
  predicate HopSafe(env: Env, st: State, step: Step) {
    st.hops <= Cap(env) + (if st.failed then 2 else 1)
    && (st.hops > Cap(env) && !st.failed ==> step == ErrorWith(Status(508)))
    && (st.hops > Cap(env) + 1 ==> !step.DispatchTo?)
  }

  /** Once the counter has reached the limit, no redirect result is
      dispatched any more: a defined result fails with 508 instead. */
  lemma PastLimitRedirectFails(env: Env, st: State, d: Descriptor, t: Target)
    requires st.hops >= Cap(env)
    requires Invoke(env, st, d).settlement == Returns(t)
    ensures Settle(env, st, d).1 == ErrorWith(Status(508))
    ensures Settle(env, st, d).0.hops == st.hops + 1
  {
  }

  lemma HopSafeStep(env: Env, st: State, step: Step)
    requires HopSafe(env, st, step) && !step.Finished?
    ensures HopSafe(env, Next(env, st, step).0, Next(env, st, step).1)
  {
  }

  /** Whatever the handlers do, a chain started in a hop-safe state never
      counts more than `max-redirect` + 2 hops (or 2 when the limit is
      negative): the loop guard cannot be bypassed. */
  lemma {:induction false} HopBound(env: Env, st: State, step: Step)
    requires HopSafe(env, st, step)
    decreases FailRoom(st), HopRoom(env, st), StepRank(env, step)
    ensures Chain(env, st, step).hops <= Cap(env) + 2
  {
    if !step.Finished? {
      HopSafeStep(env, st, step);
      var n := Next(env, st, step);
      HopBound(env, n.0, n.1);
    }
  }

  /* ---- hookEnd ---- */

  /** `hookEnd` is idempotent: hooking twice installs one wrapper. */
  lemma HookEndIdempotent(r: ResponseState)
    ensures HookEnd(HookEnd(r)) == HookEnd(r)
    ensures r.endWrappers <= 1 ==> HookEnd(r).endWrappers == 1
    ensures HookEnd(r).(endWrappers := r.endWrappers) == r
  {
  }

  /** Once hooked, any call to `end` marks the response ended. */
  lemma EndAfterHookMarksEnded(r: ResponseState)
    ensures End(HookEnd(r)).ended && End(HookEnd(r)).finished
  {
  }
}
