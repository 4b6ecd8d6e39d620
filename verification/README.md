# Request dispatcher: verified model of the redirect chain

This project models the core of a configuration-driven HTTP request dispatcher
(`dispatcher.js`). The configuration holds an ordered table of mappings. Each
mapping has an optional method filter, a URL pattern, a handler type and a
redirect template. For each request the dispatcher:

1. announces the request (`incoming`);
2. picks the first mapping that accepts the request, scanning the table in order;
3. fills the mapping's redirect template from the pattern's capture groups;
4. announces the hop (`redirecting`) and calls the handler;
5. interprets how the handler's promise settles:
   - a defined value is a new target and one more hop, checked against
     `max-redirect` (508 when exceeded);
   - `undefined` with the response ended finishes the request (`redirected`);
   - `undefined` otherwise passes through to the next mapping;
   - a rejection or throw goes to `error`.

`error` turns its reason into a status (a number is kept, anything else is 500).
On a first failure it sets a `failed` flag and dispatches the status to the
`status` handler. On a second failure it ends the response and finishes. A
numeric target skips the mapping table and goes straight to the `status`
handler; a URL that no mapping accepts fails with 501.

Modules:

- `Interpolation` (interpolation.dfy): `interpolate` as a pure function on
  strings. It makes one left-to-right pass over `\$(\d+|\$)`.
- `Matching` (matching.dfy): `tryMatch`, the first-match function, and
  `FindRule`, the scanning loop of `dispatch`.
- `DispatchSpec` (dispatch_spec.dfy): the engine as a state machine on values.
  `Next` is one transition (`dispatch`, `redirecting` with its callbacks,
  `error`, `redirected`). `Chain` runs transitions until the request is
  finished. `Chain` terminates for every handler behaviour, because each
  transition lowers a lexicographic measure. The measure has three parts:
  - whether `failed` is still unset;
  - the hops left under `max-redirect`;
  - the position in the table.
- `DispatchProps` (dispatch_props.dfy): the properties of routing, settlement,
  `error`, the hop limit and `hookEnd`.
- `Dispatcher` (dispatcher.dfy): the state the source updates in place, as
  classes. `Response` has the ended marker and the end-wrapper. `Request` has
  the hop counter. `Context` is the per-request `this`, with the `failed` flag,
  the emit accumulator, the emitted events and the promise's resolution.
  `Requests` is the in-flight promise list. `Serve` is the exported entry.
  Each method is proved to perform the `DispatchSpec` transition it models. The
  chain of promise callbacks is the loop of `Context.Run`.
- `Scenarios` (scenarios.dfy): three end-to-end runs on small configurations:
  - a status rule answers directly;
  - no rule matches, so the 501 is rendered;
  - a handler that keeps redirecting is stopped by the loop guard (508).

Handlers are external, so they are a parameter: a function from the
invocation (call ordinal, handler type, redirect value) to an `Outcome`. An
`Outcome` gives the status the handler sets, whether it calls `response.end`,
and how its promise settles. Every property below holds for every such function.
Rule patterns (`mapping.match.exec`) are a function-valued field of each mapping.

Two behaviours of `dispatcher.js` are easy to miss, and the model keeps both:

- A pass-through after a status hop has no URL. `dispatch(undefined, index + 1)`
  then runs the patterns, from rule 1, on the text "undefined".
- Interpolation is one non-recursive pass and is not idempotent: `"$$1"` yields
  `"$1"`, and expanding that again substitutes group 1.

## Model

| member | source | states |
|---|---|---|
| Interpolation.DigitRun | dispatcher.js:91 | `\d+` takes the longest run of ASCII digits after `$`: every character it takes is a digit and the next one is not |
| Interpolation.Interpolate | dispatcher.js:89-100 | a non-string redirect is returned unchanged; a string template yields a string |
| Interpolation.Expand | dispatcher.js:91-97 | the global `replace` pass over `$N` and `$$` tokens; its behaviour is stated by `ExpandPlain`, `ExpandEscape`, `ExpandGroup` and `ExpandDollar` (no contract of its own) |
| Interpolation.Group | dispatcher.js:95 | the replacement for `$N`: capture N, or the empty string when it is missing or empty; its behaviour is stated by `MissingGroupIsEmpty` and `ExpandGroup` (no contract of its own) |
| Interpolation.ExpandPlain | dispatcher.js:91-97 | a template without `$` is copied through unchanged |
| Interpolation.ExpandEscape | dispatcher.js:91-94 | the pass maps `$$` to `$` and never rescans its output: the template with every `$` doubled yields the original text, for every match |
| Interpolation.ExpandGroup | dispatcher.js:91-96 | `$N` consumes the whole digit run and is replaced by capture N verbatim; the rest of the template is expanded independently |
| Interpolation.ExpandDollar | dispatcher.js:91-93 | `$$` becomes a single literal `$` |
| Interpolation.MissingGroupIsEmpty | dispatcher.js:95 | an unset, empty or out-of-range capture, or a group name with a leading zero, contributes `''` |
| Interpolation.ExpandGroupsExample | dispatcher.js:89-100 | `"$1-$2"` over `["full","a","b"]` yields `"a-b"` |
| Interpolation.ExpandEscapedDigitExample | dispatcher.js:91-93 | `"$$1"` yields `"$1"`, not capture 1 |
| Matching.TryMatch | dispatcher.js:102-107 | a method list without the request method gives no match whatever the pattern; otherwise the result is the pattern's |
| Matching.FirstMatch | dispatcher.js:117-127 | the result is the lowest index at or after the start whose `tryMatch` succeeds, with its captures; none exactly when no rule from the start matches |
| Matching.FindRule | dispatcher.js:117-127 | the scanning loop returns exactly the first match from the start index |
| Matching.MethodFilterSkipsRule | dispatcher.js:102-106 | of two rules, one excluding the method and a later one accepting all methods, the later one is selected |
| DispatchSpec.Finalize | dispatcher.js:26-35 | `redirected` adds the response's status code to the accumulator and changes nothing else in it, appends exactly one `redirected` event carrying that accumulator, resolves the promise with it once, and changes nothing else |
| DispatchSpec.Announce | dispatcher.js:61-70 | a hop appends one `redirecting` event with the handler type and redirect, makes one handler call, and leaves hop counter, `failed` and resolution alone |
| DispatchSpec.Interpret | dispatcher.js:71-86 | a settlement moves the hop counter by at most one, fails with 508 when the incremented counter exceeds `max-redirect`, passes through only to the rule after the matched one, and emits `redirected` exactly when it finishes |
| DispatchSpec.Settle | dispatcher.js:60-87 | a whole hop makes exactly one handler call, keeps the trace append-only, and has the hop-counter, 508 and pass-through guarantees of `Interpret` |
| DispatchSpec.Fail | dispatcher.js:37-58 | `error` always sets `failed` and emits one `error` event; it finishes (with `redirected`) exactly when `failed` was already set, and otherwise re-dispatches the normalized status from rule 0 |
| DispatchSpec.Next | dispatcher.js:109-128 | every transition lowers the termination measure, keeps the trace append-only, never lowers the hop counter or clears `failed`, emits `error` exactly when handling a failure and `redirected` exactly when finishing |
| DispatchSpec.Chain | dispatcher.js:51-57 | every chain terminates whatever the handlers do, ends with exactly one more `redirected` event as its last event with the promise resolved, and emits at most two `error` events (one once `failed` is set) |
| DispatchSpec.Route | dispatcher.js:110-124 | the rule selection of `dispatch`: a number goes to the `status` handler, a URL to the first rule that accepts it with its interpolated template; stated by `NumericTargetSkipsScan`, `UrlTargetFirstMatchWins` and `NoRouteIs501` (no contract of its own) |
| DispatchProps.NumericTargetSkipsScan | dispatcher.js:110-116 | a numeric target goes to the `status` handler with that number as redirect, independently of the mappings, the method and the start index |
| DispatchProps.UrlTargetFirstMatchWins | dispatcher.js:117-124 | a URL is routed to rule j iff j is the lowest matching index at or after the start; the handler receives that rule's type, its template interpolated with the match, the URL and j |
| DispatchProps.NoRouteIs501 | dispatcher.js:127 | when no rule from the start index matches, dispatching the URL is the same run as failing with 501 |
| DispatchProps.DefinedResultIsOneHop | dispatcher.js:72-78 | a defined result raises the hop counter by exactly one, then fails with 508 if it exceeds `max-redirect` and otherwise dispatches the result from rule 0 |
| DispatchProps.UndefinedAfterEndFinishes | dispatcher.js:79-80 | `undefined` with the response ended finishes with one `redirected` carrying the response status and resolves; the hop counter is unchanged |
| DispatchProps.UndefinedWithoutEndPassesThrough | dispatcher.js:82 | `undefined` without the response ended dispatches the same URL from the matched index + 1 (the text "undefined" from rule 1 after a status hop); the hop counter is unchanged |
| DispatchProps.FailureGoesToError | dispatcher.js:83-86 | a rejection or a synchronous throw reaches `error` with its reason and does not count as a hop |
| DispatchProps.HopAnnounced | dispatcher.js:61-69 | the event emitted before the handler call carries its type and redirect, and the response it receives has exactly one end-wrapper |
| DispatchSpec.StatusOf | dispatcher.js:38-43 | the status `error` routes to: a numeric reason as it is, otherwise 500; stated where it takes effect by `FirstFailureRedispatches` (no contract of its own) |
| DispatchProps.FirstFailureRedispatches | dispatcher.js:37-57 | a first failure emits `error` with the accumulator and the reason, sets `failed`, and dispatches the status from rule 0: a numeric reason as it is, any other reason as 500 |
| DispatchProps.SecondFailureFinalizes | dispatcher.js:51-55 | a failure while `failed` is set makes no further handler call: it emits `error`, ends the response and emits one final `redirected` |
| DispatchProps.PastLimitRedirectFails | dispatcher.js:72-76 | once the counter has reached the limit, a defined handler result is not dispatched: it raises the counter by one and fails with 508 |
| DispatchProps.HopSafeStep | dispatcher.js:72-76 | each transition preserves the hop invariant: the counter passes the limit at most once before and once after `failed` is set; past the limit with `failed` unset the pending step is exactly the 508 failure, and two past the limit no dispatch is pending (the 508 status re-dispatch and pass-throughs from it still run past the limit) |
| DispatchProps.HopBound | dispatcher.js:72-76 | whatever the handlers do, the hop counter never exceeds `max-redirect` + 2 (2 for a negative limit) |
| DispatchSpec.HookEnd | dispatcher.js:14-24 | `hookEnd` on the response state: installs the end-wrapper only when none is present; stated by `HookEndIdempotent` and `Dispatcher.Response.HookEnd` (no contract of its own) |
| DispatchSpec.End | dispatcher.js:17-20 | the wrapped `end`: marks the response ended when a wrapper is installed and runs the transport's end; stated by `EndAfterHookMarksEnded` and `Dispatcher.Response.End` (no contract of its own) |
| DispatchProps.HookEndIdempotent | dispatcher.js:14-24 | hooking twice is hooking once, and it installs exactly one wrapper and changes nothing else |
| DispatchProps.EndAfterHookMarksEnded | dispatcher.js:17-20 | after hooking, any call to `end` marks the response ended and runs the transport's end |
| Dispatcher.Response.HookEnd | dispatcher.js:14-24 | the method installs the wrapper only when none is present |
| Dispatcher.Response.End | dispatcher.js:17-20 | the wrapped end sets the ended marker and the original end runs |
| Dispatcher.Context.Emit | dispatcher.js:61 | an emit appends exactly that event to the trace and changes no other field |
| Dispatcher.Context.Redirected | dispatcher.js:26-35 | the method performs `Finalize` on the context |
| Dispatcher.Context.Redirecting | dispatcher.js:60-70 | the method performs the hop `Settle` describes, in place on context, request and response |
| Dispatcher.Context.Settled | dispatcher.js:71-86 | the promise callbacks perform `Interpret` in place |
| Dispatcher.Context.Dispatch | dispatcher.js:109-128 | the method performs the `dispatch` transition of `Next` |
| Dispatcher.Context.Error | dispatcher.js:37-58 | the method performs the `error` transition of `Next` |
| Dispatcher.Context.Run | dispatcher.js:72-82 | running the callback chain to its end leaves the context in the state `Chain` gives |
| Dispatcher.Requests.Push | dispatcher.js:140 | the request's promise is appended to the in-flight list |
| Dispatcher.Requests.Remove | dispatcher.js:145-146 | every occurrence of the promise is removed and the other entries keep their order |
| Dispatcher.Without | dispatcher.js:145-146 | the filtered list lacks the promise, keeps every other entry, and is no longer than before |
| Dispatcher.WithoutFresh | dispatcher.js:140-146 | pushing a fresh promise and filtering it out again restores the in-flight list |
| Dispatcher.Initial | dispatcher.js:131-136 | the state a request starts in: counter 0, `failed` unset, the accumulator holding method and URL, and only `incoming` emitted; stated by `Dispatcher.Incoming` and used by `RequestChainFacts` (no contract of its own) |
| Dispatcher.Incoming | dispatcher.js:131-136 | a request starts with hop counter 0, `failed` unset, the accumulator holding method and URL, and only `incoming` emitted |
| Dispatcher.RequestChainFacts | dispatcher.js:130-143 | from its start, a request's chain ends in exactly one `redirected` (the last event) with the promise resolved, at most two `error` events and at most `max-redirect` + 2 hops |
| Dispatcher.Serve | dispatcher.js:130-148 | the entry runs the whole chain, leaves the guarantees of `RequestChainFacts` on the context, and returns the in-flight list to what it was |
| Scenarios.FailureRendered | dispatcher.js:37-58 | a first failure with a status emits `error`, the status handler renders that status, and one `redirected` carries it |
| Scenarios.StatusRuleAnswers | dispatcher.js:109-124 | a single `GET /` rule to status 200 gives one `redirecting`, then one `redirected` with 200, and no `error` |
| Scenarios.NoRuleRenders501 | dispatcher.js:117-127 | with no rules, the request emits `error` with 501, then the status handler's `redirecting`, then one `redirected` with 501 |
| Scenarios.LoopGuardStopsRedirects | dispatcher.js:72-76 | with `max-redirect` 1 and a handler that always redirects, the second hop fails with 508, which is rendered, and the counter stops at 2 |

## Left out

- The admission gate `configurationRequests.hold` (dispatcher.js:138-139) is
  taken as already open. Interleaving of concurrent requests is not modelled:
  one request runs from entry to removal from the in-flight list.
- Timestamps (`start`, `end`, `timeSpent`, dispatcher.js:27-31, 131) are not
  modelled. The emitted payloads hold method, URL, type, redirect, status code
  and reason.
- A throw from an `error` listener is caught and passed to `logError`
  (dispatcher.js:45-50). The model keeps the catch, so dispatch goes on, but
  does not model `logError`, which is not part of this model. Listeners of
  `incoming`, `redirecting` and `redirected` are assumed not to throw.
- Events carry a snapshot of the shared accumulator. Listeners that keep and
  mutate the shared object are not modelled.
- A handler whose promise never settles leaves the request pending in the
  source. The handler parameter always settles, so this case is not modelled.
- `configuration.handler(mapping)` is foreign. It is modelled as the mapping's
  own handler type and redirect template. The handler registry lookup, and a
  missing `status` handler, are not modelled.
- The handler sees only the call ordinal, its type and the redirect value. The
  configuration view, the mapping, the match and the request it also receives
  are not modelled.
- Handler results are a URL string or an integer status. Other objects,
  fractional numbers and `NaN` are not modelled, and JavaScript numbers are
  modelled as unbounded integers.
- The JavaScript regular-expression engine behind `mapping.match.exec` is a
  function-valued field of each mapping.
- The entry stores the request's promise on the request object
  (`request[$requestPromise]`, dispatcher.js:135). Handlers that would read it
  see only their invocation, so this field is not modelled.
