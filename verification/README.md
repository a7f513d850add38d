# Observables in Dafny

A model of the Observable engine in `es-observables.js`, an implementation of
the TC39 Observable proposal. It covers:

- the Subscription lifecycle: `cleanupSubscription`, `closeSubscription`, `closed`,
  `unsubscribe`, and the Subscription constructor with its `start` hook and its
  normalisation of the subscriber's return value;
- the SubscriptionObserver's `next`, `error`, `complete` and `closed`;
- `new Observable`, `subscribe` with its argument normalisation, `Observable.of`,
  and `Observable.from` over an iterable;
- the operators `map`, `filter`, `reduce`, `take`, `takeLast` and `takeWhile`.

The model is made of these modules:

- `Wrappers`: `Option` and `Result`.
- `Seqs`: reference definitions on plain sequences (`MapSeq`, `FilterSeq`,
  `FoldLeft`, `LastN`, `FirstWhere`). The operators are specified against them.
- `Trace`: notifications (`Next`, `Error`, `Complete`) and well-formed traces, which
  are values followed by at most one terminal event. `Compose` and the pair
  (`Values`, `EndOf`) are mutually inverse on well-formed traces. `Gate` is the
  closed gate: it keeps a call sequence up to and including its first terminal call.
- `Subscriptions`: a subscription is a record of the observer slot (empty means
  closed), the cleanup slot, and a log of observable effects. The log records the
  `start` call, the subscriber call, each delivery to the sink, and each cleanup run.
  - A sink is described by which handlers it has. A handler that is missing, or
    that is present but not callable, is never called.
  - Every operation preserves the lifecycle invariant `Coherent`.
  - Any interleaving of `next`/`error`/`complete`/`unsubscribe` calls (`Op`,
    `ApplyAll`) delivers the gated trace, filtered by the sink's handlers.
- `Observables`: the constructor and `subscribe`. User code is described, not executed.
  - A subscriber function is described by the notifications it makes synchronously
    and by how it finishes: the value it returns, or the value it throws.
  - The consumer's re-entrant behaviour is a `Reaction`: whether its `start` hook
    unsubscribes, and on which `next` calls its `next` handler unsubscribes. The
    handler decides on the index of the call and the value. The values before it
    are fixed by the producer, so this covers any consumer that decides on what
    it has been given so far, such as one that stops on the second of two equal values.
- `Operators`: each operator is the calls it makes on its downstream observer for
  each upstream event. The downstream's closed gate cuts those calls.
  - `Produced` is what an observable pushes to a consumer that never unsubscribes.
  - `Lift` builds the operator Observable, whose subscriber returns the inner subscription.
  - `InnerOf` is that inner subscription: the upstream subscribed with the
    forwarding object literal. `AfterCleanups` runs the operator subscription's
    cleanups on it, so cancelling downstream reaches the upstream.
- `TakeCounter`: how `take`'s counter behaves across several subscriptions (see Findings).

Behaviour of the code that is easy to misread:

- `take(0)` does not complete eagerly. It completes when the first value
  arrives, or when the upstream completes (es-observables.js:430-442,
  `Operators.TakeZeroWaits`).
- An unusable subscriber return value does not escape `subscribe`. The TypeError
  is thrown inside the constructor's `try` block and delivered through
  `observer.error` (es-observables.js:112-126).
- `error` on a sink without an `error` handler drops the error: the host error
  report is commented out (es-observables.js:197-199).
- `take` completes by calling the object literal's own `complete`, which calls
  `observer.complete()` downstream (es-observables.js:433-442). What happens to
  the upstream then depends on when it pushes. For an upstream that pushes
  synchronously during `subscribe`, the upstream is not unsubscribed at that
  moment: it is unsubscribed only once the operator's subscriber function has
  returned the inner subscription and the constructor runs it as the cleanup
  (es-observables.js:128-131); until then it keeps pushing, and the closed gate
  discards what follows. For an upstream that pushes later, the operator
  subscription already stores that cleanup (es-observables.js:117-118), so the
  `complete` call itself runs it through `cleanupSubscription`
  (es-observables.js:232, 78-80) and unsubscribes the upstream. Both cases are
  `Operators.OperatorCloseUnsubscribesInner`: the calls after subscribe are its
  arbitrary interleaving.

## Model

| member | source | states |
|---|---|---|
| Subscriptions.CleanupSubscription | es-observables.js:42-62 | the cleanup slot is emptied; exactly the stored cleanup (if any) is run, appended to the cleanups run; observer and deliveries are untouched |
| Subscriptions.Unsubscribe | es-observables.js:64-76 | afterwards the subscription is closed; on a closed subscription it changes nothing (so it is idempotent); on an open one it runs the stored cleanup once and delivers nothing |
| Subscriptions.ObserverNext | es-observables.js:151-175 | a closed subscription is unchanged; an open one delivers the value exactly when the sink has a `next` handler; it never closes, never runs cleanup, never changes the cleanup slot |
| Subscriptions.ObserverError | es-observables.js:177-207 | closes the subscription; on an open one delivers the error only if the sink has an `error` handler, then runs the stored cleanup; a closed subscription is unchanged |
| Subscriptions.ObserverComplete | es-observables.js:209-235 | closes the subscription; on an open one delivers `complete` only if the sink has a `complete` handler, then runs the stored cleanup; a closed subscription is unchanged |
| Subscriptions.Handoff | es-observables.js:182-187 | `error`/`complete` on an open subscription first clear the observer, so the subscription is closed while the handler runs; the cleanup is still stored; the notification is logged only if the sink has the matching handler |
| Subscriptions.ReentrantCallsDuringHandoffAreIgnored | es-observables.js:186-187 | because the observer slot is cleared before the sink's `error`/`complete` handler runs, any call the handler makes back into the subscription is ignored |
| Subscriptions.ClosedIsFinal | es-observables.js:135-138 | once closed, no sequence of `next`/`error`/`complete`/`unsubscribe` calls changes the subscription: `closed` stays true |
| Subscriptions.ApplyAllKeepsCoherent | es-observables.js:42-76 | every interleaving preserves the lifecycle invariant: no cleanup stored once closed, at most one cleanup run and only once closed, a well-formed delivered trace, closed once it ended, nothing delivered after cleanup |
| Subscriptions.CleanupRunsAtMostOnce | es-observables.js:51-53 | across any interleaving the cleanup runs at most once and never while the subscription is open |
| Subscriptions.StoredCleanupRunsOnClose | es-observables.js:69-76 | a stored cleanup runs exactly when some call closes the subscription, and is then the only cleanup run; while open it stays stored |
| Subscriptions.DeliveryFollowsGate | es-observables.js:151-235 | the sink receives the calls made before any unsubscribe, cut after the first terminal call and filtered by its handlers: at most one terminal notification, nothing after it |
| Subscriptions.ClosedExactlyWhenHalted | es-observables.js:135-137 | an open subscription ends closed exactly when the interleaving contains an `unsubscribe`, an `error` or a `complete` |
| Subscriptions.CleanupRunsOnceClosed | es-observables.js:69-76 | a subscription whose cleanup already ran (closed) or is stored (open) has, after any calls, run exactly that cleanup once if it is closed, and none while it is open |
| Subscriptions.ReceivedCompose | es-observables.js:162-166 | a sink with a `next` handler receives every value of a trace, and the ending only if it has the handler for it (`error` or `complete`) |
| Subscriptions.HandlerlessSinkReceivesNothing | es-observables.js:162-166 | a sink without handlers receives nothing whatever is called |
| Subscriptions.FullSinkReceivesAll | es-observables.js:162-169 | a sink with all three handlers receives every notification that passes the gate |
| Trace.Gate | es-observables.js:151-235 | what the closed gate passes is a well-formed prefix of the calls, and it drops calls only after a terminal one |
| Trace.GateFixesExactlyWellFormed | es-observables.js:182-187 | the closed gate leaves a call sequence unchanged exactly when only its last call is terminal |
| Trace.GateEndsExactlyOnTermination | es-observables.js:214-218 | the delivered trace ends in a terminal event exactly when some call was terminal; otherwise everything is delivered |
| Observables.NewObservable | es-observables.js:243-251 | fails with the TypeError "Observable initializer must be a function" exactly when the initializer is not callable; otherwise holds that subscriber |
| Observables.From | es-observables.js:272-311 | `null`/`undefined` fails with "is not an object", a `Symbol.iterator` that is present but not callable with "is not a function" (es-observables.js:35-36), an object without one with "is not observable"; an iterable gives an observable over the items it yields when `from` is called |
| Observables.ObserverOf | es-observables.js:253-263 | a function becomes an observer with `next` and no `start`, whose `error`/`complete` exist exactly when the second/third arguments are callable; an object is used as is; `null` and other non-objects have no handlers |
| Observables.Start | es-observables.js:88-98 | the `start` call is logged and delivers nothing; the subscription is closed afterwards exactly when `start` unsubscribed; the stored cleanup runs exactly when that unsubscribe closed it, and is otherwise kept untouched |
| Observables.NormaliseCleanup | es-observables.js:111-119 | `null`/`undefined` gives no cleanup; a value with a callable `unsubscribe` gives the thunk calling it (checked first); another function is kept as is; anything else gives the TypeError |
| Observables.Push | es-observables.js:321-323 | on an open subscription the value is delivered if the sink has `next`, and the subscription ends closed exactly when the consumer unsubscribes during that `next` call; the log gains exactly that delivery and, on closing, the stored cleanup, which is otherwise kept; a closed one is unchanged |
| Observables.PushEach | es-observables.js:317-328 | the loop always leaves the subscription closed; it pulls at most all items, and all of them unless it returned early |
| Observables.PushEachIsApplyAll | es-observables.js:319-327 | checking `closed` after each push has the same effect as pushing every item and then completing, with the consumer's reactions |
| Observables.PushEachStopsAtQuit | es-observables.js:299-310 | the loop returns early (closing the iterator) exactly when the consumer unsubscribes during some `next` call, after pulling up to and including that item; otherwise it pulls all items |
| Observables.EmittedUntilQuit | es-observables.js:319-324 | the notifications made before the consumer unsubscribes are the items up to and including the one during whose `next` call it unsubscribes, with no ending; otherwise all items and the ending |
| Observables.StartUnsubscribeSkipsSubscriber | es-observables.js:88-102 | the subscriber is called exactly when the `start` hook did not unsubscribe; if it did, the subscription is closed, holds no cleanup and delivered nothing |
| Observables.StartThenSubscriberThenDeliveries | es-observables.js:88-109 | when `start` did not unsubscribe, the log begins with the `start` call (if the sink has `start`) and then the subscriber call, so every delivery comes after both |
| Observables.NewSubscriptionIsCoherent | es-observables.js:82-133 | the subscription the constructor returns satisfies the lifecycle invariant |
| Observables.SettleEffect | es-observables.js:106-132 | a throw or unusable return value acts as one `error` call; a usable cleanup is stored if still open, or run once at once if already closed |
| Observables.SubscribeCustom | es-observables.js:104-133 | the sink receives the subscriber's calls and then the error for a throw or bad return value, cut by the gate; closed exactly when a call closed it; the returned cleanup is then run once, else stored |
| Observables.SubscribeCustomPassive | es-observables.js:106-127 | for a consumer that never unsubscribes: delivered is the gate of the subscriber's calls plus the outcome's error; closed exactly when one of these is terminal |
| Observables.SubscribeFinite | es-observables.js:299-329 | `of`/`from` deliver the items in order and then `complete`; if the consumer unsubscribes during some `next` call, delivery stops right after that item without `complete`; the subscription ends closed; no cleanup runs |
| Observables.QuitsOnSecondOfEqualValues | es-observables.js:313-329 | `of(1, 1, 1)` to a consumer that unsubscribes on its second `next` call delivers 1, 1 and no `complete`, and closes |
| Observables.NonObjectObserverReceivesNothing | es-observables.js:253-266 | subscribing with `null` or a non-object non-function delivers nothing, whatever the subscriber does |
| Operators.ProducedIsDelivered | es-observables.js:265 | a consumer that never unsubscribes receives what the observable produces, filtered by its handlers |
| Operators.FunctionObserverReceives | es-observables.js:253-265 | subscribing with functions delivers every produced value, and the error or completion only when the matching second or third argument is callable |
| Operators.Lift | es-observables.js:351-359 | an operator observable produces exactly its calls cut by the gate: its subscriber returns the inner subscription, a usable cleanup, so no error is added |
| Operators.InnerReceivesProduced | es-observables.js:352-358 | the forwarding object literal has all three handlers, so the inner subscription receives exactly what the upstream produces |
| Operators.SubscribeOperator | es-observables.js:351-359 | subscribing to an operator delivers its calls through the gate; closed exactly when a call was terminal, and then the inner subscription's `unsubscribe` has run once, else it is the stored cleanup |
| Operators.OperatorCloseUnsubscribesInner | es-observables.js:78-80 | once an operator subscription is closed, by the upstream, by `take`/`takeWhile` completing, or by a later `unsubscribe`, its cleanup has called the inner subscription's `unsubscribe`, which closes it and runs its cleanup once; while open the inner one is untouched |
| Operators.MapTrace | es-observables.js:350-361 | `map` forwards `f(v)` for every value in order and keeps the ending |
| Operators.FilterTrace | es-observables.js:362-374 | `filter` forwards exactly the values satisfying `p`, in order, and keeps the ending |
| Operators.ReduceTrace | es-observables.js:407-423 | nothing per value; on completion the fold of all values from the starting accumulator, then `complete`; an error passes alone; nothing while open |
| Operators.TakeTrace | es-observables.js:426-445 | the first `max(n,0)` values are forwarded; if more arrive, the next completes instead of being forwarded; otherwise the ending passes; the counter drops by the number forwarded |
| Operators.EnqueueKeepsLastN | es-observables.js:452-456 | one push-then-shift keeps the buffer equal to the last `count` values seen |
| Operators.BufferHoldsLastN | es-observables.js:448-458 | the buffer holds the last `count` values received, oldest first, and never more than `max(count,0)` |
| Operators.TakeLastTrace | es-observables.js:448-467 | on completion the last `count` values received are flushed oldest first, then `complete`; an error passes alone; nothing while open |
| Operators.TakeLastRuns | es-observables.js:448-467 | with values already cached, the rest of the upstream trace emits nothing until its ending, then flushes the cache as it stands after each new value was pushed and the oldest dropped beyond `count` |
| Operators.TakeWhileTrace | es-observables.js:470-484 | values before the first one failing `p` are forwarded, then `complete` without forwarding it; if all pass, the ending passes |
| Operators.MapProduces | es-observables.js:350-361 | `map` over an observable produces `f` of each upstream value, with the upstream's ending |
| Operators.FilterProduces | es-observables.js:362-374 | `filter` over an observable produces the upstream values satisfying `p`, with the upstream's ending |
| Operators.ReduceProduces | es-observables.js:407-423 | `reduce` produces the fold from `undefined` and `complete` if the upstream completes, the error alone if it fails, nothing if it stays open |
| Operators.TakeProduces | es-observables.js:426-445 | for a subscription whose counter starts at `n` (the first subscription as written, every one once corrected; see Findings), `take(n)` produces the first `max(n,0)` upstream values and `complete` if there are more, else exactly the upstream trace |
| Operators.TakeLastProduces | es-observables.js:448-467 | `takeLast(n)` produces the last `n` upstream values and `complete` if the upstream completes, the error alone if it fails, nothing if open |
| Operators.TakeWhileProduces | es-observables.js:470-484 | `takeWhile(p)` produces the upstream values before the first failing `p` and `complete`, else exactly the upstream trace |
| Operators.TakeLastOfFour | es-observables.js:448-467 | `takeLast(2)` over `of(1,2,3,4)` yields 3, 4, then completes |
| Operators.ReduceSums | es-observables.js:407-423 | summing with `(acc || 0) + v` over `of(1,2,3)` yields 6 then completes; over `of()` yields `undefined` then completes |
| Operators.TakeZeroWaits | es-observables.js:430-436 | `take(0)` over `of(5)` only completes; over a silent upstream it delivers nothing |
| Operators.MapDoubles | es-observables.js:350-361 | `of(1,2,3).map(x => x*2)` yields 2, 4, 6 then completes |
| Operators.MapThenFilter | es-observables.js:350-374 | `of(1,2,3).map(x => x*2).filter(x => x > 2)` yields 4, 6 then completes |
| TakeCounter.SharedCounterStarvesSecondSubscription | es-observables.js:426-445 | as written, a second subscription to `take(1)` over `of(7)` only completes |
| TakeCounter.SharedCounterBoundsAllSubscriptions | es-observables.js:430-433 | as written, `take(n)` delivers at most `max(n,0)` values in total over all its subscriptions |
| TakeCounter.FreshCounterServesEverySubscription | es-observables.js:426-445 | with a counter per subscription, each subscription gets the first `max(n,0)` values of its own upstream |
| TakeCounter.FreshCounterServesSecondSubscription | es-observables.js:426-445 | with a counter per subscription, both subscriptions to `take(1)` over `of(7)` get 7 then complete |

## Left out

- `debounce`, `interval` and `fromEvent`: they depend on timers and DOM events.
- The `Symbol.observable` branch of `Observable.from`, `polyfillSymbol`, `nonEnum`,
  and the global `Observable` installed on `window`. These are interoperability
  and environment plumbing.
- `getMethod`'s type checks: a handler that is present but not callable makes
  the lookup throw, and the throw is swallowed. A sink is therefore modelled
  only by which callable handlers it has.
- Exceptions thrown by the sink's handlers or by a cleanup action are swallowed
  by the source. The model treats those calls as returning normally.
- Iterables in `from` are finite sequences. An infinite or throwing iterator is
  not modelled. Closing the iterator on early return is recorded as
  `stoppedEarly`.
- Operator callbacks (`mapFn`, `filterFn`, `reduceFn`, `whileFn`) are total pure
  functions. Callbacks that throw are not modelled.
- `take` and `takeLast` counts are integers. Non-integer or non-numeric counts are not modelled.
- Operators are modelled for consumers that do not unsubscribe from inside their
  handlers (`Passive`). The upstream is described by what it produces for the
  object literal, which never unsubscribes.
- Asynchronous producers are not modelled. Every subscriber function runs to
  completion inside `subscribe`, so the returned cleanup is installed only after
  all its synchronous calls.
- Operators.TakeProduces: `Operators.Take` gives each subscription a counter
  starting at `n`. As written, only the first subscription to a `take(n)`
  Observable starts there; later ones continue from the shared counter, which
  `TakeCounter` models.
- Observables.From: the returned Observable holds the items as iterated when
  `from` is called. The source calls `x[Symbol.iterator]()` again at every
  subscribe (es-observables.js:301), so a generator yields its items only to the
  first subscription and an array changed after `from` delivers its new
  contents; neither is modelled. The TypeError messages keep only their fixed
  part ("is not an object", "is not a function" for a non-callable
  `Symbol.iterator` from `getMethod`, "is not observable"). The source puts the
  offending value's string conversion in front, which the model does not
  represent.
- Observables.NormaliseCleanup: the same holds for "is not a function", which the
  source prefixes with the returned value.
- Cleanup actions act on their target only in the operator chain
  (`Operators.AfterCleanups`). Elsewhere a run cleanup is only logged, because
  the function or subscription it calls is user code.
- `TakeCounter.TakeSharedCounter` covers only subscriptions that run one after
  another, not subscriptions interleaved in time.

## Findings

| source | as written | input that shows it | evidently intended | confidence | as-written member | corrected member |
|---|---|---|---|---|---|---|
| es-observables.js:426-445 | `take(count)` decrements its own parameter `count` inside the subscriber closure (line 432), so every subscription to the same `take(n)` Observable shares one counter | `const t = Observable.of(7).take(1)`; subscribing twice: the first subscription gets 7 then `complete`, the second only `complete` | each subscription has its own counter starting at `n`, as for the `takeLast` buffer and the `reduce` accumulator, which are created inside the subscriber | not executed | TakeCounter.SharedCounterStarvesSecondSubscription | TakeCounter.FreshCounterServesEverySubscription |
