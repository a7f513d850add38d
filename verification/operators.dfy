/**
 * The operators `map`, `filter`, `reduce`, `take`, `takeLast` and `takeWhile`.
 *
 * Each operator is a new Observable whose subscriber function subscribes to the
 * upstream with an object literal holding `next`, `error` and `complete`, and
 * forwards to its own SubscriptionObserver. The literal never unsubscribes, so
 * what it receives is the upstream's produced trace, which is well formed. What
 * the operator does is described by the calls it makes on the downstream
 * observer for each upstream event; the downstream's closed gate then cuts those
 * calls after the first terminal one. The subscriber returns the inner
 * Subscription, an object with an `unsubscribe` method, which becomes the
 * operator subscription's cleanup.
 */
module Operators {
  import opened Wrappers
  import opened Trace
  import opened Seqs
  import opened Subscriptions
  import opened Observables

  /** The object literal an operator subscribes to its upstream with: all three handlers, no `start`. */
  const Forwarder := Sink(false, true, true, true)

  /** The inner subscription an operator's subscriber function returns. */
  const InnerSubscription := Value(0, false, true)

  /** A consumer that never unsubscribes. */
  function Passive<T>(): Reaction<T> {
    Reaction(false, (i: nat, v: T) => false)
  }

  /** What an observable pushes to a consumer that never unsubscribes, before the handler filter. */
  function Produced<T>(subscriber: Subscriber<T>): (t: seq<Event<T, Fault>>)
    ensures WellFormed(t)
  {
    match subscriber
    case Custom(calls, outcome) => Gate(calls + OutcomeEvents(outcome))
    case OfItems(items) => ComposeRoundTrip<T, Fault>(items, Completed); Compose(items, Completed)
    case FromIterable(items) => ComposeRoundTrip<T, Fault>(items, Completed); Compose(items, Completed)
  }

  /** An operator's Observable: its subscriber makes `calls` on the downstream observer and returns the inner subscription. */
  function Lift<U>(calls: seq<Event<U, Fault>>): (r: Observable<U>)
    ensures Produced(r.subscriber) == Gate(calls)
  {
    assert calls + OutcomeEvents<U>(Returns(InnerSubscription)) == calls;
    Observable(Custom(calls, Returns(InnerSubscription)))
  }

  // ---------------------------------------------------------------------------
  // The calls each operator makes on its downstream observer
  // ---------------------------------------------------------------------------

  /** `map(f)`: `next(f(v))` for each value; `error` and `complete` pass through. */
  function MapCalls<T, U>(f: T -> U, up: seq<Event<T, Fault>>): (calls: seq<Event<U, Fault>>)
    ensures |calls| == |up|
  {
    if up == [] then []
    else
      var ev: Event<U, Fault> := match up[0]
        case Next(v) => Next(f(v))
        case Error(e) => Error(e)
        case Complete => Complete;
      [ev] + MapCalls(f, up[1..])
  }

  /** `filter(p)`: `next(v)` only where `p(v)` holds; `error` and `complete` pass through. */
  function FilterCalls<T>(p: T -> bool, up: seq<Event<T, Fault>>): (calls: seq<Event<T, Fault>>)
    ensures |calls| <= |up|
  {
    if up == [] then []
    else (if up[0].Next? && !p(up[0].value) then [] else [up[0]]) + FilterCalls(p, up[1..])
  }

  /**
   * `reduce(f)`: each value replaces the accumulator by `f(acc, v)` without a call;
   * `complete` emits the accumulator (`None` for `undefined`) and then completes;
   * `error` passes through.
   */
  function ReduceCalls<A, T>(f: (Option<A>, T) -> A, acc: Option<A>, up: seq<Event<T, Fault>>): seq<Event<Option<A>, Fault>>
    decreases |up|
  {
    if up == [] then []
    else match up[0]
      case Next(v) => ReduceCalls(f, Some(f(acc, v)), up[1..])
      case Error(e) => [Error(e)] + ReduceCalls(f, acc, up[1..])
      case Complete => [Next(acc), Complete] + ReduceCalls(f, acc, up[1..])
  }

  /** The calls `take` makes, and the counter it leaves behind. */
  datatype TakeRun<T> = TakeRun(calls: seq<Event<T, Fault>>, left: int)

  /**
   * `take` with `left` values still to forward: a value is forwarded and the
   * counter decremented while it is positive; otherwise the value is replaced by
   * a `complete` call. `error` and `complete` pass through.
   */
  function TakeSteps<T>(left: int, up: seq<Event<T, Fault>>): (r: TakeRun<T>)
    ensures |r.calls| == |up|
    ensures r.left <= left
  {
    if up == [] then TakeRun([], left)
    else
      var head := up[0];
      var forwards := head.Next? && left > 0;
      var ev := if head.Next? && !forwards then Complete else head;
      var rest := TakeSteps(if forwards then left - 1 else left, up[1..]);
      TakeRun([ev] + rest.calls, rest.left)
  }

  /** One push into the `takeLast` buffer: append, then drop the oldest if the buffer outgrew `count`. */
  function Enqueue<T>(cache: seq<T>, v: T, count: int): (c: seq<T>)
    ensures |c| <= |cache| + 1
  {
    var pushed := cache + [v];
    if |pushed| > count then pushed[1..] else pushed
  }

  /** The `takeLast` buffer after pushing `vs` in order. */
  function Buffered<T>(count: int, cache: seq<T>, vs: seq<T>): seq<T>
    decreases |vs|
  {
    if vs == [] then cache else Buffered(count, Enqueue(cache, vs[0], count), vs[1..])
  }

  /**
   * `takeLast(count)` with buffer `cache`: values only feed the buffer; `complete`
   * flushes it oldest first and then completes; `error` passes through.
   */
  function TakeLastCalls<T>(count: int, cache: seq<T>, up: seq<Event<T, Fault>>): seq<Event<T, Fault>>
    decreases |up|
  {
    if up == [] then []
    else match up[0]
      case Next(v) => TakeLastCalls(count, Enqueue(cache, v, count), up[1..])
      case Error(e) => [Error(e)] + TakeLastCalls(count, cache, up[1..])
      case Complete => Nexts(cache) + [Complete] + TakeLastCalls(count, [], up[1..])
  }

  /** `takeWhile(p)`: `next(v)` while `p(v)` holds, a `complete` call for a value failing it. */
  function TakeWhileCalls<T>(p: T -> bool, up: seq<Event<T, Fault>>): (calls: seq<Event<T, Fault>>)
    ensures |calls| == |up|
  {
    if up == [] then []
    else (if up[0].Next? && !p(up[0].value) then [Complete] else [up[0]]) + TakeWhileCalls(p, up[1..])
  }

  // ---------------------------------------------------------------------------
  // The operators as Observables
  // ---------------------------------------------------------------------------

  function Map<T, U>(obs: Observable<T>, f: T -> U): Observable<U> {
    Lift(MapCalls(f, Produced(obs.subscriber)))
  }

  function Filter<T>(obs: Observable<T>, p: T -> bool): Observable<T> {
    Lift(FilterCalls(p, Produced(obs.subscriber)))
  }

  /** The accumulator starts as `undefined`, once per subscription. */
  function Reduce<A, T>(obs: Observable<T>, f: (Option<A>, T) -> A): Observable<Option<A>> {
    Lift(ReduceCalls(f, None, Produced(obs.subscriber)))
  }

  /** `take(count)` with the counter starting from `count` for each subscription. */
  function Take<T>(obs: Observable<T>, count: int): Observable<T> {
    Lift(TakeSteps(count, Produced(obs.subscriber)).calls)
  }

  /** The buffer starts empty, once per subscription. */
  function TakeLast<T>(obs: Observable<T>, count: int): Observable<T> {
    Lift(TakeLastCalls(count, [], Produced(obs.subscriber)))
  }

  function TakeWhile<T>(obs: Observable<T>, p: T -> bool): Observable<T> {
    Lift(TakeWhileCalls(p, Produced(obs.subscriber)))
  }

  // ---------------------------------------------------------------------------
  // Subscribing to an operator
  // ---------------------------------------------------------------------------

  /**
   * A consumer that never unsubscribes receives what the observable produces,
   * filtered by the handlers it has.
   */
  lemma ProducedIsDelivered<T>(sink: Sink, subscriber: Subscriber<T>)
    ensures DeliveredEvents(NewSubscription(sink, Passive<T>(), subscriber).log) == Received(sink, Produced(subscriber))
  {
    var react := Passive<T>();
    match subscriber
    case Custom(calls, outcome) =>
      SubscribeCustomPassive(sink, react, calls, outcome);
    case OfItems(items) =>
      SubscribeFinite(sink, react, subscriber);
    case FromIterable(items) =>
      SubscribeFinite(sink, react, subscriber);
  }

  /**
   * Subscribing to an operator: the consumer receives the operator's calls cut by
   * the closed gate; the subscription closes exactly when a call was terminal, and
   * then the inner subscription's `unsubscribe` has run, once; otherwise it is the
   * stored cleanup.
   */
  lemma SubscribeOperator<U>(sink: Sink, calls: seq<Event<U, Fault>>)
    ensures var r := NewSubscription(sink, Passive<U>(), Lift(calls).subscriber);
      && DeliveredEvents(r.log) == Received(sink, Gate(calls))
      && (Closed(r) <==> Terminates(calls))
      && (Closed(r) ==> CleanupsRun(r.log) == [CallUnsubscribe(0)])
      && (!Closed(r) ==> r.cleanup == Some(CallUnsubscribe(0)))
  {
    var react := Passive<U>();
    var outcome := Returns(InnerSubscription);
    assert OutcomeEvents<U>(outcome) == [];
    assert calls + OutcomeEvents<U>(outcome) == calls;
    SubscribeCustomPassive(sink, react, calls, outcome);
    SubscribeCustom(sink, react, calls, outcome);
  }

  /**
   * `subscribe(next, error, complete)` with functions: the consumer receives every
   * value the observable produces, and the ending only when the matching
   * positional callback is callable.
   */
  lemma FunctionObserverReceives<T>(obs: Observable<T>, errorCallable: bool, completeCallable: bool)
    ensures var t := Produced(obs.subscriber);
      var d := DeliveredEvents(Subscribe(obs, FunctionArg(errorCallable, completeCallable), Passive<T>()).log);
      && WellFormed(d)
      && Values(d) == Values(t)
      && EndOf(d) == (if (EndOf(t).Failed? && !errorCallable) || (EndOf(t).Completed? && !completeCallable) then Open else EndOf(t))
  {
    var sink := ObserverOf(FunctionArg(errorCallable, completeCallable));
    var t := Produced(obs.subscriber);
    ProducedIsDelivered(sink, obs.subscriber);
    DecomposeRoundTrip(t);
    ReceivedCompose(sink, Values(t), EndOf(t));
    ComposeRoundTrip(Values(t), HandledEnding(sink, EndOf(t)));
  }

  /** The inner subscription an operator's subscriber function opens on its upstream, with the forwarding literal. */
  function InnerOf<T>(upstream: Subscriber<T>): Subscription<T, Fault> {
    NewSubscription(Forwarder, Passive<T>(), upstream)
  }

  /** The forwarding literal has all three handlers, so it receives exactly what the upstream produces. */
  lemma InnerReceivesProduced<T>(upstream: Subscriber<T>)
    ensures DeliveredEvents(InnerOf(upstream).log) == Produced(upstream)
  {
    ProducedIsDelivered(Forwarder, upstream);
    FullSinkReceivesAll(Forwarder, Produced(upstream));
  }

  /**
   * Running a cleanup action on the subscription it belongs to: the thunk built
   * for a subscription-like return value calls its `unsubscribe`; a function the
   * subscriber returned does not touch it.
   */
  function RunCleanupOn<T>(c: Cleanup, target: Subscription<T, Fault>): Subscription<T, Fault> {
    match c
    case CallUnsubscribe(_) => Unsubscribe(target)
    case CallFunction(_) => target
  }

  /** The target after the cleanup actions `cs` have run on it, in order. */
  function AfterCleanups<T>(cs: seq<Cleanup>, target: Subscription<T, Fault>): Subscription<T, Fault>
    decreases |cs|
  {
    if cs == [] then target else AfterCleanups(cs[1..], RunCleanupOn(cs[0], target))
  }

  /**
   * Cancellation reaches the upstream. Whatever happens to an operator
   * subscription after `subscribe` returned (`ops`: late calls, the consumer's
   * `unsubscribe`), once it is closed the cleanup it ran has unsubscribed the
   * inner subscription `inner`, taken in the state it is in at that moment:
   * that closes it and runs its own cleanup once if it was open. While the
   * operator subscription is open the inner one is untouched.
   */
  lemma OperatorCloseUnsubscribesInner<T, U>(sink: Sink, calls: seq<Event<U, Fault>>, ops: seq<Op<U, Fault>>, inner: Subscription<T, Fault>)
    ensures var r := ApplyAll(NewSubscription(sink, Passive<U>(), Lift(calls).subscriber), ops);
      var i := AfterCleanups(CleanupsRun(r.log), inner);
      && (Closed(r) ==> i == Unsubscribe(inner) && Closed(i))
      && (!Closed(r) ==> i == inner)
  {
    var r0 := NewSubscription(sink, Passive<U>(), Lift(calls).subscriber);
    SubscribeOperator(sink, calls);
    NewSubscriptionIsCoherent(sink, Passive<U>(), Lift(calls).subscriber);
    CleanupRunsOnceClosed(r0, ops, CallUnsubscribe(0));
    var one: seq<Cleanup> := [CallUnsubscribe(0)];
    assert AfterCleanups(one, inner) == AfterCleanups([], Unsubscribe(inner));
  }

  // ---------------------------------------------------------------------------
  // Operator traces
  // ---------------------------------------------------------------------------

  /** An ending on its own: no values, then the terminal event if any. */
  lemma ComposeEnding<T>(end: Ending<Fault>)
    ensures Compose<T, Fault>([], end) == Terminal(end)
    ensures end.Completed? ==> Terminal<T, Fault>(end) == [Complete]
    ensures end.Failed? ==> Terminal<T, Fault>(end) == [Error(end.error)]
    ensures end.Open? ==> Terminal<T, Fault>(end) == []
  {
  }

  /** `map` treats each upstream event on its own. */
  lemma MapCallsCons<T, U>(f: T -> U, ev: Event<T, Fault>, rest: seq<Event<T, Fault>>)
    ensures MapCalls(f, [ev] + rest) == MapCalls(f, [ev]) + MapCalls(f, rest)
  {
    assert ([ev] + rest)[1..] == rest;
  }

  lemma MapSeqCons<T, U>(f: T -> U, v: T, vs: seq<T>)
    ensures MapSeq(f, [v] + vs) == [f(v)] + MapSeq(f, vs)
  {
  }

  /** `map` forwards `f(v)` for every value and keeps the ending. */
  lemma {:induction false} MapTrace<T, U>(f: T -> U, vs: seq<T>, end: Ending<Fault>)
    ensures MapCalls(f, Compose(vs, end)) == Compose(MapSeq(f, vs), end)
  {
    if vs == [] {
      ComposeEnding<T>(end);
      ComposeEnding<U>(end);
      assert MapSeq(f, vs) == [];
    } else {
      var v := vs[0];
      ComposeCons(v, vs[1..], end);
      assert vs == [v] + vs[1..];
      MapCallsCons(f, Next(v), Compose(vs[1..], end));
      MapTrace(f, vs[1..], end);
      MapSeqCons(f, v, vs[1..]);
      ComposeCons(f(v), MapSeq(f, vs[1..]), end);
    }
  }

  /** `filter` forwards exactly the values satisfying `p`, in order, and keeps the ending. */
  lemma {:induction false} FilterTrace<T>(p: T -> bool, vs: seq<T>, end: Ending<Fault>)
    ensures FilterCalls(p, Compose(vs, end)) == Compose(FilterSeq(p, vs), end)
  {
    if vs != [] {
      ComposeCons(vs[0], vs[1..], end);
      assert vs == [vs[0]] + vs[1..];
      FilterTrace(p, vs[1..], end);
      if p(vs[0]) {
        ComposeCons(vs[0], FilterSeq(p, vs[1..]), end);
      }
    }
  }

  /**
   * `reduce` emits nothing per value; on completion it emits the fold of all
   * values from the starting accumulator and completes; an error passes alone.
   */
  lemma {:induction false} ReduceTrace<A, T>(f: (Option<A>, T) -> A, acc: Option<A>, vs: seq<T>, end: Ending<Fault>)
    ensures ReduceCalls(f, acc, Compose(vs, end)) ==
      match end
      case Completed => Compose([FoldLeft(f, acc, vs)], Completed)
      case Failed(e) => [Error(e)]
      case Open => []
    decreases |vs|
  {
    if vs == [] {
      match end
      case Completed =>
        assert Compose<T, Fault>(vs, end) == [Complete];
      case Failed(e) =>
        assert Compose<T, Fault>(vs, end) == [Error(e)];
      case Open =>
    } else {
      ComposeCons(vs[0], vs[1..], end);
      assert vs == [vs[0]] + vs[1..];
      ReduceTrace(f, Some(f(acc, vs[0])), vs[1..], end);
    }
  }

  /** The result `take(n)` promises for values `vs` and ending `end`. */
  function TakeResult<T>(n: int, vs: seq<T>, end: Ending<Fault>): seq<Event<T, Fault>> {
    if |vs| > Max0(n) then Compose(vs[..Max0(n)], Completed) else Compose(vs, end)
  }

  /** While the counter is positive, a value comes first in the promised result. */
  lemma TakeResultCons<T>(n: int, v: T, vs: seq<T>, end: Ending<Fault>)
    requires n > 0
    ensures TakeResult(n, [v] + vs, end) == [Next(v)] + TakeResult(n - 1, vs, end)
  {
    var xs := [v] + vs;
    var k := Max0(n);
    assert Max0(n - 1) == k - 1;
    ComposeCons<T, Fault>(v, vs, end);
    if |xs| > k {
      assert xs[..k] == [v] + vs[..k - 1];
      ComposeCons<T, Fault>(v, vs[..k - 1], Completed);
    }
  }

  /** `take` on one value: forwarded while the counter is positive, else a `complete` call. */
  lemma TakeStepsCons<T>(left: int, v: T, rest: seq<Event<T, Fault>>)
    ensures var r := TakeSteps(left, [Next(v)] + rest);
      && (left > 0 ==> r.calls == [Next(v)] + TakeSteps(left - 1, rest).calls && r.left == TakeSteps(left - 1, rest).left)
      && (left <= 0 ==> r.calls == [Complete] + TakeSteps(left, rest).calls && r.left == TakeSteps(left, rest).left)
  {
    assert ([Next(v)] + rest)[1..] == rest;
  }

  /** With no values, `take` passes the ending and keeps its counter. */
  lemma TakeEnding<T>(n: int, end: Ending<Fault>)
    ensures TakeSteps(n, Compose<T, Fault>([], end)) == TakeRun(Terminal(end), n)
    ensures Gate(Terminal<T, Fault>(end)) == Terminal(end)
  {
    ComposeEnding<T>(end);
  }

  /**
   * `take(n)` forwards the first `max(n, 0)` values. If more arrive, the next one
   * completes the stream instead of being forwarded; otherwise the upstream's
   * ending passes through. The counter drops by the number of values forwarded.
   */
  lemma {:induction false} TakeTrace<T>(n: int, vs: seq<T>, end: Ending<Fault>)
    ensures var r := TakeSteps(n, Compose(vs, end));
      && Gate(r.calls) == TakeResult(n, vs, end)
      && r.left == n - Min(Max0(n), |vs|)
  {
    if vs == [] {
      TakeEnding<T>(n, end);
      ComposeEnding<T>(end);
    } else {
      var v := vs[0];
      var rest := vs[1..];
      ComposeCons(v, rest, end);
      assert vs == [v] + rest;
      if n > 0 {
        TakeTrace(n - 1, rest, end);
        TakeForwards(n, v, rest, end);
      } else {
        TakeTrace(n, rest, end);
        TakeExhausted(n, v, rest, end);
      }
    }
  }

  /** A value arriving while the counter is positive is forwarded ahead of the rest. */
  lemma TakeForwards<T>(n: int, v: T, rest: seq<T>, end: Ending<Fault>)
    requires n > 0
    requires var r := TakeSteps(n - 1, Compose(rest, end));
      Gate(r.calls) == TakeResult(n - 1, rest, end) && r.left == n - 1 - Min(Max0(n - 1), |rest|)
    ensures var r := TakeSteps(n, [Next(v)] + Compose(rest, end));
      Gate(r.calls) == TakeResult(n, [v] + rest, end) && r.left == n - Min(Max0(n), |rest| + 1)
  {
    TakeStepsCons(n, v, Compose(rest, end));
    GateCons(Next(v), TakeSteps(n - 1, Compose(rest, end)).calls);
    TakeResultCons(n, v, rest, end);
  }

  /** A value arriving once the counter is exhausted becomes a `complete` call. */
  lemma TakeExhausted<T>(n: int, v: T, rest: seq<T>, end: Ending<Fault>)
    requires n <= 0
    requires TakeSteps(n, Compose(rest, end)).left == n
    ensures var r := TakeSteps(n, [Next(v)] + Compose(rest, end));
      Gate(r.calls) == TakeResult(n, [v] + rest, end) && r.left == n
  {
    TakeStepsCons(n, v, Compose(rest, end));
    GateCons(Complete, TakeSteps(n, Compose(rest, end)).calls);
    assert ([v] + rest)[..0] == [];
    ComposeEnding<T>(Completed);
  }

  /** One push keeps the buffer equal to the last `count` values seen. */
  lemma EnqueueKeepsLastN<T>(xs: seq<T>, v: T, n: int)
    ensures Enqueue(LastN(xs, n), v, n) == LastN(xs + [v], n)
  {
    var ys := xs + [v];
    if n <= 0 {
      assert LastN(xs, n) == [];
      assert LastN(ys, n) == [];
    } else if |xs| < n {
      assert LastN(xs, n) == xs;
      assert LastN(ys, n) == ys;
    } else {
      var d := |xs| - n;
      assert LastN(xs, n) == xs[d..];
      assert LastN(ys, n) == ys[d + 1..];
      assert (xs[d..] + [v])[1..] == xs[d + 1..] + [v];
      assert ys[d + 1..] == xs[d + 1..] + [v];
    }
  }

  /** The `takeLast` buffer holds the last `count` values received, oldest first. */
  lemma {:induction false} BufferHoldsLastN<T>(n: int, xs: seq<T>, vs: seq<T>)
    ensures Buffered(n, LastN(xs, n), vs) == LastN(xs + vs, n)
    ensures |Buffered(n, LastN(xs, n), vs)| <= Max0(n)
    decreases |vs|
  {
    if vs == [] {
      assert xs + vs == xs;
    } else {
      var v := vs[0];
      EnqueueKeepsLastN(xs, v, n);
      assert Buffered(n, LastN(xs, n), vs) == Buffered(n, LastN(xs + [v], n), vs[1..]);
      BufferHoldsLastN(n, xs + [v], vs[1..]);
      assert xs + [v] + vs[1..] == xs + vs;
    }
  }

  /** What `takeLast` emits once the upstream has ended, holding `cache`. */
  function Flush<T>(cache: seq<T>, end: Ending<Fault>): seq<Event<T, Fault>> {
    match end
    case Completed => Compose(cache, Completed)
    case Failed(e) => [Error(e)]
    case Open => []
  }

  /** With no values left, `takeLast` flushes its buffer on completion only. */
  lemma TakeLastEnding<T>(n: int, cache: seq<T>, end: Ending<Fault>)
    ensures TakeLastCalls(n, cache, Compose([], end)) == Flush(cache, end)
  {
    ComposeEnding<T>(end);
    match end
    case Completed =>
      assert TakeLastCalls(n, cache, [Complete]) == Nexts(cache) + [Complete] + TakeLastCalls(n, [], []);
    case Failed(e) =>
    case Open =>
  }

  /** A value only feeds the buffer. */
  lemma TakeLastCallsCons<T>(n: int, cache: seq<T>, v: T, rest: seq<Event<T, Fault>>)
    ensures TakeLastCalls(n, cache, [Next(v)] + rest) == TakeLastCalls(n, Enqueue(cache, v, n), rest)
  {
    assert ([Next(v)] + rest)[1..] == rest;
  }

  /** `takeLast` emits nothing before the upstream ends and then flushes the buffer it built. */
  lemma {:induction false} TakeLastRuns<T>(n: int, cache: seq<T>, vs: seq<T>, end: Ending<Fault>)
    ensures TakeLastCalls(n, cache, Compose(vs, end)) == Flush(Buffered(n, cache, vs), end)
    decreases |vs|
  {
    if vs == [] {
      TakeLastEnding(n, cache, end);
    } else {
      var v := vs[0];
      ComposeCons(v, vs[1..], end);
      assert vs == [v] + vs[1..];
      TakeLastCallsCons(n, cache, v, Compose(vs[1..], end));
      TakeLastRuns(n, Enqueue(cache, v, n), vs[1..], end);
    }
  }

  /**
   * `takeLast(n)`, starting from an empty buffer: on completion it flushes the
   * last `n` values received, oldest first, and completes; an error passes alone
   * and the buffer is dropped; nothing is emitted while open.
   */
  lemma TakeLastTrace<T>(n: int, vs: seq<T>, end: Ending<Fault>)
    ensures TakeLastCalls(n, [], Compose(vs, end)) == Flush(LastN(vs, n), end)
  {
    var none: seq<T> := [];
    TakeLastRuns(n, none, vs, end);
    assert LastN(none, n) == [];
    BufferHoldsLastN(n, none, vs);
    assert none + vs == vs;
  }

  /** The empty-values case: the ending passes through `takeWhile` unchanged. */
  lemma TakeWhileEnding<T>(p: T -> bool, end: Ending<Fault>)
    ensures Gate(TakeWhileCalls(p, Compose([], end))) == Compose([], end)
  {
    match end
    case Completed =>
      assert Compose<T, Fault>([], end) == [Complete];
    case Failed(e) =>
      assert Compose<T, Fault>([], end) == [Error(e)];
    case Open =>
  }

  /** A value that passes `p` is forwarded ahead of the rest. */
  lemma TakeWhileCons<T>(p: T -> bool, v: T, rest: seq<Event<T, Fault>>)
    ensures p(v) ==> Gate(TakeWhileCalls(p, [Next(v)] + rest)) == [Next(v)] + Gate(TakeWhileCalls(p, rest))
    ensures !p(v) ==> Gate(TakeWhileCalls(p, [Next(v)] + rest)) == [Complete]
  {
    assert ([Next(v)] + rest)[1..] == rest;
  }

  /** The result `takeWhile` promises for values `vs` and ending `end`. */
  function TakeWhileResult<T>(p: T -> bool, vs: seq<T>, end: Ending<Fault>): seq<Event<T, Fault>> {
    var j := FirstWhere(Not(p), vs);
    if j < |vs| then Compose(vs[..j], Completed) else Compose(vs, end)
  }

  /** Prepending a value that passes `p` to the promised result. */
  lemma TakeWhileResultCons<T>(p: T -> bool, v: T, vs: seq<T>, end: Ending<Fault>)
    requires p(v)
    ensures TakeWhileResult(p, [v] + vs, end) == [Next(v)] + TakeWhileResult(p, vs, end)
  {
    var xs := [v] + vs;
    assert xs[1..] == vs;
    assert !Not(p)(v);
    var j := FirstWhere(Not(p), xs);
    assert j == 1 + FirstWhere(Not(p), vs);
    ComposeCons<T, Fault>(v, vs, end);
    if j < |xs| {
      assert xs[..j] == [v] + vs[..j - 1];
      ComposeCons<T, Fault>(v, vs[..j - 1], Completed);
    }
  }

  /**
   * `takeWhile(p)` forwards the values before the first one failing `p` and then
   * completes without forwarding it; if every value passes, the ending passes through.
   */
  lemma {:induction false} TakeWhileTrace<T>(p: T -> bool, vs: seq<T>, end: Ending<Fault>)
    ensures Gate(TakeWhileCalls(p, Compose(vs, end))) == TakeWhileResult(p, vs, end)
  {
    if vs == [] {
      TakeWhileEnding(p, end);
    } else {
      var v := vs[0];
      ComposeCons(v, vs[1..], end);
      assert vs == [v] + vs[1..];
      TakeWhileCons(p, v, Compose(vs[1..], end));
      if p(v) {
        TakeWhileTrace(p, vs[1..], end);
        TakeWhileResultCons(p, v, vs[1..], end);
      } else {
        assert Not(p)(v);
        assert FirstWhere(Not(p), vs) == 0;
      }
    }
  }

  // ---------------------------------------------------------------------------
  // Operators on observables: what each one produces from what its upstream produces
  // ---------------------------------------------------------------------------

  lemma MapProduces<T, U>(obs: Observable<T>, f: T -> U)
    ensures var up := Produced(obs.subscriber);
      Produced(Map(obs, f).subscriber) == Compose(MapSeq(f, Values(up)), EndOf(up))
  {
    var up := Produced(obs.subscriber);
    DecomposeRoundTrip(up);
    MapTrace(f, Values(up), EndOf(up));
    ComposeRoundTrip(MapSeq(f, Values(up)), EndOf(up));
    GateFixesExactlyWellFormed(Compose(MapSeq(f, Values(up)), EndOf(up)));
  }

  lemma FilterProduces<T>(obs: Observable<T>, p: T -> bool)
    ensures var up := Produced(obs.subscriber);
      Produced(Filter(obs, p).subscriber) == Compose(FilterSeq(p, Values(up)), EndOf(up))
  {
    var up := Produced(obs.subscriber);
    DecomposeRoundTrip(up);
    FilterTrace(p, Values(up), EndOf(up));
    ComposeRoundTrip(FilterSeq(p, Values(up)), EndOf(up));
    GateFixesExactlyWellFormed(Compose(FilterSeq(p, Values(up)), EndOf(up)));
  }

  lemma ReduceProduces<A, T>(obs: Observable<T>, f: (Option<A>, T) -> A)
    ensures var up := Produced(obs.subscriber);
      Produced(Reduce(obs, f).subscriber) ==
        match EndOf(up)
        case Completed => [Next(FoldLeft(f, None, Values(up))), Complete]
        case Failed(e) => [Error(e)]
        case Open => []
  {
    var up := Produced(obs.subscriber);
    DecomposeRoundTrip(up);
    ReduceTrace(f, None, Values(up), EndOf(up));
    var calls := ReduceCalls(f, None, up);
    match EndOf(up)
    case Completed =>
      assert calls == [Next(FoldLeft(f, None, Values(up))), Complete];
      GateFixesExactlyWellFormed(calls);
    case Failed(e) =>
      GateFixesExactlyWellFormed(calls);
    case Open =>
  }

  lemma TakeProduces<T>(obs: Observable<T>, n: int)
    ensures var up := Produced(obs.subscriber); var vs := Values(up);
      Produced(Take(obs, n).subscriber) ==
        if |vs| > Max0(n) then Compose(vs[..Max0(n)], Completed) else up
  {
    var up := Produced(obs.subscriber);
    DecomposeRoundTrip(up);
    TakeTrace(n, Values(up), EndOf(up));
  }

  lemma TakeLastProduces<T>(obs: Observable<T>, n: int)
    ensures var up := Produced(obs.subscriber);
      Produced(TakeLast(obs, n).subscriber) == Flush(LastN(Values(up), n), EndOf(up))
  {
    var up := Produced(obs.subscriber);
    DecomposeRoundTrip(up);
    TakeLastTrace(n, Values(up), EndOf(up));
    var calls := TakeLastCalls(n, [], up);
    ComposeRoundTrip<T, Fault>(LastN(Values(up), n), Completed);
    GateFixesExactlyWellFormed(calls);
  }

  lemma TakeWhileProduces<T>(obs: Observable<T>, p: T -> bool)
    ensures var up := Produced(obs.subscriber); var vs := Values(up); var j := FirstWhere(Not(p), vs);
      Produced(TakeWhile(obs, p).subscriber) == if j < |vs| then Compose(vs[..j], Completed) else up
  {
    var up := Produced(obs.subscriber);
    DecomposeRoundTrip(up);
    TakeWhileTrace(p, Values(up), EndOf(up));
  }

  // ---------------------------------------------------------------------------
  // Worked examples
  // ---------------------------------------------------------------------------

  /** The last two of 1, 2, 3, 4 are 3 and 4. */
  lemma LastTwoOfFour()
    ensures LastN([1, 2, 3, 4], 2) == [3, 4]
  {
    assert [1, 2, 3, 4][2..] == [3, 4];
  }

  /** `takeLast(2)` over `of(1, 2, 3, 4)` yields 3 and 4, then completes. */
  lemma TakeLastOfFour()
    ensures Produced(TakeLast(Of([1, 2, 3, 4]), 2).subscriber) == [Next(3), Next(4), Complete]
  {
    var obs := Of([1, 2, 3, 4]);
    var up := Produced(obs.subscriber);
    assert up == Compose([1, 2, 3, 4], Completed);
    ComposeRoundTrip<int, Fault>([1, 2, 3, 4], Completed);
    TakeLastProduces(obs, 2);
    LastTwoOfFour();
    assert Flush<int>([3, 4], Completed) == [Next(3), Next(4), Complete];
  }

  /** The sum with `(acc || 0) + v`: an undefined accumulator counts as 0. */
  function SumStep(acc: Option<int>, v: int): int {
    (if acc.Some? then acc.value else 0) + v
  }

  /**
   * `reduce` summing `of(1, 2, 3)` yields 6 and completes; over an empty `of()`
   * it yields `undefined` and completes.
   */
  lemma ReduceSums()
    ensures Produced(Reduce(Of([1, 2, 3]), SumStep).subscriber) == [Next(Some(6)), Complete]
    ensures Produced(Reduce(Of([]), SumStep).subscriber) == [Next(None), Complete]
  {
    ReduceProduces(Of([1, 2, 3]), SumStep);
    ComposeRoundTrip<int, Fault>([1, 2, 3], Completed);
    assert FoldLeft(SumStep, None, [1, 2, 3]) == FoldLeft(SumStep, Some(1), [2, 3]);
    ReduceProduces(Of([]), SumStep);
    ComposeRoundTrip<int, Fault>([], Completed);
  }

  /**
   * `take(0)` is not eager: over `of(5)` it completes when the value arrives,
   * and over a subscriber that makes no call it delivers nothing at all.
   */
  lemma TakeZeroWaits()
    ensures Produced(Take(Of([5]), 0).subscriber) == [Complete]
    ensures Produced(Take<int>(Observable(Custom([], Returns(Nullish))), 0).subscriber) == []
  {
    TakeProduces(Of([5]), 0);
    ComposeRoundTrip<int, Fault>([5], Completed);
    var silent: Observable<int> := Observable(Custom([], Returns(Nullish)));
    TakeProduces(silent, 0);
    assert OutcomeEvents<int>(Returns(Nullish)) == [];
  }

  function Double(x: int): int { x * 2 }

  function AboveTwo(x: int): bool { x > 2 }

  /** `of(1, 2, 3).map(x => x * 2)` yields 2, 4 and 6, then completes. */
  lemma MapDoubles()
    ensures Produced(Map(Of([1, 2, 3]), Double).subscriber) == Compose([2, 4, 6], Completed)
  {
    MapProduces(Of([1, 2, 3]), Double);
    ComposeRoundTrip<int, Fault>([1, 2, 3], Completed);
    assert MapSeq(Double, [1, 2, 3]) == [2, 4, 6];
  }

  /** Keeping the values above two of 2, 4, 6 keeps 4 and 6. */
  lemma FilterAboveTwo()
    ensures FilterSeq(AboveTwo, [2, 4, 6]) == [4, 6]
  {
    assert [2, 4, 6][1..] == [4, 6];
    assert [4, 6][1..] == [6];
    assert [6][1..] == [];
  }

  /** `of(1, 2, 3).map(x => x * 2).filter(x => x > 2)` yields 4 and 6, then completes. */
  lemma MapThenFilter()
    ensures Produced(Filter(Map(Of([1, 2, 3]), Double), AboveTwo).subscriber) == [Next(4), Next(6), Complete]
  {
    var mapped := Map(Of([1, 2, 3]), Double);
    MapDoubles();
    FilterProduces(mapped, AboveTwo);
    ComposeRoundTrip<int, Fault>([2, 4, 6], Completed);
    FilterAboveTwo();
    assert Compose<int, Fault>([4, 6], Completed) == [Next(4), Next(6), Complete];
  }
}
