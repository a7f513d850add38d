/**
 * Observables: the Subscription constructor, `subscribe` with its argument
 * normalisation, the Observable constructor, and the finite producers `of`
 * and `from` (iterable branch).
 *
 * User code is uninterpreted. A subscriber function is described by the
 * notifications it makes synchronously and by how it finishes (returning a
 * value or throwing). The consumer's re-entrant behaviour is described by a
 * Reaction: whether its `start` hook unsubscribes, and on which `next` calls its
 * `next` handler unsubscribes.
 */
module Observables {
  import opened Wrappers
  import opened Trace
  import opened Seqs
  import opened Subscriptions

  /** A JavaScript error value: a TypeError raised by the library, or anything user code throws. */
  datatype Fault = TypeError(message: string) | Thrown(payload: int)

  const NotAFunction := "is not a function"
  const InitializerNotAFunction := "Observable initializer must be a function"
  const NotAnObject := "is not an object"
  const NotObservable := "is not observable"

  /**
   * A value a subscriber function returned: `null`/`undefined`, or some other
   * value, described by whether it is callable and whether it has a callable
   * `unsubscribe` property.
   */
  datatype Returned = Nullish | Value(id: nat, callable: bool, hasUnsubscribe: bool)

  /** How a subscriber function finished. */
  datatype Outcome = Returns(value: Returned) | Throws(error: Fault)

  /** The subscriber function an Observable holds. */
  datatype Subscriber<T> =
    | Custom(calls: seq<Event<T, Fault>>, outcome: Outcome)
    | OfItems(items: seq<T>)
    | FromIterable(items: seq<T>)

  datatype Observable<T> = Observable(subscriber: Subscriber<T>)

  /** The argument given to `new Observable`. */
  datatype Initializer<T> = Callable(subscriber: Subscriber<T>) | NotCallable

  /**
   * The argument given to `Observable.from`: `null`/`undefined`, an iterable
   * (its items as iterated when `from` is called), an object whose
   * `Symbol.iterator` is present but not callable, or one without it.
   */
  datatype Source<T> =
    | NullishSource
    | IterableSource(items: seq<T>)
    | UncallableIteratorSource
    | PlainSource

  /** The first argument of `subscribe`, with the callability of the two positional extras. */
  datatype ObserverArg =
    | FunctionArg(errorCallable: bool, completeCallable: bool)
    | ObjectArg(sink: Sink)
    | NullArg
    | PrimitiveArg

  /**
   * The consumer's re-entrant calls to `unsubscribe`: from `start`, or from its
   * `next` handler. The handler decides on the index of the `next` call (counting
   * from 0) and the value; since the values before it are fixed by the producer,
   * this covers any consumer that decides on what it has been given so far.
   */
  datatype Reaction<!T> = Reaction(unsubscribeInStart: bool, unsubscribeOn: (nat, T) -> bool)

  /** `new Observable(init)`: the initializer must be callable. */
  function NewObservable<T>(init: Initializer<T>): (r: Result<Observable<T>, Fault>)
    ensures r.Failure? <==> init.NotCallable?
    ensures r.Failure? ==> r.error == TypeError(InitializerNotAFunction)
    ensures r.Success? ==> r.value.subscriber == init.subscriber
  {
    match init
    case NotCallable => Failure(TypeError(InitializerNotAFunction))
    case Callable(sub) => Success(Observable(sub))
  }

  /** `Observable.of(...items)`. */
  function Of<T>(items: seq<T>): Observable<T> {
    Observable(OfItems(items))
  }

  /** `Observable.from(x)`, without the `Symbol.observable` branch. */
  function From<T>(src: Source<T>): (r: Result<Observable<T>, Fault>)
    ensures r.Success? <==> src.IterableSource?
    ensures src.NullishSource? ==> r == Failure(TypeError(NotAnObject))
    ensures src.UncallableIteratorSource? ==> r == Failure(TypeError(NotAFunction))
    ensures src.PlainSource? ==> r == Failure(TypeError(NotObservable))
    ensures src.IterableSource? ==> r.value.subscriber.FromIterable? && r.value.subscriber.items == src.items
  {
    match src
    case NullishSource => Failure(TypeError(NotAnObject))
    case UncallableIteratorSource => Failure(TypeError(NotAFunction))
    case PlainSource => Failure(TypeError(NotObservable))
    case IterableSource(items) => Success(Observable(FromIterable(items)))
  }

  /**
   * `subscribe`'s normalisation: a function becomes `{next, error, complete}`
   * from the positional arguments; `null` stays `null`, whose handler lookups
   * throw and are swallowed; any other non-object becomes `{}`.
   */
  function ObserverOf(arg: ObserverArg): (sink: Sink)
    ensures arg.ObjectArg? ==> sink == arg.sink
    ensures !arg.ObjectArg? ==> !sink.hasStart
    ensures arg.FunctionArg? ==>
      sink.hasNext && (sink.hasError <==> arg.errorCallable) && (sink.hasComplete <==> arg.completeCallable)
    ensures (arg.NullArg? || arg.PrimitiveArg?) ==> !sink.hasNext && !sink.hasError && !sink.hasComplete
  {
    match arg
    case FunctionArg(errorCallable, completeCallable) => Sink(false, true, errorCallable, completeCallable)
    case ObjectArg(sink) => sink
    case NullArg => Sink(false, false, false, false)
    case PrimitiveArg => Sink(false, false, false, false)
  }

  /**
   * The subscriber's return value as a cleanup: nothing for `null`/`undefined`,
   * a thunk calling `unsubscribe` for a subscription-like object, the function
   * itself for a function, and a TypeError for anything else.
   */
  function NormaliseCleanup(v: Returned): (r: Result<Option<Cleanup>, Fault>)
    ensures r.Failure? <==> v.Value? && !v.hasUnsubscribe && !v.callable
    ensures r.Failure? ==> r.error == TypeError(NotAFunction)
    ensures r == Success(None) <==> v.Nullish?
    ensures v.Value? && v.hasUnsubscribe ==> r == Success(Some(CallUnsubscribe(v.id)))
    ensures v.Value? && !v.hasUnsubscribe && v.callable ==> r == Success(Some(CallFunction(v.id)))
  {
    match v
    case Nullish => Success(None)
    case Value(id, callable, hasUnsubscribe) =>
      if hasUnsubscribe then Success(Some(CallUnsubscribe(id)))
      else if callable then Success(Some(CallFunction(id)))
      else Failure(TypeError(NotAFunction))
  }

  /** Whether the sink's `next` handler unsubscribes on the `next` call with index `n` and value `v`. */
  predicate QuitsOn<T>(sink: Sink, react: Reaction<T>, n: nat, v: T) {
    sink.hasNext && react.unsubscribeOn(n, v)
  }

  /**
   * The calls one notification makes when `n` `next` calls came before it,
   * followed by the consumer's unsubscribe if its `next` handler reacts.
   */
  function Reacted<T>(sink: Sink, react: Reaction<T>, n: nat, ev: Event<T, Fault>): seq<Op<T, Fault>> {
    [Emit(ev)] + (if ev.Next? && QuitsOn(sink, react, n, ev.value) then [Cancel] else [])
  }

  /** How many `next` calls a notification is: one or none. */
  function NextCount<T>(ev: Event<T, Fault>): nat {
    if ev.Next? then 1 else 0
  }

  /** The calls a sequence of notifications makes after `n` `next` calls, with the consumer's reactions. */
  function WithReactions<T>(sink: Sink, react: Reaction<T>, n: nat, evs: seq<Event<T, Fault>>): seq<Op<T, Fault>>
    decreases |evs|
  {
    if evs == [] then []
    else Reacted(sink, react, n, evs[0]) + WithReactions(sink, react, n + NextCount(evs[0]), evs[1..])
  }

  /**
   * The position in `items`, pushed from `next` call `n` on, of the value on which
   * the consumer unsubscribes, or `|items|` if it never does.
   */
  function QuitIndex<T>(sink: Sink, react: Reaction<T>, n: nat, items: seq<T>): (k: nat)
    ensures k <= |items|
    ensures forall i | 0 <= i < k :: !QuitsOn(sink, react, n + i, items[i])
    ensures k < |items| ==> QuitsOn(sink, react, n + k, items[k])
    decreases |items|
  {
    if items == [] || QuitsOn(sink, react, n, items[0]) then 0
    else 1 + QuitIndex(sink, react, n + 1, items[1..])
  }

  /** Pushing one value as `next` call `n`: `observer.next(v)`, during which the consumer may unsubscribe. */
  function Push<T>(s: Subscription<T, Fault>, n: nat, v: T, react: Reaction<T>): (r: Subscription<T, Fault>)
    ensures Closed(s) ==> r == s
    ensures !Closed(s) ==> DeliveredEvents(r.log) == DeliveredEvents(s.log) + Received(s.observer.value, [Next(v)])
    ensures !Closed(s) ==> (Closed(r) <==> QuitsOn(s.observer.value, react, n, v))
    ensures !Closed(s) ==> r.log == s.log + DeliveryEntry(s.observer.value, Next(v)) + (if Closed(r) then CleanupEntry(s.cleanup) else [])
    ensures CleanupsRun(r.log) == CleanupsRun(s.log) + (if Closed(r) && !Closed(s) then Pending(s.cleanup) else [])
    ensures !Closed(r) ==> r.cleanup == s.cleanup && r.observer == s.observer
    ensures Closed(r) && !Closed(s) ==> r.cleanup.None?
  {
    var s1 := ObserverNext(s, v);
    if !Closed(s) && QuitsOn(s.observer.value, react, n, v) then Unsubscribe(s1) else s1
  }

  /** The result of running the `of`/`from` loop: the subscription, how many items were taken, whether it returned early. */
  datatype Pushed<T> = Pushed(sub: Subscription<T, Fault>, pulled: nat, stoppedEarly: bool)

  /**
   * The body of the `of` and `from` producers, from `next` call `n` on: push each
   * item, check `closed` after each push and return early if it is set, otherwise
   * `complete` at the end. For `from`, returning early also closes the iterator.
   */
  function PushEach<T>(s: Subscription<T, Fault>, items: seq<T>, react: Reaction<T>, n: nat): (r: Pushed<T>)
    ensures Closed(r.sub)
    ensures r.pulled <= |items|
    ensures !r.stoppedEarly ==> r.pulled == |items|
    decreases |items|
  {
    if items == [] then Pushed(ObserverComplete(s), 0, false)
    else
      var s1 := Push(s, n, items[0], react);
      if Closed(s1) then Pushed(s1, 1, true)
      else
        var rest := PushEach(s1, items[1..], react, n + 1);
        rest.(pulled := rest.pulled + 1)
  }

  /** The subscription after the subscriber function has run, and how that function finished. */
  datatype Ran<T> = Ran(sub: Subscription<T, Fault>, outcome: Outcome)

  /** Calls the subscriber function on the SubscriptionObserver of `s`. */
  function RunSubscriber<T>(s: Subscription<T, Fault>, sink: Sink, subscriber: Subscriber<T>, react: Reaction<T>): Ran<T> {
    match subscriber
    case Custom(calls, outcome) => Ran(ApplyAll(s, WithReactions(sink, react, 0, calls)), outcome)
    case OfItems(items) => Ran(PushEach(s, items, react, 0).sub, Returns(Nullish))
    case FromIterable(items) => Ran(PushEach(s, items, react, 0).sub, Returns(Nullish))
  }

  /**
   * What the constructor does once the subscriber function has finished: a
   * throw or an unusable return value goes to `observer.error`; a usable one is
   * stored as the cleanup, and run at once if the stream already closed.
   */
  function Settle<T>(s: Subscription<T, Fault>, outcome: Outcome): Subscription<T, Fault> {
    match outcome
    case Throws(e) => ObserverError(s, e)
    case Returns(v) =>
      match NormaliseCleanup(v)
      case Failure(e) => ObserverError(s, e)
      case Success(c) =>
        var stored := if c.Some? then s.(cleanup := c) else s;
        if Closed(stored) then CleanupSubscription(stored) else stored
  }

  /** Calls the `start` hook; the consumer may unsubscribe from inside it. */
  function Start<T>(s: Subscription<T, Fault>, react: Reaction<T>): (r: Subscription<T, Fault>)
    ensures Closed(r) <==> Closed(s) || react.unsubscribeInStart
    ensures s.log + [StartCalled] <= r.log
    ensures DeliveredEvents(r.log) == DeliveredEvents(s.log)
    ensures !Closed(s) ==> r.log == s.log + [StartCalled] + (if Closed(r) then CleanupEntry(s.cleanup) else [])
    ensures CleanupsRun(r.log) == CleanupsRun(s.log) + (if Closed(r) && !Closed(s) then Pending(s.cleanup) else [])
    ensures !Closed(r) ==> r.cleanup == s.cleanup && r.observer == s.observer
    ensures Closed(r) && !Closed(s) ==> r.cleanup.None?
  {
    var started := Record(s, StartCalled);
    if react.unsubscribeInStart then Unsubscribe(started) else started
  }

  /**
   * The Subscription constructor: store the observer, call `start`, stop if
   * that closed the subscription, otherwise call the subscriber function and
   * settle its outcome.
   */
  function NewSubscription<T>(sink: Sink, react: Reaction<T>, subscriber: Subscriber<T>): Subscription<T, Fault> {
    var initial := Subscription(Some(sink), None, []);
    var started := if sink.hasStart then Start(initial, react) else initial;
    if Closed(started) then started
    else
      var ran := RunSubscriber(Record(started, SubscriberCalled), sink, subscriber, react);
      Settle(ran.sub, ran.outcome)
  }

  /** `observable.subscribe(arg)`. */
  function Subscribe<T>(obs: Observable<T>, arg: ObserverArg, react: Reaction<T>): Subscription<T, Fault> {
    NewSubscription(ObserverOf(arg), react, obs.subscriber)
  }

  /** The start hook closed the subscription before the subscriber function could run. */
  predicate StoppedInStart<T>(sink: Sink, react: Reaction<T>) {
    sink.hasStart && react.unsubscribeInStart
  }

  /** The error notification a subscriber's outcome turns into, if any. */
  function OutcomeOps<T>(outcome: Outcome): seq<Op<T, Fault>> {
    match outcome
    case Throws(e) => [Emit(Error(e))]
    case Returns(v) => if NormaliseCleanup(v).Failure? then [Emit(Error(NormaliseCleanup(v).error))] else []
  }

  /** The cleanup a subscriber's outcome installs, if any. */
  function InstalledCleanup(outcome: Outcome): Option<Cleanup> {
    match outcome
    case Throws(_) => None
    case Returns(v) => if NormaliseCleanup(v).Success? then NormaliseCleanup(v).value else None
  }

  /** All the calls a custom subscriber makes on its SubscriptionObserver, with the consumer's reactions. */
  function SubscriberOps<T>(sink: Sink, react: Reaction<T>, calls: seq<Event<T, Fault>>, outcome: Outcome): seq<Op<T, Fault>> {
    WithReactions(sink, react, 0, calls) + OutcomeOps(outcome)
  }


  /** The error event a subscriber's outcome turns into, if any. */
  function OutcomeEvents<T>(outcome: Outcome): seq<Event<T, Fault>> {
    match outcome
    case Throws(e) => [Error(e)]
    case Returns(v) => if NormaliseCleanup(v).Failure? then [Error(NormaliseCleanup(v).error)] else []
  }

  /** The notifications a subscriber function makes if nobody unsubscribes. */
  function RunEvents<T>(subscriber: Subscriber<T>): seq<Event<T, Fault>> {
    match subscriber
    case Custom(calls, _) => calls
    case OfItems(items) => Compose(items, Completed)
    case FromIterable(items) => Compose(items, Completed)
  }

  /** How a subscriber function finishes. */
  function RunOutcome<T>(subscriber: Subscriber<T>): Outcome {
    match subscriber
    case Custom(_, outcome) => outcome
    case OfItems(_) => Returns(Nullish)
    case FromIterable(_) => Returns(Nullish)
  }

  /** The subscription just before the subscriber function is called. */
  function BeforeSubscriber<T>(sink: Sink, react: Reaction<T>): Subscription<T, Fault> {
    var initial := Subscription(Some(sink), None, []);
    var started := if sink.hasStart then Start(initial, react) else initial;
    Record(started, SubscriberCalled)
  }

  /** The subscription just after the subscriber function returned or threw. */
  function AfterSubscriber<T>(sink: Sink, react: Reaction<T>, subscriber: Subscriber<T>): Subscription<T, Fault> {
    RunSubscriber(BeforeSubscriber(sink, react), sink, subscriber, react).sub
  }

  // ---------------------------------------------------------------------------
  // Proofs
  // ---------------------------------------------------------------------------

  /** A push is the `next` call followed by the consumer's unsubscribe, if it reacts. */
  lemma PushIsApplyAll<T>(s: Subscription<T, Fault>, sink: Sink, n: nat, v: T, react: Reaction<T>)
    requires !Closed(s) ==> s.observer == Some(sink)
    ensures Push(s, n, v, react) == ApplyAll(s, Reacted(sink, react, n, Next(v)))
  {
    var s1 := ObserverNext(s, v);
    ApplyOneOrTwo(s, Emit(Next(v)), Cancel);
    assert Apply(s, Emit(Next(v))) == s1;
    var reacts := QuitsOn(sink, react, n, v);
    if Closed(s) {
      assert s1 == s && Push(s, n, v, react) == s;
      assert Unsubscribe(s) == s;
    } else {
      assert s.observer.value == sink;
      assert Push(s, n, v, react) == if reacts then Unsubscribe(s1) else s1;
    }
    if reacts {
      assert Reacted(sink, react, n, Next(v)) == [Emit(Next(v)), Cancel];
    } else {
      assert Reacted(sink, react, n, Next(v)) == [Emit(Next(v))];
    }
  }

  /** Applying one call, or two. */
  lemma ApplyOneOrTwo<T>(s: Subscription<T, Fault>, a: Op<T, Fault>, b: Op<T, Fault>)
    ensures ApplyAll(s, [a]) == Apply(s, a)
    ensures ApplyAll(s, [a, b]) == Apply(Apply(s, a), b)
  {
    assert [a, b][1..] == [b];
    assert ApplyAll(Apply(s, a), [b]) == ApplyAll(Apply(Apply(s, a), b), []);
  }

  /** Prepending a notification to a sequence of reactions. */
  lemma WithReactionsCons<T>(sink: Sink, react: Reaction<T>, n: nat, ev: Event<T, Fault>, evs: seq<Event<T, Fault>>)
    ensures WithReactions(sink, react, n, [ev] + evs)
      == Reacted(sink, react, n, ev) + WithReactions(sink, react, n + NextCount(ev), evs)
  {
    assert ([ev] + evs)[1..] == evs;
  }

  /** WithReactions distributes over concatenation; the second part starts after the first part's values. */
  lemma {:induction false} WithReactionsAppend<T>(sink: Sink, react: Reaction<T>, n: nat, a: seq<Event<T, Fault>>, b: seq<Event<T, Fault>>)
    ensures WithReactions(sink, react, n, a + b)
      == WithReactions(sink, react, n, a) + WithReactions(sink, react, n + |Values(a)|, b)
    decreases |a|
  {
    if a == [] {
      assert a + b == b;
    } else {
      WithReactionsAppend(sink, react, n + NextCount(a[0]), a[1..], b);
      assert (a + b)[1..] == a[1..] + b;
      assert (a + b)[0] == a[0];
      assert |Values(a)| == NextCount(a[0]) + |Values(a[1..])|;
    }
  }

  /**
   * Checking `closed` after each push changes nothing on the subscription: the
   * `of`/`from` loop has the same effect as pushing every item and completing,
   * since every call after the subscription closed is ignored.
   */
  lemma {:induction false} PushEachIsApplyAll<T>(s: Subscription<T, Fault>, sink: Sink, items: seq<T>, react: Reaction<T>, n: nat)
    requires !Closed(s) ==> s.observer == Some(sink)
    ensures PushEach(s, items, react, n).sub == ApplyAll(s, WithReactions(sink, react, n, Compose(items, Completed)))
    decreases |items|
  {
    if items == [] {
      assert Compose<T, Fault>(items, Completed) == [Complete];
      assert WithReactions(sink, react, n, [Complete]) == [Emit(Complete)];
    } else {
      var v := items[0];
      var rest := WithReactions(sink, react, n + 1, Compose(items[1..], Completed));
      assert items == [v] + items[1..];
      PushEachCons(s, v, items[1..], react, n);
      WithReactionsOfValue(sink, react, n, v, items[1..], Completed);
      ApplyAllAppend(s, Reacted(sink, react, n, Next(v)), rest);
      PushIsApplyAll(s, sink, n, v, react);
      var s1 := Push(s, n, v, react);
      if Closed(s1) {
        ClosedIsFinal(s1, rest);
      } else {
        PushEachIsApplyAll(s1, sink, items[1..], react, n + 1);
      }
    }
  }

  /** The `of`/`from` loop, one item at a time. */
  lemma PushEachCons<T>(s: Subscription<T, Fault>, v: T, items: seq<T>, react: Reaction<T>, n: nat)
    ensures var s1 := Push(s, n, v, react);
      PushEach(s, [v] + items, react, n).sub == if Closed(s1) then s1 else PushEach(s1, items, react, n + 1).sub
  {
    assert ([v] + items)[1..] == items;
  }

  /** The reactions to a composed trace, one value at a time. */
  lemma WithReactionsOfValue<T>(sink: Sink, react: Reaction<T>, n: nat, v: T, items: seq<T>, end: Ending<Fault>)
    ensures WithReactions(sink, react, n, Compose([v] + items, end))
      == Reacted(sink, react, n, Next(v)) + WithReactions(sink, react, n + 1, Compose(items, end))
  {
    ComposeCons<T, Fault>(v, items, end);
    WithReactionsCons(sink, react, n, Next(v), Compose(items, end));
  }

  /** The notifications the `of`/`from` loop makes, from `next` call `n` on, before the consumer unsubscribes, if it does. */
  function UntilQuit<T>(sink: Sink, react: Reaction<T>, n: nat, items: seq<T>, end: Ending<Fault>): seq<Event<T, Fault>> {
    var k := QuitIndex(sink, react, n, items);
    if k < |items| then Compose(items[..k + 1], Open) else Compose(items, end)
  }

  /** A value the consumer does not unsubscribe on comes first. */
  lemma UntilQuitCons<T>(sink: Sink, react: Reaction<T>, n: nat, v: T, items: seq<T>, end: Ending<Fault>)
    requires !QuitsOn(sink, react, n, v)
    ensures UntilQuit(sink, react, n, [v] + items, end) == [Next(v)] + UntilQuit(sink, react, n + 1, items, end)
  {
    var xs := [v] + items;
    assert xs[1..] == items;
    var k := QuitIndex(sink, react, n, xs);
    assert k == 1 + QuitIndex(sink, react, n + 1, items);
    ComposeCons<T, Fault>(v, items, end);
    if k < |xs| {
      assert xs[..k + 1] == [v] + items[..k];
      ComposeCons<T, Fault>(v, items[..k], Open);
    }
  }

  /** Emitted notifications, one call at a time. */
  lemma EmittedCons<T>(ev: Event<T, Fault>, rest: seq<Op<T, Fault>>)
    ensures EmittedBeforeCancel([Emit(ev)] + rest) == [ev] + EmittedBeforeCancel(rest)
    ensures EmittedBeforeCancel([Emit(ev), Cancel] + rest) == [ev]
  {
    assert ([Emit(ev)] + rest)[1..] == rest;
    assert ([Emit(ev), Cancel] + rest)[1..] == [Cancel] + rest;
  }

  /** What the `of`/`from` loop emits before the consumer unsubscribes. */
  lemma {:induction false} EmittedUntilQuit<T>(sink: Sink, react: Reaction<T>, n: nat, items: seq<T>, end: Ending<Fault>)
    ensures EmittedBeforeCancel(WithReactions(sink, react, n, Compose(items, end))) == UntilQuit(sink, react, n, items, end)
    decreases |items|
  {
    if items == [] {
      EmittedAtEnd(sink, react, n, end);
    } else {
      var v := items[0];
      var tail := WithReactions(sink, react, n + 1, Compose(items[1..], end));
      assert items == [v] + items[1..];
      WithReactionsOfValue(sink, react, n, v, items[1..], end);
      assert WithReactions(sink, react, n, Compose(items, end)) == Reacted(sink, react, n, Next(v)) + tail;
      if QuitsOn(sink, react, n, v) {
        EmittedQuitHere(sink, react, n, v, items[1..], end, tail);
      } else {
        assert Reacted(sink, react, n, Next(v)) == [Emit(Next(v))];
        EmittedCons(Next(v), tail);
        EmittedUntilQuit(sink, react, n + 1, items[1..], end);
        UntilQuitCons(sink, react, n, v, items[1..], end);
      }
    }
  }

  /** With no values left, the ending is emitted as is. */
  lemma EmittedAtEnd<T>(sink: Sink, react: Reaction<T>, n: nat, end: Ending<Fault>)
    ensures EmittedBeforeCancel(WithReactions(sink, react, n, Compose([], end))) == UntilQuit(sink, react, n, [], end)
  {
    match end
    case Open =>
    case Failed(e) =>
      assert Compose<T, Fault>([], end) == [Error(e)];
      assert WithReactions(sink, react, n, [Error(e)]) == [Emit(Error(e))];
    case Completed =>
      assert Compose<T, Fault>([], end) == [Complete];
      assert WithReactions(sink, react, n, [Complete]) == [Emit(Complete)];
  }

  /** A value the consumer unsubscribes on is the last one emitted. */
  lemma EmittedQuitHere<T>(sink: Sink, react: Reaction<T>, n: nat, v: T, items: seq<T>, end: Ending<Fault>, tail: seq<Op<T, Fault>>)
    requires QuitsOn(sink, react, n, v)
    ensures EmittedBeforeCancel(Reacted(sink, react, n, Next(v)) + tail) == UntilQuit(sink, react, n, [v] + items, end)
  {
    assert Reacted(sink, react, n, Next(v)) == [Emit(Next(v)), Cancel];
    EmittedCons(Next(v), tail);
    var xs := [v] + items;
    assert xs[0] == v;
    assert QuitIndex(sink, react, n, xs) == 0;
    assert xs[..1] == [v];
    assert Compose<T, Fault>([v], Open) == [Next(v)];
  }

  lemma HaltsCons<T>(op: Op<T, Fault>, rest: seq<Op<T, Fault>>)
    ensures Halts([op] + rest) <==> !(op.Emit? && op.event.Next?) || Halts(rest)
  {
    var ops := [op] + rest;
    if Halts(rest) {
      var i :| 0 <= i < |rest| && !(rest[i].Emit? && rest[i].event.Next?);
      assert ops[i + 1] == rest[i];
    }
    if Halts(ops) {
      var i :| 0 <= i < |ops| && !(ops[i].Emit? && ops[i].event.Next?);
      if i > 0 {
        assert rest[i - 1] == ops[i];
      }
    }
    assert ops[0] == op;
  }

  /** A consumer that never unsubscribes from `next` lets every notification through. */
  lemma {:induction false} PassiveEmitsEverything<T>(sink: Sink, react: Reaction<T>, n: nat, evs: seq<Event<T, Fault>>)
    requires forall i: nat, v: T :: !react.unsubscribeOn(i, v)
    ensures EmittedBeforeCancel(WithReactions(sink, react, n, evs)) == evs
    ensures Halts(WithReactions(sink, react, n, evs)) <==> Terminates(evs)
    decreases |evs|
  {
    if evs != [] {
      var m := n + NextCount(evs[0]);
      PassiveEmitsEverything(sink, react, m, evs[1..]);
      var tail := WithReactions(sink, react, m, evs[1..]);
      assert WithReactions(sink, react, n, evs) == [Emit(evs[0])] + tail;
      assert evs == [evs[0]] + evs[1..];
      HaltsCons(Emit(evs[0]), tail);
      TerminatesCons(evs[0], evs[1..]);
    }
  }

  /** The state before the subscriber runs is open, clean and delivers nothing. */
  lemma BeforeSubscriberFacts<T>(sink: Sink, react: Reaction<T>)
    requires !StoppedInStart(sink, react)
    ensures var s := BeforeSubscriber(sink, react);
      && !Closed(s) && s.observer == Some(sink) && s.cleanup.None?
      && Coherent(s) && DeliveredEvents(s.log) == [] && CleanupsRun(s.log) == []
      && SubscriberCalled in s.log
      && s.log == (if sink.hasStart then [StartCalled] else []) + [SubscriberCalled]
  {
    var initial: Subscription<T, Fault> := Subscription(Some(sink), None, []);
    var log: seq<Effect<T, Fault>> := if sink.hasStart then [StartCalled, SubscriberCalled] else [SubscriberCalled];
    if sink.hasStart {
      assert Start(initial, react) == Record(initial, StartCalled);
    }
    assert BeforeSubscriber(sink, react) == Subscription(Some(sink), None, log);
    assert log[|log| - 1] == SubscriberCalled;
  }

  /** Running the subscriber function is applying its notifications, with the consumer's reactions. */
  lemma AfterSubscriberIsApplyAll<T>(sink: Sink, react: Reaction<T>, subscriber: Subscriber<T>)
    requires !StoppedInStart(sink, react)
    ensures AfterSubscriber(sink, react, subscriber)
      == ApplyAll(BeforeSubscriber(sink, react), WithReactions(sink, react, 0, RunEvents(subscriber)))
  {
    var s := BeforeSubscriber(sink, react);
    if !subscriber.Custom? {
      BeforeSubscriberFacts(sink, react);
      var items := subscriber.items;
      assert RunEvents(subscriber) == Compose(items, Completed);
      assert AfterSubscriber(sink, react, subscriber) == PushEach(s, items, react, 0).sub;
      PushEachIsApplyAll(s, sink, items, react, 0);
    }
  }

  /** The constructor, once `start` has let the subscriber run, settles the subscriber's outcome. */
  lemma NewSubscriptionUnfolds<T>(sink: Sink, react: Reaction<T>, subscriber: Subscriber<T>)
    requires !StoppedInStart(sink, react)
    ensures NewSubscription(sink, react, subscriber)
      == Settle(AfterSubscriber(sink, react, subscriber), RunOutcome(subscriber))
  {
    var initial: Subscription<T, Fault> := Subscription(Some(sink), None, []);
    var started := if sink.hasStart then Start(initial, react) else initial;
    assert !Closed(started);
  }

  /**
   * The constructor's order: `start` (when the sink has it) is called first, then
   * the subscriber function, and every notification is delivered after both.
   */
  lemma StartThenSubscriberThenDeliveries<T>(sink: Sink, react: Reaction<T>, subscriber: Subscriber<T>)
    requires !StoppedInStart(sink, react)
    ensures var r := NewSubscription(sink, react, subscriber);
      (if sink.hasStart then [StartCalled] else []) + [SubscriberCalled] <= r.log
  {
    BeforeSubscriberFacts(sink, react);
    AfterSubscriberFacts(sink, react, subscriber);
    var s := BeforeSubscriber(sink, react);
    var x := AfterSubscriber(sink, react, subscriber);
    LogOnlyGrows(s, WithReactions(sink, react, 0, RunEvents(subscriber)));
    SettleEffect(x, RunOutcome(subscriber));
  }

  /**
   * The subscriber's run, as calls on the subscription, leaves it coherent,
   * without a cleanup, and with the record of the call still in the log.
   */
  lemma AfterSubscriberFacts<T>(sink: Sink, react: Reaction<T>, subscriber: Subscriber<T>)
    requires !StoppedInStart(sink, react)
    ensures var s := BeforeSubscriber(sink, react);
      var ops := WithReactions(sink, react, 0, RunEvents(subscriber));
      var x := AfterSubscriber(sink, react, subscriber);
      && x == ApplyAll(s, ops)
      && Coherent(x) && x.cleanup.None? && CleanupsRun(x.log) == []
      && SubscriberCalled in x.log
      && NewSubscription(sink, react, subscriber) == Settle(x, RunOutcome(subscriber))
  {
    BeforeSubscriberFacts(sink, react);
    AfterSubscriberIsApplyAll(sink, react, subscriber);
    NewSubscriptionUnfolds(sink, react, subscriber);
    RunKeepsSubscriberState(BeforeSubscriber(sink, react), WithReactions(sink, react, 0, RunEvents(subscriber)));
  }

  /**
   * Calls made on a coherent subscription without a cleanup keep it coherent and
   * without a cleanup, run none, and keep the record of the subscriber call.
   */
  lemma RunKeepsSubscriberState<T>(s: Subscription<T, Fault>, ops: seq<Op<T, Fault>>)
    requires Coherent(s) && s.cleanup.None? && CleanupsRun(s.log) == [] && SubscriberCalled in s.log
    ensures var x := ApplyAll(s, ops);
      Coherent(x) && x.cleanup.None? && CleanupsRun(x.log) == [] && SubscriberCalled in x.log
  {
    ApplyAllKeepsCoherent(s, ops);
    NoCleanupStaysNone(s, ops);
    LogOnlyGrows(s, ops);
    var x := ApplyAll(s, ops);
    var i :| 0 <= i < |s.log| && s.log[i] == SubscriberCalled;
    assert x.log[i] == SubscriberCalled;
  }

  /** Settling an outcome is the error call it stands for, plus storing or running its cleanup. */
  lemma SettleEffect<T>(s: Subscription<T, Fault>, outcome: Outcome)
    requires Coherent(s) && s.cleanup.None? && CleanupsRun(s.log) == []
    ensures var r := Settle(s, outcome); var a := ApplyAll(s, OutcomeOps(outcome));
      && Coherent(r)
      && Closed(r) == Closed(a)
      && DeliveredEvents(r.log) == DeliveredEvents(a.log)
      && s.log <= r.log
      && (Closed(r) ==> r.cleanup.None? && CleanupsRun(r.log) == Pending(InstalledCleanup(outcome)))
      && (!Closed(r) ==> r.cleanup == InstalledCleanup(outcome) && CleanupsRun(r.log) == [])
  {
    var ops := OutcomeOps<T>(outcome);
    ApplyAllKeepsCoherent(s, ops);
    NoCleanupStaysNone(s, ops);
    match outcome
    case Throws(e) =>
      assert ApplyAll(s, ops) == ObserverError(s, e);
    case Returns(v) =>
      match NormaliseCleanup(v)
      case Failure(e) =>
        assert ApplyAll(s, ops) == ObserverError(s, e);
      case Success(c) =>
        assert ops == [];
        if c.Some? && Closed(s) {
          var stored := s.(cleanup := c);
          NonDeliveryKeepsCleanupLast(stored.log, CleanupRan(c.value));
        }
  }

  /** The subscription `subscribe` returns satisfies the lifecycle invariant. */
  lemma NewSubscriptionIsCoherent<T>(sink: Sink, react: Reaction<T>, subscriber: Subscriber<T>)
    ensures Coherent(NewSubscription(sink, react, subscriber))
  {
    if StoppedInStart(sink, react) {
      var initial: Subscription<T, Fault> := Subscription(Some(sink), None, []);
      RecordingKeepsCoherent(initial, StartCalled);
    } else {
      AfterSubscriberFacts(sink, react, subscriber);
      SettleEffect(AfterSubscriber(sink, react, subscriber), RunOutcome(subscriber));
    }
  }

  /**
   * If the `start` hook unsubscribes, the subscriber function is never called,
   * no cleanup is installed and nothing is delivered; otherwise it is called.
   */
  lemma StartUnsubscribeSkipsSubscriber<T>(sink: Sink, react: Reaction<T>, subscriber: Subscriber<T>)
    ensures var r := NewSubscription(sink, react, subscriber);
      SubscriberCalled in r.log <==> !StoppedInStart(sink, react)
    ensures var r := NewSubscription(sink, react, subscriber);
      StoppedInStart(sink, react) ==> Closed(r) && r.log == [StartCalled] && r.cleanup.None?
  {
    if !StoppedInStart(sink, react) {
      AfterSubscriberFacts(sink, react, subscriber);
      var x := AfterSubscriber(sink, react, subscriber);
      SettleEffect(x, RunOutcome(subscriber));
      var r := NewSubscription(sink, react, subscriber);
      var i :| 0 <= i < |x.log| && x.log[i] == SubscriberCalled;
      assert r.log[i] == SubscriberCalled;
    }
  }

  /**
   * Subscribing to a custom subscriber function: the sink receives, through the
   * closed gate, the notifications the function makes, followed by an `error`
   * carrying what it threw or the TypeError for an unusable return value; nothing
   * escapes `subscribe`. The subscription ends closed exactly when one of these
   * calls (or the consumer) closed it, and a usable cleanup is either stored
   * (still open) or has already run once (closed).
   */
  lemma SubscribeCustom<T>(sink: Sink, react: Reaction<T>, calls: seq<Event<T, Fault>>, outcome: Outcome)
    requires !StoppedInStart(sink, react)
    ensures var r := NewSubscription(sink, react, Custom(calls, outcome));
      var ops := SubscriberOps(sink, react, calls, outcome);
      && DeliveredEvents(r.log) == Received(sink, Gate(EmittedBeforeCancel(ops)))
      && (Closed(r) <==> Halts(ops))
      && (Closed(r) ==> r.cleanup.None? && CleanupsRun(r.log) == Pending(InstalledCleanup(outcome)))
      && (!Closed(r) ==> r.cleanup == InstalledCleanup(outcome) && CleanupsRun(r.log) == [])
  {
    var subscriber := Custom(calls, outcome);
    BeforeSubscriberFacts(sink, react);
    AfterSubscriberFacts(sink, react, subscriber);
    var s := BeforeSubscriber(sink, react);
    var first := WithReactions(sink, react, 0, calls);
    var second := OutcomeOps<T>(outcome);
    var x := AfterSubscriber(sink, react, subscriber);
    SettleEffect(x, outcome);
    ApplyAllAppend(s, first, second);
    DeliveryFollowsGate(s, first + second);
    ClosedExactlyWhenHalted(s, first + second);
  }

  /**
   * Subscribing a consumer that never unsubscribes: it receives the subscriber's
   * notifications and then the error for a throw or a bad return value, cut by the
   * closed gate, and the subscription is closed exactly when one of them is terminal.
   */
  lemma SubscribeCustomPassive<T>(sink: Sink, react: Reaction<T>, calls: seq<Event<T, Fault>>, outcome: Outcome)
    requires !StoppedInStart(sink, react)
    requires forall i: nat, v: T :: !react.unsubscribeOn(i, v)
    ensures var r := NewSubscription(sink, react, Custom(calls, outcome));
      var evs := calls + OutcomeEvents(outcome);
      && DeliveredEvents(r.log) == Received(sink, Gate(evs))
      && (Closed(r) <==> Terminates(evs))
  {
    var evs := calls + OutcomeEvents(outcome);
    SubscribeCustom(sink, react, calls, outcome);
    SubscriberOpsArePassive(sink, react, calls, outcome);
    PassiveEmitsEverything(sink, react, 0, evs);
  }

  /** For a consumer that never unsubscribes, the subscriber's ops are its events as ops. */
  lemma SubscriberOpsArePassive<T>(sink: Sink, react: Reaction<T>, calls: seq<Event<T, Fault>>, outcome: Outcome)
    ensures SubscriberOps(sink, react, calls, outcome) == WithReactions(sink, react, 0, calls + OutcomeEvents(outcome))
  {
    var m := |Values(calls)|;
    WithReactionsAppend(sink, react, 0, calls, OutcomeEvents(outcome));
    assert WithReactions(sink, react, m, OutcomeEvents(outcome)) == OutcomeOps(outcome);
  }

  /**
   * Subscribing to `Observable.of(items)` or to `Observable.from(items)`: the sink
   * receives the items in order and then `complete`, unless the consumer
   * unsubscribes on some value, in which case delivery stops right after that
   * value and no `complete` follows. No cleanup is involved.
   */
  lemma SubscribeFinite<T>(sink: Sink, react: Reaction<T>, subscriber: Subscriber<T>)
    requires subscriber.OfItems? || subscriber.FromIterable?
    requires !StoppedInStart(sink, react)
    ensures var r := NewSubscription(sink, react, subscriber);
      var items := subscriber.items;
      var k := QuitIndex(sink, react, 0, items);
      && DeliveredEvents(r.log) == Received(sink, if k < |items| then Compose(items[..k + 1], Open) else Compose(items, Completed))
      && Closed(r)
      && CleanupsRun(r.log) == []
  {
    var x := AfterSubscriber(sink, react, subscriber);
    FiniteRunDelivers(sink, react, subscriber);
    AfterSubscriberFacts(sink, react, subscriber);
    assert Settle(x, Returns(Nullish)) == x;
  }

  /** What the `of`/`from` loop leaves behind: the expected deliveries, a closed subscription. */
  lemma FiniteRunDelivers<T>(sink: Sink, react: Reaction<T>, subscriber: Subscriber<T>)
    requires subscriber.OfItems? || subscriber.FromIterable?
    requires !StoppedInStart(sink, react)
    ensures var x := AfterSubscriber(sink, react, subscriber);
      var items := subscriber.items;
      var k := QuitIndex(sink, react, 0, items);
      && DeliveredEvents(x.log) == Received(sink, if k < |items| then Compose(items[..k + 1], Open) else Compose(items, Completed))
      && Closed(x)
  {
    var items := subscriber.items;
    var s := BeforeSubscriber(sink, react);
    var x := AfterSubscriber(sink, react, subscriber);
    var ops := WithReactions(sink, react, 0, Compose(items, Completed));
    FiniteRunIsApplyAll(sink, react, subscriber);
    BeforeSubscriberFacts(sink, react);
    DeliveryFollowsGate(s, ops);
    FiniteEmissionIsGated(sink, react, items);
    assert DeliveredEvents(x.log) == [] + Received(sink, UntilQuit(sink, react, 0, items, Completed));
  }

  /** The `of`/`from` loop as calls on the subscription; it always ends closed. */
  lemma FiniteRunIsApplyAll<T>(sink: Sink, react: Reaction<T>, subscriber: Subscriber<T>)
    requires subscriber.OfItems? || subscriber.FromIterable?
    requires !StoppedInStart(sink, react)
    ensures var x := AfterSubscriber(sink, react, subscriber);
      && x == ApplyAll(BeforeSubscriber(sink, react), WithReactions(sink, react, 0, Compose(subscriber.items, Completed)))
      && Closed(x)
  {
    assert RunEvents(subscriber) == Compose(subscriber.items, Completed);
    AfterSubscriberIsApplyAll(sink, react, subscriber);
  }

  /** What the `of`/`from` loop emits already passes the closed gate unchanged. */
  lemma FiniteEmissionIsGated<T>(sink: Sink, react: Reaction<T>, items: seq<T>)
    ensures Gate(EmittedBeforeCancel(WithReactions(sink, react, 0, Compose(items, Completed))))
        == UntilQuit(sink, react, 0, items, Completed)
  {
    EmittedUntilQuit(sink, react, 0, items, Completed);
    var k := QuitIndex(sink, react, 0, items);
    var vs := if k < |items| then items[..k + 1] else items;
    var end: Ending<Fault> := if k < |items| then Open else Completed;
    ComposeRoundTrip<T, Fault>(vs, end);
    GateFixesExactlyWellFormed(Compose<T, Fault>(vs, end));
  }

  /**
   * The `of`/`from` loop pulls items up to and including the one on which the
   * consumer unsubscribes and then returns early (closing the iterator in
   * `from`); if the consumer never unsubscribes it pulls all items.
   */
  lemma {:induction false} PushEachStopsAtQuit<T>(s: Subscription<T, Fault>, sink: Sink, items: seq<T>, react: Reaction<T>, n: nat)
    requires !Closed(s) && s.observer == Some(sink)
    ensures var r := PushEach(s, items, react, n); var k := QuitIndex(sink, react, n, items);
      && (r.stoppedEarly <==> k < |items|)
      && r.pulled == (if k < |items| then k + 1 else |items|)
    decreases |items|
  {
    if items != [] {
      var v := items[0];
      var s1 := Push(s, n, v, react);
      if !Closed(s1) {
        assert !QuitsOn(sink, react, n, v);
        PushEachStopsAtQuit(s1, sink, items[1..], react, n + 1);
        assert items == [v] + items[1..];
      }
    }
  }

  /** A consumer given `null` or a non-object non-function receives nothing, whatever the subscriber does. */
  lemma NonObjectObserverReceivesNothing<T>(obs: Observable<T>, arg: ObserverArg, react: Reaction<T>)
    requires arg.NullArg? || arg.PrimitiveArg?
    ensures DeliveredEvents(Subscribe(obs, arg, react).log) == []
  {
    var sink := ObserverOf(arg);
    var subscriber := obs.subscriber;
    BeforeSubscriberFacts(sink, react);
    AfterSubscriberFacts(sink, react, subscriber);
    var s := BeforeSubscriber(sink, react);
    var ops := WithReactions(sink, react, 0, RunEvents(subscriber));
    var second := OutcomeOps<T>(RunOutcome(subscriber));
    ApplyAllAppend(s, ops, second);
    DeliveryFollowsGate(s, ops + second);
    HandlerlessSinkReceivesNothing(sink, Gate(EmittedBeforeCancel(ops + second)));
    SettleEffect(AfterSubscriber(sink, react, subscriber), RunOutcome(subscriber));
  }

  /** A consumer with every handler that unsubscribes during its second `next` call. */
  function QuitOnSecond(): Reaction<int> {
    Reaction(false, (i: nat, v: int) => i == 1)
  }

  /**
   * `Observable.of(1, 1, 1)` to a consumer that unsubscribes on the second value:
   * it receives two equal values and no `complete`, and the loop returns early.
   */
  lemma QuitsOnSecondOfEqualValues()
    ensures var r := Subscribe(Of([1, 1, 1]), ObjectArg(Sink(false, true, true, true)), QuitOnSecond());
      DeliveredEvents(r.log) == [Next(1), Next(1)] && Closed(r)
  {
    var items := [1, 1, 1];
    QuitOnSecondDelivers(Sink(false, true, true, true), items);
    var got: seq<Event<int, Fault>> := [Next(items[0]), Next(items[1])];
    assert got == [Next(1), Next(1)];
  }

  /** Over `of` with at least two items, that consumer receives the first two and then nothing. */
  lemma QuitOnSecondDelivers(sink: Sink, items: seq<int>)
    requires sink == Sink(false, true, true, true) && |items| >= 2
    ensures var r := Subscribe(Of(items), ObjectArg(sink), QuitOnSecond());
      DeliveredEvents(r.log) == [Next(items[0]), Next(items[1])] && Closed(r)
  {
    var r := NewSubscription(sink, QuitOnSecond(), OfItems(items));
    assert Subscribe(Of(items), ObjectArg(sink), QuitOnSecond()) == r;
    SubscribeFinite(sink, QuitOnSecond(), OfItems(items));
    SecondQuitIndex(sink, items);
    var got: seq<Event<int, Fault>> := [Next(items[0]), Next(items[1])];
    assert items[..2] == [items[0], items[1]];
    assert Compose<int, Fault>(items[..2], Open) == got;
    FullSinkReceivesAll(sink, got);
  }

  /** The consumer that unsubscribes on the second call quits at position 1 of any longer sequence. */
  lemma SecondQuitIndex(sink: Sink, items: seq<int>)
    requires sink.hasNext && |items| >= 2
    ensures QuitIndex(sink, QuitOnSecond(), 0, items) == 1
  {
    assert QuitsOn(sink, QuitOnSecond(), 1, items[1..][0]);
  }
}
