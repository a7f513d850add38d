/**
 * The Subscription lifecycle and the SubscriptionObserver that guards it.
 *
 * A subscription holds the consumer's observer and an optional cleanup action.
 * It is closed exactly when the observer reference is gone; nothing ever puts
 * it back. The cleanup is cleared before it is called, so it runs at most once.
 * Every effect visible to the outside (a handler invoked, a cleanup run) is
 * appended to the subscription's log.
 */
module Subscriptions {
  import opened Wrappers
  import opened Trace

  /**
   * The handlers an observer object offers. A handler that is missing, `null`,
   * or not callable counts as absent: the lookup then either yields nothing or
   * throws a TypeError that the caller swallows, and both amount to "do nothing".
   */
  datatype Sink = Sink(hasStart: bool, hasNext: bool, hasError: bool, hasComplete: bool)

  /**
   * A cleanup action: a function the subscriber returned, or the `unsubscribe`
   * method of a subscription-like object it returned, wrapped in a thunk.
   * The numbers identify the returned JavaScript values.
   */
  datatype Cleanup = CallFunction(fn: nat) | CallUnsubscribe(target: nat)

  /** What a subscription does that the outside world can observe. */
  datatype Effect<T, E> =
    | StartCalled
    | SubscriberCalled
    | Delivered(event: Event<T, E>)
    | CleanupRan(action: Cleanup)

  /** `observer` mirrors `_observer` (None is `undefined`), `cleanup` mirrors `_cleanup`. */
  datatype Subscription<T, E> = Subscription(observer: Option<Sink>, cleanup: Option<Cleanup>, log: seq<Effect<T, E>>)

  /** The `closed` getter of both Subscription and SubscriptionObserver. */
  predicate Closed<T, E>(s: Subscription<T, E>) {
    s.observer.None?
  }

  /** Whether the sink has a handler for this kind of event. */
  predicate Handles<T, E>(sink: Sink, ev: Event<T, E>) {
    match ev
    case Next(_) => sink.hasNext
    case Error(_) => sink.hasError
    case Complete => sink.hasComplete
  }

  /** The events of `t` that reach a sink with the given handlers. */
  function Received<T, E>(sink: Sink, t: seq<Event<T, E>>): (d: seq<Event<T, E>>)
    ensures |d| <= |t|
  {
    if t == [] then []
    else (if Handles(sink, t[0]) then [t[0]] else []) + Received(sink, t[1..])
  }

  /** The events the sink's handlers were called with, in order. */
  function DeliveredEvents<T, E>(log: seq<Effect<T, E>>): seq<Event<T, E>> {
    if log == [] then []
    else
      var last := log[|log| - 1];
      DeliveredEvents(log[..|log| - 1]) + (if last.Delivered? then [last.event] else [])
  }

  /** The cleanup actions that were run, in order. */
  function CleanupsRun<T, E>(log: seq<Effect<T, E>>): seq<Cleanup> {
    if log == [] then []
    else
      var last := log[|log| - 1];
      CleanupsRun(log[..|log| - 1]) + (if last.CleanupRan? then [last.action] else [])
  }

  /** Appending one effect to a log. */
  lemma LogAppend<T, E>(log: seq<Effect<T, E>>, x: Effect<T, E>)
    ensures DeliveredEvents(log + [x]) == DeliveredEvents(log) + (if x.Delivered? then [x.event] else [])
    ensures CleanupsRun(log + [x]) == CleanupsRun(log) + (if x.CleanupRan? then [x.action] else [])
  {
    assert (log + [x])[..|log|] == log;
  }

  /** The cleanup actions stored in an optional slot. */
  function Pending(c: Option<Cleanup>): seq<Cleanup> {
    if c.Some? then [c.value] else []
  }

  /** The log entry for running the cleanup in a slot, if one is stored. */
  function CleanupEntry<T, E>(c: Option<Cleanup>): seq<Effect<T, E>> {
    if c.Some? then [CleanupRan(c.value)] else []
  }

  /** The log entry for a notification, if the sink has a handler for it. */
  function DeliveryEntry<T, E>(sink: Sink, ev: Event<T, E>): seq<Effect<T, E>> {
    if Handles(sink, ev) then [Delivered(ev)] else []
  }

  /** Appends an effect to the log. */
  function Record<T, E>(s: Subscription<T, E>, x: Effect<T, E>): (r: Subscription<T, E>)
    ensures r.observer == s.observer && r.cleanup == s.cleanup
    ensures r.log == s.log + [x]
    ensures DeliveredEvents(r.log) == DeliveredEvents(s.log) + (if x.Delivered? then [x.event] else [])
    ensures CleanupsRun(r.log) == CleanupsRun(s.log) + (if x.CleanupRan? then [x.action] else [])
  {
    LogAppend(s.log, x);
    s.(log := s.log + [x])
  }

  /**
   * `cleanupSubscription`: if a cleanup is stored, clear the slot first and then
   * run it; the action's own exceptions are swallowed.
   */
  function CleanupSubscription<T, E>(s: Subscription<T, E>): (r: Subscription<T, E>)
    ensures r.observer == s.observer && r.cleanup.None?
    ensures r.log == s.log + CleanupEntry(s.cleanup)
    ensures DeliveredEvents(r.log) == DeliveredEvents(s.log)
    ensures CleanupsRun(r.log) == CleanupsRun(s.log) + Pending(s.cleanup)
  {
    match s.cleanup
    case None => s
    case Some(c) => Record(s.(cleanup := None), CleanupRan(c))
  }

  /** `unsubscribe` (`closeSubscription`): close an open subscription and run its cleanup. */
  function Unsubscribe<T, E>(s: Subscription<T, E>): (r: Subscription<T, E>)
    ensures Closed(r)
    ensures Closed(s) ==> r == s
    ensures !Closed(s) ==> r.log == s.log + CleanupEntry(s.cleanup)
    ensures s.log <= r.log
    ensures DeliveredEvents(r.log) == DeliveredEvents(s.log)
    ensures !Closed(s) ==> r.cleanup.None? && CleanupsRun(r.log) == CleanupsRun(s.log) + Pending(s.cleanup)
  {
    if Closed(s) then s
    else CleanupSubscription(s.(observer := None))
  }

  /** SubscriptionObserver `next`: forward the value to an open sink's `next` handler. */
  function ObserverNext<T, E>(s: Subscription<T, E>, v: T): (r: Subscription<T, E>)
    ensures r.observer == s.observer && r.cleanup == s.cleanup
    ensures Closed(s) ==> r == s
    ensures !Closed(s) ==> r.log == s.log + DeliveryEntry(s.observer.value, Next(v))
    ensures s.log <= r.log
    ensures DeliveredEvents(r.log) == DeliveredEvents(s.log) + (if Closed(s) then [] else Received(s.observer.value, [Next(v)]))
    ensures CleanupsRun(r.log) == CleanupsRun(s.log)
  {
    if Closed(s) || !s.observer.value.hasNext then s
    else Record(s, Delivered(Next(v)))
  }

  /**
   * The state in which the sink's `error` or `complete` handler runs: the
   * observer reference is already cleared, the cleanup has not run yet.
   */
  function Handoff<T, E>(s: Subscription<T, E>, ev: Event<T, E>): (m: Subscription<T, E>)
    requires !Closed(s) && !ev.Next?
    ensures Closed(m) && m.cleanup == s.cleanup
    ensures m.log == s.log + DeliveryEntry(s.observer.value, ev)
    ensures DeliveredEvents(m.log) == DeliveredEvents(s.log) + Received(s.observer.value, [ev])
    ensures CleanupsRun(m.log) == CleanupsRun(s.log)
  {
    var detached := s.(observer := None);
    if Handles(s.observer.value, ev) then Record(detached, Delivered(ev)) else detached
  }

  /** SubscriptionObserver `error`: close, forward to the `error` handler if any, then clean up. */
  function ObserverError<T, E>(s: Subscription<T, E>, e: E): (r: Subscription<T, E>)
    ensures Closed(r)
    ensures Closed(s) ==> r == s
    ensures !Closed(s) ==> r.log == s.log + DeliveryEntry(s.observer.value, Error(e)) + CleanupEntry(s.cleanup)
    ensures s.log <= r.log
    ensures !Closed(s) ==> DeliveredEvents(r.log) == DeliveredEvents(s.log) + Received(s.observer.value, [Error(e)])
    ensures !Closed(s) ==> r.cleanup.None? && CleanupsRun(r.log) == CleanupsRun(s.log) + Pending(s.cleanup)
  {
    if Closed(s) then s
    else CleanupSubscription(Handoff(s, Error(e)))
  }

  /** SubscriptionObserver `complete`: close, forward to the `complete` handler if any, then clean up. */
  function ObserverComplete<T, E>(s: Subscription<T, E>): (r: Subscription<T, E>)
    ensures Closed(r)
    ensures Closed(s) ==> r == s
    ensures !Closed(s) ==> r.log == s.log + DeliveryEntry(s.observer.value, Complete) + CleanupEntry(s.cleanup)
    ensures s.log <= r.log
    ensures !Closed(s) ==> DeliveredEvents(r.log) == DeliveredEvents(s.log) + Received(s.observer.value, [Complete])
    ensures !Closed(s) ==> r.cleanup.None? && CleanupsRun(r.log) == CleanupsRun(s.log) + Pending(s.cleanup)
  {
    if Closed(s) then s
    else CleanupSubscription(Handoff(s, Complete))
  }

  /** One call made on a live subscription: a notification through the observer, or `unsubscribe`. */
  datatype Op<T, E> = Emit(event: Event<T, E>) | Cancel

  function Apply<T, E>(s: Subscription<T, E>, op: Op<T, E>): Subscription<T, E> {
    match op
    case Cancel => Unsubscribe(s)
    case Emit(Next(v)) => ObserverNext(s, v)
    case Emit(Error(e)) => ObserverError(s, e)
    case Emit(Complete) => ObserverComplete(s)
  }

  /** The calls applied one after another. */
  function ApplyAll<T, E>(s: Subscription<T, E>, ops: seq<Op<T, E>>): Subscription<T, E>
    decreases |ops|
  {
    if ops == [] then s else ApplyAll(Apply(s, ops[0]), ops[1..])
  }

  /** The notifications emitted before the first `unsubscribe`. */
  function EmittedBeforeCancel<T, E>(ops: seq<Op<T, E>>): seq<Event<T, E>> {
    if ops == [] || ops[0].Cancel? then [] else [ops[0].event] + EmittedBeforeCancel(ops[1..])
  }

  /** Some call closes the subscription: an `unsubscribe`, an `error` or a `complete`. */
  predicate Halts<T, E>(ops: seq<Op<T, E>>) {
    exists i | 0 <= i < |ops| :: !(ops[i].Emit? && ops[i].event.Next?)
  }

  /** No delivery is recorded after a cleanup has run. */
  ghost predicate CleanupIsLast<T, E>(log: seq<Effect<T, E>>) {
    forall i, j | 0 <= i < j < |log| && log[i].CleanupRan? :: !log[j].Delivered?
  }

  /**
   * The lifecycle invariant: a closed subscription holds no cleanup; a stored
   * cleanup has not run yet; at most one cleanup ever runs, and only once the
   * subscription is closed; the sink sees a well-formed trace, is closed once
   * that trace has ended, and sees nothing after the cleanup.
   */
  ghost predicate Coherent<T, E>(s: Subscription<T, E>) {
    && (Closed(s) ==> s.cleanup.None?)
    && (s.cleanup.Some? ==> CleanupsRun(s.log) == [])
    && |CleanupsRun(s.log)| <= 1
    && (CleanupsRun(s.log) != [] ==> Closed(s))
    && WellFormed(DeliveredEvents(s.log))
    && (!EndOf(DeliveredEvents(s.log)).Open? ==> Closed(s))
    && CleanupIsLast(s.log)
  }

  /** A log in which no cleanup ran has no `CleanupRan` entry. */
  lemma {:induction false} NoCleanupEntries<T, E>(log: seq<Effect<T, E>>)
    requires CleanupsRun(log) == []
    ensures forall i | 0 <= i < |log| :: !log[i].CleanupRan?
  {
    if log != [] {
      var init := log[..|log| - 1];
      NoCleanupEntries(init);
      assert log == init + [log[|log| - 1]];
    }
  }

  /** Appending a delivery while no cleanup has run keeps cleanups last. */
  lemma DeliveryKeepsCleanupLast<T, E>(log: seq<Effect<T, E>>, x: Effect<T, E>)
    requires CleanupIsLast(log) && CleanupsRun(log) == []
    ensures CleanupIsLast(log + [x])
  {
    NoCleanupEntries(log);
  }

  /** Appending anything but a delivery keeps cleanups last. */
  lemma NonDeliveryKeepsCleanupLast<T, E>(log: seq<Effect<T, E>>, x: Effect<T, E>)
    requires CleanupIsLast(log) && !x.Delivered?
    ensures CleanupIsLast(log + [x])
  {
  }

  /** Appending a `Next` to a trace that has not ended keeps it well formed and open. */
  lemma AppendNextToOpen<T, E>(t: seq<Event<T, E>>, v: T)
    requires WellFormed(t) && EndOf(t).Open?
    ensures WellFormed(t + [Next(v)]) && EndOf(t + [Next(v)]).Open?
  {
    if t != [] {
      assert t[|t| - 1].Next?;
    }
  }

  /** Appending a terminal event to a trace that has not ended keeps it well formed. */
  lemma AppendTerminalToOpen<T, E>(t: seq<Event<T, E>>, ev: Event<T, E>)
    requires WellFormed(t) && EndOf(t).Open?
    ensures WellFormed(t + [ev])
  {
    if t != [] {
      assert t[|t| - 1].Next?;
    }
  }

  /** `next` keeps the lifecycle invariant. */
  lemma NextKeepsCoherent<T, E>(s: Subscription<T, E>, v: T)
    requires Coherent(s)
    ensures Coherent(ObserverNext(s, v))
  {
    if !Closed(s) && s.observer.value.hasNext {
      AppendNextToOpen(DeliveredEvents(s.log), v);
      DeliveryKeepsCleanupLast(s.log, Delivered(Next(v)));
    }
  }

  /** Closing through a terminal notification keeps the lifecycle invariant. */
  lemma TerminalKeepsCoherent<T, E>(s: Subscription<T, E>, ev: Event<T, E>)
    requires Coherent(s) && !Closed(s) && !ev.Next?
    ensures Coherent(CleanupSubscription(Handoff(s, ev)))
  {
    var m := Handoff(s, ev);
    if Handles(s.observer.value, ev) {
      AppendTerminalToOpen(DeliveredEvents(s.log), ev);
      DeliveryKeepsCleanupLast(s.log, Delivered(ev));
    }
    assert CleanupIsLast(m.log);
    if m.cleanup.Some? {
      NonDeliveryKeepsCleanupLast(m.log, CleanupRan(m.cleanup.value));
    }
  }

  /** Every call keeps the lifecycle invariant. */
  lemma ApplyKeepsCoherent<T, E>(s: Subscription<T, E>, op: Op<T, E>)
    requires Coherent(s)
    ensures Coherent(Apply(s, op))
  {
    if !Closed(s) {
      match op
      case Cancel =>
        if s.cleanup.Some? {
          NonDeliveryKeepsCleanupLast(s.log, CleanupRan(s.cleanup.value));
        }
      case Emit(Next(v)) => NextKeepsCoherent(s, v);
      case Emit(Error(e)) => TerminalKeepsCoherent(s, Error(e));
      case Emit(Complete) => TerminalKeepsCoherent(s, Complete);
    }
  }

  /** The lifecycle invariant holds across any interleaving of calls. */
  lemma {:induction false} ApplyAllKeepsCoherent<T, E>(s: Subscription<T, E>, ops: seq<Op<T, E>>)
    requires Coherent(s)
    ensures Coherent(ApplyAll(s, ops))
    decreases |ops|
  {
    if ops != [] {
      ApplyKeepsCoherent(s, ops[0]);
      ApplyAllKeepsCoherent(Apply(s, ops[0]), ops[1..]);
    }
  }

  /** Recording a call to `start` or to the subscriber keeps the lifecycle invariant. */
  lemma RecordingKeepsCoherent<T, E>(s: Subscription<T, E>, x: Effect<T, E>)
    requires Coherent(s) && !x.Delivered? && !x.CleanupRan?
    ensures Coherent(Record(s, x))
  {
    NonDeliveryKeepsCleanupLast(s.log, x);
  }

  /** Running calls one batch after another is running them all. */
  lemma {:induction false} ApplyAllAppend<T, E>(s: Subscription<T, E>, a: seq<Op<T, E>>, b: seq<Op<T, E>>)
    ensures ApplyAll(s, a + b) == ApplyAll(ApplyAll(s, a), b)
    decreases |a|
  {
    if a == [] {
      assert a + b == b;
    } else {
      assert (a + b)[1..] == a[1..] + b;
      ApplyAllAppend(Apply(s, a[0]), a[1..], b);
    }
  }

  /** Without a stored cleanup, no call can run one. */
  lemma {:induction false} NoCleanupStaysNone<T, E>(s: Subscription<T, E>, ops: seq<Op<T, E>>)
    requires s.cleanup.None?
    ensures ApplyAll(s, ops).cleanup.None?
    ensures CleanupsRun(ApplyAll(s, ops).log) == CleanupsRun(s.log)
    decreases |ops|
  {
    if ops != [] {
      NoCleanupStaysNone(Apply(s, ops[0]), ops[1..]);
    }
  }

  /** Once closed, a subscription ignores every further call: it stays closed and nothing changes. */
  lemma {:induction false} ClosedIsFinal<T, E>(s: Subscription<T, E>, ops: seq<Op<T, E>>)
    requires Closed(s)
    ensures ApplyAll(s, ops) == s
  {
    if ops != [] {
      assert Apply(s, ops[0]) == s;
      ClosedIsFinal(s, ops[1..]);
    }
  }

  /** The log only grows: calls never undo an observable effect. */
  lemma {:induction false} LogOnlyGrows<T, E>(s: Subscription<T, E>, ops: seq<Op<T, E>>)
    ensures s.log <= ApplyAll(s, ops).log
    decreases |ops|
  {
    if ops != [] {
      LogOnlyGrows(Apply(s, ops[0]), ops[1..]);
    }
  }

  /** One notification on an open subscription: what it delivers, and whether it closes. */
  lemma EmitStep<T, E>(s: Subscription<T, E>, ev: Event<T, E>)
    requires !Closed(s)
    ensures var r := Apply(s, Emit(ev));
      && DeliveredEvents(r.log) == DeliveredEvents(s.log) + Received(s.observer.value, [ev])
      && (Closed(r) <==> !ev.Next?)
      && (ev.Next? ==> r.observer == s.observer)
  {
  }

  /**
   * What the sink receives from an open subscription: the notifications emitted
   * before the first `unsubscribe`, cut after the first terminal one, restricted
   * to the handlers the sink has.
   */
  lemma {:induction false} DeliveryFollowsGate<T, E>(s: Subscription<T, E>, ops: seq<Op<T, E>>)
    requires !Closed(s)
    ensures DeliveredEvents(ApplyAll(s, ops).log)
         == DeliveredEvents(s.log) + Received(s.observer.value, Gate(EmittedBeforeCancel(ops)))
    decreases |ops|
  {
    var sink := s.observer.value;
    if ops == [] {
    } else if ops[0].Cancel? {
      ClosedIsFinal(Unsubscribe(s), ops[1..]);
    } else {
      var ev := ops[0].event;
      var s1 := Apply(s, Emit(ev));
      var rest := EmittedBeforeCancel(ops[1..]);
      assert ops[0] == Emit(ev);
      assert ApplyAll(s, ops) == ApplyAll(s1, ops[1..]);
      assert EmittedBeforeCancel(ops) == [ev] + rest;
      GateCons(ev, rest);
      EmitStep(s, ev);
      if ev.Next? {
        DeliveryFollowsGate(s1, ops[1..]);
        ReceivedAppend(sink, [ev], Gate(rest));
      } else {
        ClosedIsFinal(s1, ops[1..]);
      }
    }
  }

  /** An open subscription ends up closed exactly when some call closes it. */
  lemma {:induction false} ClosedExactlyWhenHalted<T, E>(s: Subscription<T, E>, ops: seq<Op<T, E>>)
    requires !Closed(s)
    ensures Closed(ApplyAll(s, ops)) <==> Halts(ops)
    decreases |ops|
  {
    if ops != [] {
      var s1 := Apply(s, ops[0]);
      if ops[0].Emit? && ops[0].event.Next? {
        ClosedExactlyWhenHalted(s1, ops[1..]);
        if Halts(ops) {
          var i :| 0 <= i < |ops| && !(ops[i].Emit? && ops[i].event.Next?);
          assert ops[1..][i - 1] == ops[i];
        }
        if Halts(ops[1..]) {
          var i :| 0 <= i < |ops[1..]| && !(ops[1..][i].Emit? && ops[1..][i].event.Next?);
          assert ops[i + 1] == ops[1..][i];
        }
      } else {
        ClosedIsFinal(s1, ops[1..]);
        assert !(ops[0].Emit? && ops[0].event.Next?);
      }
    }
  }

  /**
   * Cleanup runs at most once across any interleaving, and never while the
   * subscription is still open.
   */
  lemma CleanupRunsAtMostOnce<T, E>(s: Subscription<T, E>, ops: seq<Op<T, E>>)
    requires Coherent(s)
    ensures |CleanupsRun(ApplyAll(s, ops).log)| <= 1
    ensures CleanupsRun(ApplyAll(s, ops).log) != [] ==> Closed(ApplyAll(s, ops))
  {
    ApplyAllKeepsCoherent(s, ops);
  }

  /**
   * A stored cleanup runs exactly when the subscription gets closed, whichever
   * call closes it, and it is the only cleanup that ever runs.
   */
  lemma {:induction false} StoredCleanupRunsOnClose<T, E>(s: Subscription<T, E>, ops: seq<Op<T, E>>)
    requires Coherent(s) && s.cleanup.Some?
    ensures Closed(ApplyAll(s, ops)) <==> CleanupsRun(ApplyAll(s, ops).log) == [s.cleanup.value]
    ensures !Closed(ApplyAll(s, ops)) ==> ApplyAll(s, ops).cleanup == s.cleanup
    decreases |ops|
  {
    if ops != [] {
      var s1 := Apply(s, ops[0]);
      ApplyKeepsCoherent(s, ops[0]);
      if Closed(s1) {
        ClosedIsFinal(s1, ops[1..]);
      } else {
        StoredCleanupRunsOnClose(s1, ops[1..]);
      }
    }
  }

  /**
   * A subscription whose cleanup `c` either already ran (closed) or is stored
   * (open) has, after any calls, run exactly `c` if it is closed and nothing if
   * it is still open.
   */
  lemma CleanupRunsOnceClosed<T, E>(s: Subscription<T, E>, ops: seq<Op<T, E>>, c: Cleanup)
    requires Coherent(s)
    requires Closed(s) ==> CleanupsRun(s.log) == [c]
    requires !Closed(s) ==> s.cleanup == Some(c)
    ensures var r := ApplyAll(s, ops);
      && (Closed(r) ==> CleanupsRun(r.log) == [c])
      && (!Closed(r) ==> CleanupsRun(r.log) == [])
  {
    ApplyAllKeepsCoherent(s, ops);
    if Closed(s) {
      ClosedIsFinal(s, ops);
    } else {
      StoredCleanupRunsOnClose(s, ops);
    }
  }

  /**
   * `error` and `complete` clear the observer before calling the sink, so any call
   * the sink's handler makes back into the subscription is ignored.
   */
  lemma ReentrantCallsDuringHandoffAreIgnored<T, E>(s: Subscription<T, E>, ev: Event<T, E>, ops: seq<Op<T, E>>)
    requires !Closed(s) && !ev.Next?
    ensures ApplyAll(Handoff(s, ev), ops) == Handoff(s, ev)
  {
    ClosedIsFinal(Handoff(s, ev), ops);
  }

  /** A sink with no handlers receives nothing, whatever the producer emits. */
  lemma {:induction false} HandlerlessSinkReceivesNothing<T, E>(sink: Sink, t: seq<Event<T, E>>)
    requires !sink.hasNext && !sink.hasError && !sink.hasComplete
    ensures Received(sink, t) == []
  {
    if t != [] {
      HandlerlessSinkReceivesNothing(sink, t[1..]);
    }
  }

  /** A sink with every handler receives every event. */
  lemma {:induction false} FullSinkReceivesAll<T, E>(sink: Sink, t: seq<Event<T, E>>)
    requires sink.hasNext && sink.hasError && sink.hasComplete
    ensures Received(sink, t) == t
  {
    if t != [] {
      FullSinkReceivesAll(sink, t[1..]);
      assert t == [t[0]] + t[1..];
    }
  }

  /** Received distributes over concatenation. */
  lemma {:induction false} ReceivedAppend<T, E>(sink: Sink, a: seq<Event<T, E>>, b: seq<Event<T, E>>)
    ensures Received(sink, a + b) == Received(sink, a) + Received(sink, b)
  {
    if a != [] {
      ReceivedAppend(sink, a[1..], b);
      assert (a + b)[1..] == a[1..] + b;
    } else {
      assert a + b == b;
    }
  }

  /** The ending a sink sees: a terminal event reaches it only through the matching handler. */
  function HandledEnding<E>(sink: Sink, end: Ending<E>): Ending<E> {
    match end
    case Open => Open
    case Failed(_) => if sink.hasError then end else Open
    case Completed => if sink.hasComplete then end else Open
  }

  /**
   * A sink with a `next` handler receives every value of a trace, and its ending
   * exactly when it has the handler for that ending.
   */
  lemma {:induction false} ReceivedCompose<T, E>(sink: Sink, vs: seq<T>, end: Ending<E>)
    requires sink.hasNext
    ensures Received(sink, Compose(vs, end)) == Compose(vs, HandledEnding(sink, end))
    decreases |vs|
  {
    if vs == [] {
      match end
      case Open =>
      case Failed(e) => assert Compose<T, E>(vs, end) == [Error(e)];
      case Completed => assert Compose<T, E>(vs, end) == [Complete];
    } else {
      var t := Compose(vs, end);
      assert vs == [vs[0]] + vs[1..];
      ComposeCons(vs[0], vs[1..], end);
      ComposeCons(vs[0], vs[1..], HandledEnding(sink, end));
      assert t[1..] == Compose(vs[1..], end);
      ReceivedCompose(sink, vs[1..], end);
    }
  }
}
