/**
 * Event traces: the notifications an observer receives, and the closed gate that
 * turns whatever a producer calls into a well-formed trace.
 */
module Trace {

  /** One notification pushed through an observer: `next(value)`, `error(e)` or `complete()`. */
  datatype Event<T, E> = Next(value: T) | Error(error: E) | Complete

  /** How a trace ends: still open, failed with an error, or completed. */
  datatype Ending<E> = Open | Failed(error: E) | Completed

  /** Only the last event of a well-formed trace may be an `Error` or a `Complete`. */
  predicate WellFormed<T, E>(t: seq<Event<T, E>>) {
    forall i | 0 <= i < |t| - 1 :: t[i].Next?
  }

  /** Some event of the sequence is terminal. */
  predicate Terminates<T, E>(t: seq<Event<T, E>>) {
    exists i | 0 <= i < |t| :: !t[i].Next?
  }

  /** The payloads of the `Next` events, in order. */
  function Values<T, E>(t: seq<Event<T, E>>): (vs: seq<T>)
    ensures |vs| <= |t|
  {
    if t == [] then []
    else (if t[0].Next? then [t[0].value] else []) + Values(t[1..])
  }

  /** How a trace ends, read off its last event. */
  function EndOf<T, E>(t: seq<Event<T, E>>): Ending<E> {
    if t == [] then Open
    else match t[|t| - 1]
      case Next(_) => Open
      case Error(e) => Failed(e)
      case Complete => Completed
  }

  /** One `Next` per value, in order. */
  function Nexts<T, E>(vs: seq<T>): (t: seq<Event<T, E>>)
    ensures |t| == |vs|
    ensures forall i | 0 <= i < |vs| :: t[i] == Next(vs[i])
  {
    if vs == [] then [] else [Next(vs[0])] + Nexts(vs[1..])
  }

  /** The terminal event an ending stands for, if any. */
  function Terminal<T, E>(end: Ending<E>): seq<Event<T, E>> {
    match end
    case Open => []
    case Failed(e) => [Error(e)]
    case Completed => [Complete]
  }

  /** The trace that delivers `vs` in order and then ends as `end` says. */
  function Compose<T, E>(vs: seq<T>, end: Ending<E>): seq<Event<T, E>> {
    Nexts(vs) + Terminal(end)
  }

  /**
   * The closed gate. A producer may call `next`, `error` and `complete` in any order;
   * the observer receives the calls up to and including the first terminal one,
   * because that call closes the subscription and every later call is ignored.
   */
  function Gate<T, E>(calls: seq<Event<T, E>>): (d: seq<Event<T, E>>)
    ensures WellFormed(d)
    ensures |d| <= |calls| && d == calls[..|d|]
    ensures |d| < |calls| ==> |d| > 0 && !d[|d| - 1].Next?
  {
    if calls == [] then []
    else if calls[0].Next? then [calls[0]] + Gate(calls[1..])
    else [calls[0]]
  }

  /** The gate on a call sequence, one call at a time. */
  lemma GateCons<T, E>(ev: Event<T, E>, rest: seq<Event<T, E>>)
    ensures Gate([ev] + rest) == if ev.Next? then [ev] + Gate(rest) else [ev]
  {
    assert ([ev] + rest)[1..] == rest;
  }

  /** Composing and then decomposing gives back the values and the ending. */
  lemma {:induction false} ComposeRoundTrip<T, E>(vs: seq<T>, end: Ending<E>)
    ensures WellFormed(Compose(vs, end))
    ensures Values(Compose(vs, end)) == vs
    ensures EndOf(Compose(vs, end)) == end
  {
    var t := Compose(vs, end);
    if vs == [] {
      assert t == Terminal(end);
    } else {
      ComposeCons(vs[0], vs[1..], end);
      assert vs == [vs[0]] + vs[1..];
      ComposeRoundTrip(vs[1..], end);
      assert t[1..] == Compose(vs[1..], end);
      if end.Open? {
        assert t[|t| - 1] == Next(vs[|vs| - 1]);
      }
    }
  }

  /** Every well-formed trace is its values followed by its ending. */
  lemma {:induction false} DecomposeRoundTrip<T, E>(t: seq<Event<T, E>>)
    requires WellFormed(t)
    ensures Compose(Values(t), EndOf(t)) == t
  {
    if t != [] {
      Uncons(t);
      if t[0].Next? {
        DecomposeRoundTrip(t[1..]);
        ComposeCons(t[0].value, Values(t[1..]), EndOf(t[1..]));
        assert t == [t[0]] + t[1..];
      }
    }
  }

  /** Prepending a value to a composed trace. */
  lemma ComposeCons<T, E>(v: T, vs: seq<T>, end: Ending<E>)
    ensures Compose([v] + vs, end) == [Next(v)] + Compose(vs, end)
  {
    assert ([v] + vs)[1..] == vs;
  }

  /** The head of a non-empty well-formed trace, and what that says about the rest. */
  lemma Uncons<T, E>(t: seq<Event<T, E>>)
    requires WellFormed(t) && t != []
    ensures t[0].Next? ==> WellFormed(t[1..])
    ensures t[0].Next? ==> Values(t) == [t[0].value] + Values(t[1..])
    ensures t[0].Next? ==> EndOf(t) == EndOf(t[1..])
    ensures !t[0].Next? ==> t == [t[0]] && Values(t) == []
    ensures t[0].Error? ==> EndOf(t) == Failed(t[0].error)
    ensures t[0].Complete? ==> EndOf(t) == Completed
  {
    if !t[0].Next? {
      assert |t| == 1;
      assert t == [t[0]];
    }
  }

  /** The gate changes a call sequence exactly when the sequence is not well formed. */
  lemma {:induction false} GateFixesExactlyWellFormed<T, E>(t: seq<Event<T, E>>)
    ensures WellFormed(t) <==> Gate(t) == t
  {
    if WellFormed(t) && t != [] {
      if t[0].Next? {
        Uncons(t);
        GateFixesExactlyWellFormed(t[1..]);
        assert t == [t[0]] + t[1..];
      } else {
        Uncons(t);
      }
    }
  }

  /** Termination, one event at a time. */
  lemma TerminatesCons<T, E>(ev: Event<T, E>, rest: seq<Event<T, E>>)
    ensures Terminates([ev] + rest) <==> !ev.Next? || Terminates(rest)
  {
    var evs := [ev] + rest;
    if Terminates(rest) {
      var i :| 0 <= i < |rest| && !rest[i].Next?;
      assert evs[i + 1] == rest[i];
    }
    if Terminates(evs) {
      var i :| 0 <= i < |evs| && !evs[i].Next?;
      if i > 0 {
        assert rest[i - 1] == evs[i];
      }
    }
    assert evs[0] == ev;
  }

  /** The gated trace ends in a terminal event exactly when some call was terminal. */
  lemma {:induction false} GateEndsExactlyOnTermination<T, E>(t: seq<Event<T, E>>)
    ensures !EndOf(Gate(t)).Open? <==> Terminates(t)
    ensures EndOf(Gate(t)).Open? ==> Gate(t) == t
  {
    if t != [] {
      var ev := t[0];
      var rest := t[1..];
      assert t == [ev] + rest;
      GateCons(ev, rest);
      TerminatesCons(ev, rest);
      if ev.Next? {
        GateEndsExactlyOnTermination(rest);
        EndOfCons(ev, Gate(rest));
      }
    }
  }

  /** The ending of a trace with a value in front is the ending of the rest. */
  lemma EndOfCons<T, E>(ev: Event<T, E>, rest: seq<Event<T, E>>)
    requires ev.Next?
    ensures EndOf([ev] + rest) == EndOf(rest)
  {
  }
}
