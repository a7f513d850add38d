/**
 * How `take`'s counter behaves across subscriptions.
 *
 * The counter `take` decrements is its own parameter, captured by the operator's
 * subscriber function, so every subscription to the same `take(n)` Observable
 * decrements the same variable. Subscriptions made one after another therefore
 * see what earlier ones left, although each subscription is meant to get its own
 * operator state. `TakeSharedCounter` models the code as written;
 * `TakeFreshCounter` is the intended behaviour, which `Operators.Take` follows.
 */
module TakeCounter {
  import opened Trace
  import opened Seqs
  import opened Observables
  import opened Operators

  /** What successive subscriptions receive when they share one counter, starting at `count`. */
  function TakeSharedCounter<T>(count: int, ups: seq<seq<Event<T, Fault>>>): (ds: seq<seq<Event<T, Fault>>>)
    ensures |ds| == |ups|
    decreases |ups|
  {
    if ups == [] then []
    else
      var r := TakeSteps(count, ups[0]);
      [Gate(r.calls)] + TakeSharedCounter(r.left, ups[1..])
  }

  /** What successive subscriptions receive when each starts its own counter at `count`. */
  function TakeFreshCounter<T>(count: int, ups: seq<seq<Event<T, Fault>>>): (ds: seq<seq<Event<T, Fault>>>)
    ensures |ds| == |ups|
  {
    seq(|ups|, i requires 0 <= i < |ups| => Gate(TakeSteps(count, ups[i]).calls))
  }

  /** The number of values delivered over all subscriptions. */
  function TotalValues<T>(ds: seq<seq<Event<T, Fault>>>): nat {
    if ds == [] then 0 else |Values(ds[0])| + TotalValues(ds[1..])
  }

  /** A finite source of one value: `of(7)`. */
  function SevenThenComplete(): seq<Event<int, Fault>> {
    [Next(7), Complete]
  }

  /**
   * As written, two subscriptions to `take(1)` over `of(7)`: the first gets 7 and
   * completes; the second finds the counter at 0 and only completes.
   */
  lemma SharedCounterStarvesSecondSubscription()
    ensures TakeSharedCounter(1, [SevenThenComplete(), SevenThenComplete()])
      == [[Next(7), Complete], [Complete]]
  {
    var u := SevenThenComplete();
    assert TakeSteps(1, u) == TakeRun([Next(7), Complete], 0);
    assert TakeSteps(0, u) == TakeRun([Complete, Complete], 0);
  }

  /** As written, `take(n)` delivers at most `n` values in total over all its subscriptions. */
  lemma {:induction false} SharedCounterBoundsAllSubscriptions<T>(n: int, ups: seq<seq<Event<T, Fault>>>)
    requires forall i | 0 <= i < |ups| :: WellFormed(ups[i])
    ensures TotalValues(TakeSharedCounter(n, ups)) <= Max0(n)
    decreases |ups|
  {
    if ups != [] {
      var up := ups[0];
      var vs := Values(up);
      DecomposeRoundTrip(up);
      TakeTrace(n, vs, EndOf(up));
      var r := TakeSteps(n, up);
      var m := Min(Max0(n), |vs|);
      if |vs| > Max0(n) {
        ComposeRoundTrip<T, Fault>(vs[..Max0(n)], Completed);
      } else {
        ComposeRoundTrip<T, Fault>(vs, EndOf(up));
      }
      assert |Values(Gate(r.calls))| == m;
      SharedCounterBoundsAllSubscriptions(r.left, ups[1..]);
      var ds := TakeSharedCounter(n, ups);
      assert ds[0] == Gate(r.calls);
      assert ds[1..] == TakeSharedCounter(r.left, ups[1..]);
    }
  }

  /**
   * With a counter per subscription every subscription gets the first `max(n, 0)`
   * values of its own upstream, completing early if there are more.
   */
  lemma FreshCounterServesEverySubscription<T>(n: int, ups: seq<seq<Event<T, Fault>>>)
    requires forall i | 0 <= i < |ups| :: WellFormed(ups[i])
    ensures var ds := TakeFreshCounter(n, ups);
      forall i | 0 <= i < |ups| ::
        var vs := Values(ups[i]);
        ds[i] == if |vs| > Max0(n) then Compose(vs[..Max0(n)], Completed) else ups[i]
  {
    forall i | 0 <= i < |ups|
      ensures var vs := Values(ups[i]);
        TakeFreshCounter(n, ups)[i] == if |vs| > Max0(n) then Compose(vs[..Max0(n)], Completed) else ups[i]
    {
      DecomposeRoundTrip(ups[i]);
      TakeTrace(n, Values(ups[i]), EndOf(ups[i]));
    }
  }

  /** With a counter per subscription, both subscriptions to `take(1)` over `of(7)` get 7. */
  lemma FreshCounterServesSecondSubscription()
    ensures TakeFreshCounter(1, [SevenThenComplete(), SevenThenComplete()])
      == [[Next(7), Complete], [Next(7), Complete]]
  {
    var u := SevenThenComplete();
    assert TakeSteps(1, u) == TakeRun([Next(7), Complete], 0);
  }
}
