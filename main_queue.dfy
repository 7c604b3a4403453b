/**
 * Closures handed to `DispatchQueue.main.asyncAfter(deadline: .now() + d)`,
 * kept as data: a delay and what the closure does. A batch of timers
 * scheduled by one action runs in order of delay, and timers with equal
 * delays run in the order they were scheduled. FiringOrder is that order,
 * written as an insertion sort that places each timer after every earlier
 * one whose delay is not larger.
 */
module MainQueue {

  datatype Timer<A> = Timer(delayMs: nat, action: A)

  ghost predicate DelaysNonDecreasing<A>(ts: seq<Timer<A>>) {
    forall i, j :: 0 <= i < j < |ts| ==> ts[i].delayMs <= ts[j].delayMs
  }

  ghost predicate DelaysAtMost<A>(ts: seq<Timer<A>>, bound: nat) {
    forall i :: 0 <= i < |ts| ==> ts[i].delayMs <= bound
  }

  function InsertTimer<A>(sorted: seq<Timer<A>>, t: Timer<A>): seq<Timer<A>> {
    if sorted == [] || sorted[|sorted| - 1].delayMs <= t.delayMs then sorted + [t]
    else InsertTimer(sorted[..|sorted| - 1], t) + [sorted[|sorted| - 1]]
  }

  function FiringOrder<A>(ts: seq<Timer<A>>): seq<Timer<A>> {
    if ts == [] then [] else InsertTimer(FiringOrder(ts[..|ts| - 1]), ts[|ts| - 1])
  }

  /** The timers of `ts` whose delay is `d`, in their order in `ts`. */
  function WithDelay<A>(ts: seq<Timer<A>>, d: nat): seq<Timer<A>> {
    if ts == [] then []
    else WithDelay(ts[..|ts| - 1], d) + (if ts[|ts| - 1].delayMs == d then [ts[|ts| - 1]] else [])
  }

  lemma {:induction false} WithDelayAppend<A>(a: seq<Timer<A>>, b: seq<Timer<A>>, d: nat)
    ensures WithDelay(a + b, d) == WithDelay(a, d) + WithDelay(b, d)
  {
    if b == [] {
      assert a + b == a;
    } else {
      assert (a + b)[..|a + b| - 1] == a + b[..|b| - 1];
      WithDelayAppend(a, b[..|b| - 1], d);
    }
  }

  lemma {:induction false} InsertTimerBounded<A>(sorted: seq<Timer<A>>, t: Timer<A>, bound: nat)
    requires DelaysAtMost(sorted, bound) && t.delayMs <= bound
    ensures DelaysAtMost(InsertTimer(sorted, t), bound)
  {
    if !(sorted == [] || sorted[|sorted| - 1].delayMs <= t.delayMs) {
      InsertTimerBounded(sorted[..|sorted| - 1], t, bound);
    }
  }

  lemma {:induction false} InsertTimerSorted<A>(sorted: seq<Timer<A>>, t: Timer<A>)
    requires DelaysNonDecreasing(sorted)
    ensures DelaysNonDecreasing(InsertTimer(sorted, t))
  {
    if !(sorted == [] || sorted[|sorted| - 1].delayMs <= t.delayMs) {
      var init, last := sorted[..|sorted| - 1], sorted[|sorted| - 1];
      InsertTimerSorted(init, t);
      InsertTimerBounded(init, t, last.delayMs);
    }
  }

  lemma {:induction false} InsertTimerPermutes<A>(sorted: seq<Timer<A>>, t: Timer<A>)
    ensures multiset(InsertTimer(sorted, t)) == multiset(sorted) + multiset{t}
  {
    if !(sorted == [] || sorted[|sorted| - 1].delayMs <= t.delayMs) {
      var init, last := sorted[..|sorted| - 1], sorted[|sorted| - 1];
      InsertTimerPermutes(init, t);
      assert sorted == init + [last];
    }
  }

  lemma {:induction false} InsertTimerStable<A>(sorted: seq<Timer<A>>, t: Timer<A>, d: nat)
    ensures WithDelay(InsertTimer(sorted, t), d)
            == WithDelay(sorted, d) + (if t.delayMs == d then [t] else [])
  {
    if sorted == [] || sorted[|sorted| - 1].delayMs <= t.delayMs {
      WithDelayAppend(sorted, [t], d);
    } else {
      var init, last := sorted[..|sorted| - 1], sorted[|sorted| - 1];
      InsertTimerStable(init, t, d);
      WithDelayAppend(InsertTimer(init, t), [last], d);
      assert sorted == init + [last];
      WithDelayAppend(init, [last], d);
    }
  }

  /** The queue runs a batch in order of delay... */
  lemma {:induction false} FiringOrderSorted<A>(ts: seq<Timer<A>>)
    ensures DelaysNonDecreasing(FiringOrder(ts))
  {
    if ts != [] {
      FiringOrderSorted(ts[..|ts| - 1]);
      InsertTimerSorted(FiringOrder(ts[..|ts| - 1]), ts[|ts| - 1]);
    }
  }

  /** ...runs every timer exactly once... */
  lemma {:induction false} FiringOrderPermutes<A>(ts: seq<Timer<A>>)
    ensures multiset(FiringOrder(ts)) == multiset(ts)
  {
    if ts != [] {
      FiringOrderPermutes(ts[..|ts| - 1]);
      InsertTimerPermutes(FiringOrder(ts[..|ts| - 1]), ts[|ts| - 1]);
      assert ts == ts[..|ts| - 1] + [ts[|ts| - 1]];
    }
  }

  /** ...and keeps the scheduling order among timers with the same delay. */
  lemma {:induction false} FiringOrderStable<A>(ts: seq<Timer<A>>, d: nat)
    ensures WithDelay(FiringOrder(ts), d) == WithDelay(ts, d)
  {
    if ts != [] {
      FiringOrderStable(ts[..|ts| - 1], d);
      InsertTimerStable(FiringOrder(ts[..|ts| - 1]), ts[|ts| - 1], d);
    }
  }

  /** A batch scheduled with non-decreasing delays runs in the order it was scheduled. */
  lemma {:induction false} FiringOrderOfSorted<A>(ts: seq<Timer<A>>)
    requires DelaysNonDecreasing(ts)
    ensures FiringOrder(ts) == ts
  {
    if ts != [] {
      var init := ts[..|ts| - 1];
      assert DelaysNonDecreasing(init);
      FiringOrderOfSorted(init);
      assert ts == init + [ts[|ts| - 1]];
    }
  }
}
