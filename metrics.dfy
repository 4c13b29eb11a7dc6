/**
 * The integer quantities behind the monitor and the averages panel of
 * script.js: the number of completed processes, the totals that
 * `calculateAndDisplayAverages` divides, and the CPU utilization ratio.
 */
module Metrics {
  import opened Records

  /** The number of completed processes. */
  function CountCompleted(ps: seq<Proc>): (c: nat)
    ensures c <= |ps|
  {
    if ps == [] then 0
    else CountCompleted(ps[..|ps| - 1]) + (if ps[|ps| - 1].status == Completed then 1 else 0)
  }

  /** The count equals the number of processes exactly when every one is
      completed. */
  lemma {:induction false} CountFull(ps: seq<Proc>)
    ensures CountCompleted(ps) == |ps| <==> forall i :: 0 <= i < |ps| ==> ps[i].status == Completed
  {
    if ps != [] {
      var init := ps[..|ps| - 1];
      CountFull(init);
      assert forall i :: 0 <= i < |init| ==> init[i] == ps[i];
    }
  }

  /** Records that agree on which of them are completed have the same count. */
  lemma {:induction false} CountSame(a: seq<Proc>, b: seq<Proc>)
    requires |a| == |b|
    requires forall i :: 0 <= i < |a| ==> (a[i].status == Completed <==> b[i].status == Completed)
    ensures CountCompleted(a) == CountCompleted(b)
  {
    if a != [] {
      CountSame(a[..|a| - 1], b[..|b| - 1]);
    }
  }

  /** Completing one more process raises the count by exactly one. */
  lemma {:induction false} CountOneMore(a: seq<Proc>, b: seq<Proc>, k: int)
    requires |a| == |b| && 0 <= k < |a|
    requires a[k].status != Completed && b[k].status == Completed
    requires forall i :: 0 <= i < |a| && i != k ==> (a[i].status == Completed <==> b[i].status == Completed)
    ensures CountCompleted(b) == CountCompleted(a) + 1
  {
    if k == |a| - 1 {
      CountSame(a[..|a| - 1], b[..|b| - 1]);
    } else {
      CountOneMore(a[..|a| - 1], b[..|b| - 1], k);
    }
  }

  /** The sum of `waiting_time` over completed processes (`totalWT`). */
  function TotalWaiting(ps: seq<Proc>): int
  {
    if ps == [] then 0
    else TotalWaiting(ps[..|ps| - 1]) + (if ps[|ps| - 1].status == Completed then ps[|ps| - 1].waitingTime else 0)
  }

  /** The sum of `turnaround_time` over completed processes (`totalTAT`). */
  function TotalTurnaround(ps: seq<Proc>): int
  {
    if ps == [] then 0
    else TotalTurnaround(ps[..|ps| - 1]) + (if ps[|ps| - 1].status == Completed then ps[|ps| - 1].turnaroundTime else 0)
  }

  /** The sum of burst times over completed processes. */
  function TotalBurst(ps: seq<Proc>): int
  {
    if ps == [] then 0
    else TotalBurst(ps[..|ps| - 1]) + (if ps[|ps| - 1].status == Completed then ps[|ps| - 1].burst else 0)
  }

  /** When every completed process has `waiting_time = turnaround_time - burst`,
      the turnaround total is the waiting total plus the burst total. */
  lemma {:induction false} TurnaroundSplits(ps: seq<Proc>)
    requires forall i :: 0 <= i < |ps| && ps[i].status == Completed ==>
               ps[i].waitingTime == ps[i].turnaroundTime - ps[i].burst
    ensures TotalTurnaround(ps) == TotalWaiting(ps) + TotalBurst(ps)
  {
    if ps != [] {
      var init := ps[..|ps| - 1];
      assert forall i :: 0 <= i < |init| ==> init[i] == ps[i];
      TurnaroundSplits(init);
    }
  }

  /** CPU utilization in percent, `(totalCpuBusyTime / currentTime) * 100`,
      computed exactly instead of in floating point. */
  function Utilization(busy: int, time: int): (u: real)
    requires 0 <= busy <= time
    ensures 0.0 <= u <= 100.0
    ensures time > 0 ==> (u == 100.0 <==> busy == time)
    ensures u == 0.0 <==> busy == 0
  {
    if time > 0 then (busy as real / time as real) * 100.0 else 0.0
  }

  /** An average as the averages panel computes it, `total / count`, or 0
      when nothing has completed; exact instead of floating point. */
  function Mean(total: int, count: int): (m: real)
    ensures count > 0 ==> m * count as real == total as real
    ensures count <= 0 ==> m == 0.0
  {
    if count > 0 then total as real / count as real else 0.0
  }

  /** Averages over the same count add up. */
  lemma MeanAdds(x: int, y: int, n: int)
    ensures Mean(x + y, n) == Mean(x, n) + Mean(y, n)
  {
    if n > 0 {
      var m, mx, my := Mean(x + y, n), Mean(x, n), Mean(y, n);
      assert m * n as real == mx * n as real + my * n as real;
      assert (m - (mx + my)) * n as real == 0.0;
    }
  }
}
