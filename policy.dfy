/**
 * The six scheduling policies of `selectNextProcessToRun` and the scans that
 * pick a process from the ready queue. FCFS, SJF/SRTF and the two priority
 * policies keep the queued index whose sort key is smallest; among equal keys
 * the scan keeps the earlier queue entry (it only replaces on a strictly
 * smaller key). Round Robin takes the head of the queue.
 */
module Policy {
  import opened Records
  import opened ReadyQueue

  /** The closed set of algorithm selectors; the `default` branch of the
      source's switch has no counterpart. */
  datatype Algorithm = FCFS | SJF | SRTF | PriorityNP | PriorityP | RR

  /** Policies under which a running process keeps the CPU until it completes. */
  predicate NonPreemptive(alg: Algorithm)
  {
    alg == FCFS || alg == SJF || alg == PriorityNP
  }

  /** Policies that re-check the running process whenever a process arrives. */
  predicate PreemptsOnArrival(alg: Algorithm)
  {
    alg == SRTF || alg == PriorityP
  }

  /** A sort key compared lexicographically. */
  datatype Key = Key(first: int, second: int, third: int)

  predicate Less(x: Key, y: Key)
  {
    x.first < y.first ||
    (x.first == y.first && (x.second < y.second || (x.second == y.second && x.third < y.third)))
  }

  /** The key each scan minimises:
      FCFS (arrival, id); SJF and SRTF (remaining burst, arrival, id);
      both priority policies (priority, arrival, id). */
  function SortKey(alg: Algorithm, p: Proc): Key
    requires alg != RR
  {
    match alg
    case FCFS => Key(p.arrival, p.id, 0)
    case SJF | SRTF => Key(p.remaining, p.arrival, p.id)
    case PriorityNP | PriorityP => Key(p.priority, p.arrival, p.id)
  }

  /** The keys of the queued processes, in queue order. */
  function KeysOf(alg: Algorithm, ps: seq<Proc>, q: seq<int>): (ks: seq<Key>)
    requires alg != RR && InRange(q, |ps|)
    ensures |ks| == |q|
  {
    seq(|q|, j requires 0 <= j < |q| => SortKey(alg, ps[q[j]]))
  }

  /** Position `k` holds the lexicographic minimum of `ks`, and is the first
      position that does. */
  ghost predicate IsFirstMin(ks: seq<Key>, k: int)
  {
    0 <= k < |ks| &&
    (forall j :: 0 <= j < |ks| ==> !Less(ks[j], ks[k])) &&
    (forall j :: 0 <= j < k ==> Less(ks[k], ks[j]))
  }

  /** The position of the first minimum, computed front to back. */
  function MinPos(ks: seq<Key>): (k: nat)
    requires ks != []
    ensures IsFirstMin(ks, k)
  {
    if |ks| == 1 then 0
    else
      var m := MinPos(ks[..|ks| - 1]);
      if Less(ks[|ks| - 1], ks[m]) then |ks| - 1 else m
  }

  /** At most one position is the first minimum. */
  lemma FirstMinUnique(ks: seq<Key>, k1: int, k2: int)
    requires IsFirstMin(ks, k1) && IsFirstMin(ks, k2)
    ensures k1 == k2
  {
    assert !Less(ks[k2], ks[k1]) && !Less(ks[k1], ks[k2]);
  }

  /** The queue position the policy picks: the head under Round Robin, the
      first minimum of the policy's key otherwise. */
  function ChosenPos(alg: Algorithm, ps: seq<Proc>, q: seq<int>): (k: nat)
    requires q != [] && InRange(q, |ps|)
    ensures k < |q|
  {
    if alg == RR then 0 else MinPos(KeysOf(alg, ps, q))
  }

  /**
   * The `forEach` scan of the FCFS, SJF/SRTF and priority branches: one pass
   * over the queue that replaces the current best only on a strictly smaller
   * key. `selected == -1` stands for the source's "nothing yet" (its
   * accumulators start at Infinity, so the first entry is always taken).
   */
  method ScanQueue(alg: Algorithm, ps: seq<Proc>, q: seq<int>) returns (selected: int)
    requires alg != RR && InRange(q, |ps|)
    ensures q == [] ==> selected == -1
    ensures q != [] ==> selected == q[MinPos(KeysOf(alg, ps, q))]
  {
    var ks := KeysOf(alg, ps, q);
    selected := -1;
    var best := Key(0, 0, 0);
    ghost var pos := 0;
    for k := 0 to |q|
      invariant k == 0 ==> selected == -1
      invariant k > 0 ==> 0 <= pos < k && selected == q[pos] && best == ks[pos]
      invariant k > 0 ==> IsFirstMin(ks[..k], pos)
    {
      var key := SortKey(alg, ps[q[k]]);
      assert key == ks[k];
      if selected == -1 || Less(key, best) {
        selected := q[k];
        best := key;
        pos := k;
      }
      assert ks[..k + 1][..k] == ks[..k];
    }
    if q != [] {
      assert ks[..|q|] == ks;
      FirstMinUnique(ks, pos, MinPos(ks));
    }
  }

  /** Process ids are pairwise distinct (the input form numbers them 1..n). */
  ghost predicate DistinctIds(ps: seq<Proc>)
  {
    forall i, j :: 0 <= i < j < |ps| ==> ps[i].id != ps[j].id
  }

  /** With distinct ids two different processes never tie: the chosen process
      is strictly before every other queued one in the policy's order. */
  lemma ChoiceIsStrict(alg: Algorithm, ps: seq<Proc>, q: seq<int>, j: int)
    requires alg != RR && InRange(q, |ps|) && NoDup(q) && DistinctIds(ps)
    requires 0 <= j < |q| && j != MinPos(KeysOf(alg, ps, q))
    ensures Less(SortKey(alg, ps[q[MinPos(KeysOf(alg, ps, q))]]), SortKey(alg, ps[q[j]]))
  {
    var ks := KeysOf(alg, ps, q);
    var k := MinPos(ks);
    assert !Less(ks[j], ks[k]);
    assert q[j] != q[k];
    assert ps[q[j]].id != ps[q[k]].id by {
      if q[j] < q[k] { assert ps[q[j]].id != ps[q[k]].id; }
    }
  }

  /** With distinct ids the FCFS, SJF/SRTF and priority choices depend only on
      which processes are queued, not on their order in the queue. */
  lemma {:induction false} ChoiceIgnoresOrder(alg: Algorithm, ps: seq<Proc>, q1: seq<int>, q2: seq<int>)
    requires alg != RR && q1 != [] && InRange(q1, |ps|) && InRange(q2, |ps|)
    requires NoDup(q1) && NoDup(q2) && DistinctIds(ps)
    requires forall x :: x in q1 <==> x in q2
    ensures q2 != []
    ensures q1[MinPos(KeysOf(alg, ps, q1))] == q2[MinPos(KeysOf(alg, ps, q2))]
  {
    assert q1[0] in q2;
    var k1 := MinPos(KeysOf(alg, ps, q1));
    var k2 := MinPos(KeysOf(alg, ps, q2));
    var x1, x2 := q1[k1], q2[k2];
    if x1 != x2 {
      assert x2 in q1;
      var j1 :| 0 <= j1 < |q1| && q1[j1] == x2;
      assert x1 in q2;
      var j2 :| 0 <= j2 < |q2| && q2[j2] == x1;
      ChoiceIsStrict(alg, ps, q1, j1);
      ChoiceIsStrict(alg, ps, q2, j2);
      assert false;
    }
  }
}
