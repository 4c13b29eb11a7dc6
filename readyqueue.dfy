/**
 * The ready queue of script.js: an array of process indices changed with
 * `push`, `indexOf`, `includes` and `splice(idx, 1)`.
 */
module ReadyQueue {

  /** Every entry is an index into a process table of size `n`. */
  predicate InRange(q: seq<int>, n: int)
  {
    forall k :: 0 <= k < |q| ==> 0 <= q[k] < n
  }

  /** No index is queued twice. */
  ghost predicate NoDup(q: seq<int>)
  {
    forall i, j :: 0 <= i < j < |q| ==> q[i] != q[j]
  }

  /** `q.indexOf(x)`: the first position holding `x`, or -1. */
  function IndexOf(q: seq<int>, x: int): (r: int)
    ensures r == -1 <==> x !in q
    ensures r != -1 ==> 0 <= r < |q| && q[r] == x && x !in q[..r]
  {
    if q == [] then -1
    else if q[0] == x then 0
    else
      var r := IndexOf(q[1..], x);
      if r == -1 then -1
      else
        assert q[..r + 1] == [q[0]] + q[1..][..r];
        r + 1
  }

  /** `q.splice(k, 1)`: drop the entry at position `k`. */
  function RemoveAt(q: seq<int>, k: int): seq<int>
    requires 0 <= k < |q|
  {
    q[..k] + q[k + 1..]
  }

  /** `idx = q.indexOf(x); if (idx > -1) q.splice(idx, 1)`: drop the first
      occurrence of `x`, if any. */
  function SpliceOut(q: seq<int>, x: int): (r: seq<int>)
    ensures x !in q ==> r == q
    ensures x in q ==> r == RemoveAt(q, IndexOf(q, x))
  {
    var idx := IndexOf(q, x);
    if idx > -1 then RemoveAt(q, idx) else q
  }

  /** In a queue without duplicates the lookup finds each entry at its own
      position. */
  lemma IndexOfEntry(q: seq<int>, k: int)
    requires NoDup(q) && 0 <= k < |q|
    ensures IndexOf(q, q[k]) == k
  {
    var r := IndexOf(q, q[k]);
    assert q[r] == q[k];
  }

  /** Removing a position before an appended entry commutes with the append. */
  lemma RemoveAtAppend(q: seq<int>, x: int, k: int)
    requires 0 <= k < |q|
    ensures RemoveAt(q + [x], k) == RemoveAt(q, k) + [x]
  {
    assert (q + [x])[..k] == q[..k];
    assert (q + [x])[k + 1..] == q[k + 1..] + [x];
  }

  /** Removing one entry of a duplicate-free queue removes exactly that index,
      keeps every other one and keeps the queue duplicate-free. */
  lemma RemoveAtMembers(q: seq<int>, k: int)
    requires 0 <= k < |q| && NoDup(q)
    ensures NoDup(RemoveAt(q, k))
    ensures |RemoveAt(q, k)| == |q| - 1
    ensures forall x :: x in RemoveAt(q, k) <==> x in q && x != q[k]
  {
    var r := RemoveAt(q, k);
    forall x | x in q && x != q[k] ensures x in r {
      var j :| 0 <= j < |q| && q[j] == x;
      if j < k { assert r[j] == x; } else { assert r[j - 1] == x; }
    }
    forall x | x in r ensures x in q && x != q[k] {
      var j :| 0 <= j < |r| && r[j] == x;
      if j < k { assert q[j] == x; } else { assert q[j + 1] == x; }
    }
    forall i, j | 0 <= i < j < |r| ensures r[i] != r[j] {
      var i' := if i < k then i else i + 1;
      var j' := if j < k then j else j + 1;
      assert r[i] == q[i'] && r[j] == q[j'];
    }
  }

  /** `push` of an index not yet queued keeps the queue duplicate-free. */
  lemma AppendFresh(q: seq<int>, x: int)
    requires NoDup(q) && x !in q
    ensures NoDup(q + [x])
  {
    var r := q + [x];
    forall i, j | 0 <= i < j < |r| ensures r[i] != r[j] {
      if j == |q| { assert r[i] == q[i]; }
    }
  }
}
