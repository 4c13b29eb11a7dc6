/**
 * The Gantt log of script.js: a list of `{pid, start, end}` segments, one
 * call of `logGantt` per simulated tick, where a tick continuing the last
 * segment's subject extends that segment instead of opening a new one.
 * `Expand` reads a log back as the tick-by-tick sequence of subjects.
 */
module Gantt {

  /** What occupied the CPU: a process id or the string 'Idle'. */
  datatype Subject = Idle | Pid(id: int)

  datatype Segment = Segment(pid: Subject, start: int, end: int)

  /** `logGantt(pid, start, end)`. */
  function Log(g: seq<Segment>, pid: Subject, start: int, end: int): seq<Segment>
  {
    if |g| > 0 && g[|g| - 1].pid == pid && g[|g| - 1].end == start then
      g[..|g| - 1] + [g[|g| - 1].(end := end)]
    else
      g + [Segment(pid, start, end)]
  }

  /** The number of ticks a segment covers. */
  function Length(s: Segment): nat
  {
    if s.end >= s.start then s.end - s.start else 0
  }

  /** `n` copies of `x`. */
  function Repeat(x: Subject, n: nat): (r: seq<Subject>)
    ensures |r| == n
    ensures forall k :: 0 <= k < n ==> r[k] == x
  {
    if n == 0 then [] else Repeat(x, n - 1) + [x]
  }

  /** The subject of every tick the log covers, in order. */
  function Expand(g: seq<Segment>): seq<Subject>
  {
    if g == [] then [] else Expand(g[..|g| - 1]) + Repeat(g[|g| - 1].pid, Length(g[|g| - 1]))
  }

  /**
   * The log covers `[0, t)` without gaps or overlaps, every segment is
   * non-empty, and adjacent segments have different subjects: read from the
   * end, the last segment ends at `t` and the rest covers up to its start.
   */
  ghost predicate Timeline(g: seq<Segment>, t: int)
  {
    if g == [] then t == 0
    else
      var last := g[|g| - 1];
      last.start < last.end == t && Timeline(g[..|g| - 1], last.start) &&
      (|g| > 1 ==> g[|g| - 2].pid != last.pid)
  }

  /** A log that covers `[0, t)` expands to exactly `t` ticks. */
  lemma {:induction false} ExpandLength(g: seq<Segment>, t: int)
    requires Timeline(g, t)
    ensures t >= 0 && |Expand(g)| == t
  {
    if g != [] {
      ExpandLength(g[..|g| - 1], g[|g| - 1].start);
    }
  }

  /**
   * Logging the tick `[t, t + 1)` of a log that covers `[0, t)` gives a log
   * that covers `[0, t + 1)` and whose tick sequence is the old one followed
   * by `pid`.
   */
  lemma LogTick(g: seq<Segment>, t: int, pid: Subject)
    requires Timeline(g, t)
    ensures Timeline(Log(g, pid, t, t + 1), t + 1)
    ensures Expand(Log(g, pid, t, t + 1)) == Expand(g) + [pid]
  {
    var r := Log(g, pid, t, t + 1);
    if |g| > 0 && g[|g| - 1].pid == pid && g[|g| - 1].end == t {
      var last := g[|g| - 1];
      assert r[..|r| - 1] == g[..|g| - 1];
      assert |r| > 1 ==> r[|r| - 2] == g[|g| - 2];
      assert Length(r[|r| - 1]) == Length(last) + 1;
      assert Repeat(pid, Length(last) + 1) == Repeat(pid, Length(last)) + [pid];
    } else {
      assert r[..|r| - 1] == g;
      assert Repeat(pid, 1) == [pid];
    }
  }

  /** The number of ticks in which a process ran. */
  function CountBusy(xs: seq<Subject>): (c: nat)
    ensures c <= |xs|
  {
    if xs == [] then 0 else CountBusy(xs[..|xs| - 1]) + (if xs[|xs| - 1] == Idle then 0 else 1)
  }

  /** One more tick adds one busy tick exactly when a process ran in it. */
  lemma CountBusyAppend(xs: seq<Subject>, x: Subject)
    ensures CountBusy(xs + [x]) == CountBusy(xs) + (if x == Idle then 0 else 1)
  {
    assert (xs + [x])[..|xs|] == xs;
  }

  /** Every tick was busy exactly when no tick was idle. */
  lemma {:induction false} AllBusy(xs: seq<Subject>)
    ensures CountBusy(xs) == |xs| <==> Idle !in xs
  {
    if xs != [] {
      var init := xs[..|xs| - 1];
      AllBusy(init);
      assert xs == init + [xs[|xs| - 1]];
    }
  }
}
