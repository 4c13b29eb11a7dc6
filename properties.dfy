/**
 * What one call of `simulationStep` does, stated about `Engine.Step` for a
 * valid state: the clock, the Gantt log, the busy counter, the burst
 * consumed, the completion count and metrics, the arrivals and preemption
 * rule, the selection rule, and the two behaviours of the source that a
 * reader might not expect (a lone SRTF or preemptive-priority runner is
 * handed back every other tick, and a Round Robin process whose quantum
 * expires is charged a waiting tick for the tick it ran).
 */
module Properties {
  import opened Records
  import opened ReadyQueue
  import opened Policy
  import opened Gantt
  import opened Metrics
  import opened Engine
  import opened Invariants

  // ------------------------------------------------------------ frames

  /** `b` differs from `a` at most in the status of each record. */
  ghost predicate StatusOnly(a: seq<Proc>, b: seq<Proc>)
  {
    |a| == |b| && forall j :: 0 <= j < |a| ==> b[j] == a[j].(status := b[j].status)
  }

  /** Completed records of `a` are unchanged in `b`. */
  ghost predicate Frozen(a: seq<Proc>, b: seq<Proc>)
  {
    |a| == |b| && forall j :: 0 <= j < |a| && a[j].status == Completed ==> b[j] == a[j]
  }

  lemma StatusOnlyTrans(a: seq<Proc>, b: seq<Proc>, c: seq<Proc>)
    requires StatusOnly(a, b) && StatusOnly(b, c)
    ensures StatusOnly(a, c)
  {
    forall j | 0 <= j < |a| ensures c[j] == a[j].(status := c[j].status) {
      assert b[j] == a[j].(status := b[j].status);
      assert c[j] == b[j].(status := c[j].status);
    }
  }

  lemma FrozenTrans(a: seq<Proc>, b: seq<Proc>, c: seq<Proc>)
    requires StatusOnly(a, b) && Frozen(a, b) && Frozen(b, c)
    ensures Frozen(a, c)
  {
  }

  /** During the arrivals loop the running process is not a completed one. */
  ghost predicate RunnerLive(a: State)
    requires Indexed(a)
  {
    a.running == -1 || a.procs[a.running].status != Completed
  }

  /** One iteration of the arrivals loop touches the newcomer (Waiting) and
      the preempted runner (Running) only, and appends to the queue. */
  lemma ArriveAtFrame(cfg: Config, a: State, i: int)
    requires Indexed(a) && 0 <= i < |a.procs| && RunnerLive(a)
    ensures StatusOnly(a.procs, ArriveAt(cfg, a, i).procs) && Frozen(a.procs, ArriveAt(cfg, a, i).procs)
    ensures a.queue <= ArriveAt(cfg, a, i).queue && RunnerLive(ArriveAt(cfg, a, i))
  {
  }

  /** What the arrivals loop keeps between the state before it, `s`, and the
      state `a` after some of its iterations. */
  ghost predicate Framed(s: State, a: State)
  {
    StatusOnly(s.procs, a.procs) && Frozen(s.procs, a.procs) && s.queue <= a.queue
  }

  /** No iteration keeps the frame. */
  lemma FramedRefl(s: State)
    ensures Framed(s, s)
  {
    forall j | 0 <= j < |s.procs| ensures s.procs[j] == s.procs[j].(status := s.procs[j].status) {
    }
  }

  /** One more iteration keeps the frame and a live runner. */
  lemma ArriveNextFrame(cfg: Config, s: State, a: State, k: nat)
    requires Indexed(a) && k < |a.procs| && Framed(s, a) && RunnerLive(a)
    ensures Framed(s, ArriveAt(cfg, a, k)) && RunnerLive(ArriveAt(cfg, a, k))
  {
    ArriveAtFrame(cfg, a, k);
    var b := ArriveAt(cfg, a, k);
    StatusOnlyTrans(s.procs, a.procs, b.procs);
    FrozenTrans(s.procs, a.procs, b.procs);
  }

  lemma {:induction false} ArriveUpToFramed(cfg: Config, s: State, i: nat)
    requires Indexed(s) && RunnerLive(s) && i <= |s.procs|
    ensures Framed(s, ArriveUpTo(cfg, s, i)) && RunnerLive(ArriveUpTo(cfg, s, i))
  {
    if i == 0 {
      FramedRefl(s);
    } else {
      ArriveUpToFramed(cfg, s, i - 1);
      FramedStep(cfg, s, i - 1, i);
    }
  }

  /** The frame after `k` iterations carries over to `k + 1`. */
  lemma FramedStep(cfg: Config, s: State, k: nat, i: nat)
    requires Indexed(s) && i == k + 1 && i <= |s.procs|
    requires Framed(s, ArriveUpTo(cfg, s, k)) && RunnerLive(ArriveUpTo(cfg, s, k))
    ensures Framed(s, ArriveUpTo(cfg, s, i)) && RunnerLive(ArriveUpTo(cfg, s, i))
  {
    ArriveNextFrame(cfg, s, ArriveUpTo(cfg, s, k), k);
  }

  /** The arrivals loop changes statuses only, never those of completed
      processes, and only appends to the ready queue. */
  lemma ArriveUpToFrame(cfg: Config, s: State, i: nat)
    requires Valid(cfg, s) && i <= |s.procs|
    ensures StatusOnly(s.procs, ArriveUpTo(cfg, s, i).procs)
    ensures Frozen(s.procs, ArriveUpTo(cfg, s, i).procs)
    ensures |s.queue| <= |ArriveUpTo(cfg, s, i).queue| && ArriveUpTo(cfg, s, i).queue[..|s.queue|] == s.queue
  {
    assert s.running != -1 ==> s.procs[s.running].status == Running;
    ArriveUpToFramed(cfg, s, i);
    var q := ArriveUpTo(cfg, s, i).queue;
    assert q[..|s.queue|] == s.queue;
  }

  /** Selection and context switch change statuses only, and only that of
      the previous runner when it was still Running. */
  lemma PreparedFrame(cfg: Config, s: State)
    requires Valid(cfg, s)
    ensures StatusOnly(s.procs, Prepared(cfg, s).procs) && Frozen(s.procs, Prepared(cfg, s).procs)
    ensures Prepared(cfg, s).time == s.time && Prepared(cfg, s).gantt == s.gantt
    ensures Prepared(cfg, s).busy == s.busy && Prepared(cfg, s).completed == s.completed
  {
    var a := Arrivals(cfg, s);
    var c := Prepared(cfg, s);
    assert StatusOnly(s.procs, a.procs) && Frozen(s.procs, a.procs) by {
      ArriveUpToFrame(cfg, s, |s.procs|);
    }
    SwitchFrame(cfg, a);
    StatusOnlyTrans(s.procs, a.procs, c.procs);
    FrozenTrans(s.procs, a.procs, c.procs);
    PreparedClock(cfg, s);
  }

  /** Selection and context switch change the status of the previous runner
      at most, and only when it was still Running. */
  lemma SwitchFrame(cfg: Config, a: State)
    requires Indexed(a)
    ensures var c := ContextSwitch(Dispatch(cfg, a), a.running);
      StatusOnly(a.procs, c.procs) && Frozen(a.procs, c.procs)
  {
  }

  /** Selection and context switch leave the clock and the counters alone. */
  lemma PreparedClock(cfg: Config, s: State)
    requires Indexed(s)
    ensures var c := Prepared(cfg, s);
      c.time == s.time && c.gantt == s.gantt && c.busy == s.busy && c.completed == s.completed
  {
  }

  /** Execution touches the running record only: one unit of its burst is
      consumed, and it completes, with completion time `t + 1`, exactly when
      that was its last unit. */
  lemma ExecuteFrame(cfg: Config, c: State)
    requires Indexed(c)
    ensures forall j :: 0 <= j < |c.procs| && j != c.running ==> Execute(cfg, c).procs[j] == c.procs[j]
    ensures c.running != -1 ==>
      Execute(cfg, c).procs[c.running].remaining == c.procs[c.running].remaining - 1 &&
      Execute(cfg, c).procs[c.running].InputOf() == c.procs[c.running].InputOf() &&
      Execute(cfg, c).procs[c.running].startTime ==
        (if c.procs[c.running].startTime == -1 then c.time else c.procs[c.running].startTime) &&
      Execute(cfg, c).procs[c.running].lastExecution == c.time
    ensures c.running != -1 && c.procs[c.running].remaining == 1 ==>
      Execute(cfg, c).procs[c.running].completionTime == c.time + 1 &&
      Execute(cfg, c).completed == c.completed + 1
    ensures !(c.running != -1 && c.procs[c.running].remaining == 1) ==> Execute(cfg, c).completed == c.completed
    ensures Execute(cfg, c).gantt ==
      Log(c.gantt, if c.running == -1 then Idle else Pid(c.procs[c.running].id), c.time, c.time + 1)
    ensures Execute(cfg, c).busy == c.busy + (if c.running == -1 then 0 else 1)
  {
  }

  /** The step as the bookkeeping applied to the executed state. */
  lemma StepShape(cfg: Config, s: State)
    requires Valid(cfg, s) && Live(s)
    ensures Step(cfg, s) == AccrueWaiting(Executed(cfg, s))
  {
    ExecutedKeeps(cfg, s);
    BookkeepingKeeps(cfg, Executed(cfg, s));
    TickShape(cfg, s);
  }

  /** Waiting-time accrual changes nothing but waiting times. */
  lemma AccrueFrame(x: State)
    requires Indexed(x)
    ensures forall j :: 0 <= j < |x.procs| ==>
      AccrueWaiting(x).procs[j] == x.procs[j].(waitingTime := AccrueWaiting(x).procs[j].waitingTime)
    ensures AccrueWaiting(x).(procs := x.procs) == x
  {
  }

  // ------------------------------------------------------------ one step

  /** There is work left: `simulationStep` runs a tick. */
  predicate Live(s: State)
  {
    |s.procs| > 0 && s.completed < |s.procs|
  }

  /** The index of the process that runs in the tick from `s`, -1 if none. */
  function Runner(cfg: Config, s: State): int
    requires Indexed(s)
  {
    Prepared(cfg, s).running
  }

  /** The runner of a tick has arrived and has not completed. */
  lemma RunnerEligible(cfg: Config, s: State)
    requires Valid(cfg, s)
    ensures -1 <= Runner(cfg, s) < |s.procs|
    ensures Runner(cfg, s) != -1 ==>
      s.procs[Runner(cfg, s)].status != Completed && s.procs[Runner(cfg, s)].arrival <= s.time &&
      s.procs[Runner(cfg, s)].remaining > 0
  {
    PreparedKeeps(cfg, s);
    PreparedFrame(cfg, s);
    var c := Prepared(cfg, s);
    if c.running != -1 {
      assert ProcOk(c.procs[c.running], c.time);
      assert ProcOk(s.procs[c.running], s.time);
    }
  }

  /**
   * One tick consumes exactly one unit of burst, that of the runner, and
   * nothing else: the inputs of every process are unchanged and the clock
   * advances by one. Only the runner is stamped: its start time on its first
   * tick, its last execution time on every tick it runs.
   */
  lemma StepWork(cfg: Config, s: State)
    requires Valid(cfg, s) && Live(s)
    ensures Step(cfg, s).time == s.time + 1
    ensures forall j :: 0 <= j < |s.procs| ==>
      Step(cfg, s).procs[j].remaining == s.procs[j].remaining - (if j == Runner(cfg, s) then 1 else 0) &&
      Step(cfg, s).procs[j].InputOf() == s.procs[j].InputOf()
    ensures forall j :: 0 <= j < |s.procs| ==>
      Step(cfg, s).procs[j].startTime ==
        (if j == Runner(cfg, s) && s.procs[j].startTime == -1 then s.time else s.procs[j].startTime) &&
      Step(cfg, s).procs[j].lastExecution ==
        (if j == Runner(cfg, s) then s.time else s.procs[j].lastExecution)
  {
    var c := Prepared(cfg, s);
    var e := Executed(cfg, s);
    var t := Step(cfg, s);
    StepShape(cfg, s);
    PreparedFrame(cfg, s);
    ExecuteFrame(cfg, c);
    AccrueFrame(e);
    assert e == Execute(cfg, c).(time := c.time + 1);
    forall j | 0 <= j < |s.procs|
      ensures t.procs[j].remaining == s.procs[j].remaining - (if j == c.running then 1 else 0)
      ensures t.procs[j].InputOf() == s.procs[j].InputOf()
      ensures t.procs[j].startTime ==
        (if j == c.running && s.procs[j].startTime == -1 then s.time else s.procs[j].startTime)
      ensures t.procs[j].lastExecution == (if j == c.running then s.time else s.procs[j].lastExecution)
    {
      assert c.procs[j] == s.procs[j].(status := c.procs[j].status);
      assert t.procs[j] == e.procs[j].(waitingTime := t.procs[j].waitingTime);
    }
  }

  /** What occupied the CPU in the tick from `s`. */
  function TickSubject(cfg: Config, s: State): Gantt.Subject
    requires Indexed(s)
  {
    var c := Prepared(cfg, s);
    if c.running == -1 then Idle else Pid(c.procs[c.running].id)
  }

  /** The clock, the Gantt log and the busy counter after execution. */
  lemma ExecutedClock(cfg: Config, s: State)
    requires Indexed(s)
    ensures Executed(cfg, s).gantt == Log(s.gantt, TickSubject(cfg, s), s.time, s.time + 1)
    ensures Executed(cfg, s).busy == s.busy + (if Runner(cfg, s) == -1 then 0 else 1)
    ensures Executed(cfg, s).time == s.time + 1
  {
    var c := Prepared(cfg, s);
    assert c.time == s.time && c.gantt == s.gantt && c.busy == s.busy by { PreparedClock(cfg, s); }
    ExecuteClock(cfg, c, TickSubject(cfg, s));
  }

  /** Execution logs its subject for one tick and counts a busy tick
      exactly when a process runs. */
  lemma ExecuteClock(cfg: Config, c: State, x: Gantt.Subject)
    requires Indexed(c) && x == if c.running == -1 then Idle else Pid(c.procs[c.running].id)
    ensures Execute(cfg, c).gantt == Log(c.gantt, x, c.time, c.time + 1)
    ensures Execute(cfg, c).busy == c.busy + (if c.running == -1 then 0 else 1)
    ensures Execute(cfg, c).time == c.time
  {
  }

  /** The subject logged for a tick is the id of its runner. */
  lemma RunnerSubject(cfg: Config, s: State)
    requires Valid(cfg, s)
    ensures Runner(cfg, s) != -1 ==> TickSubject(cfg, s) == Pid(s.procs[Runner(cfg, s)].id)
  {
    var c := Prepared(cfg, s);
    if c.running != -1 {
      assert c.procs[c.running].id == s.procs[c.running].id by { PreparedFrame(cfg, s); }
    }
  }

  /** Execution logs the subject of the tick and counts a busy tick when a
      process ran. */
  lemma ExecutedLog(cfg: Config, s: State)
    requires Valid(cfg, s)
    ensures Executed(cfg, s).gantt == Log(s.gantt, TickSubject(cfg, s), s.time, s.time + 1)
    ensures Executed(cfg, s).busy == s.busy + (if Runner(cfg, s) == -1 then 0 else 1)
    ensures Executed(cfg, s).time == s.time + 1
    ensures Runner(cfg, s) != -1 ==> TickSubject(cfg, s) == Pid(s.procs[Runner(cfg, s)].id)
  {
    ExecutedClock(cfg, s);
    RunnerSubject(cfg, s);
  }

  /** Execution extends a valid timeline by exactly the subject of the tick. */
  lemma ExecutedTimeline(cfg: Config, s: State)
    requires Valid(cfg, s)
    ensures var e := Executed(cfg, s);
      Timeline(e.gantt, e.time) && Expand(e.gantt) == Expand(s.gantt) + [TickSubject(cfg, s)]
  {
    var e := Executed(cfg, s);
    var x := TickSubject(cfg, s);
    assert e.gantt == Log(s.gantt, x, s.time, s.time + 1) && e.time == s.time + 1 by {
      ExecutedLog(cfg, s);
    }
    assert Timeline(s.gantt, s.time);
    LogInto(s.gantt, s.time, x, e.gantt, e.time);
  }

  /** `LogTick` for a timeline `h` already known to be the logged one. */
  lemma LogInto(g: seq<Segment>, t: int, x: Gantt.Subject, h: seq<Segment>, u: int)
    requires Timeline(g, t) && h == Log(g, x, t, t + 1) && u == t + 1
    ensures Timeline(h, u) && Expand(h) == Expand(g) + [x]
  {
    LogTick(g, t, x);
  }

  /**
   * One tick appends exactly one subject to the Gantt timeline (the id of
   * the runner, or Idle, as `TickSubject` and `ExecutedLog` say); the busy
   * counter grows by one exactly when a process ran.
   */
  lemma StepLog(cfg: Config, s: State)
    requires Valid(cfg, s) && Live(s)
    ensures var t := Step(cfg, s);
      Timeline(t.gantt, t.time) &&
      Expand(t.gantt) == Expand(s.gantt) + [TickSubject(cfg, s)] &&
      t.busy == s.busy + (if Runner(cfg, s) == -1 then 0 else 1)
  {
    var e := Executed(cfg, s);
    var t := Step(cfg, s);
    assert t.gantt == e.gantt && t.busy == e.busy && t.time == e.time by {
      StepShape(cfg, s);
      AccrueFrame(e);
    }
    assert e.busy == s.busy + (if Runner(cfg, s) == -1 then 0 else 1) by {
      ExecutedLog(cfg, s);
    }
    ExecutedTimeline(cfg, s);
  }

  /** The busy counter never exceeds the clock, and equals it exactly when
      no tick of the log was idle. */
  lemma BusyBound(cfg: Config, s: State)
    requires Valid(cfg, s)
    ensures 0 <= s.busy <= s.time
    ensures s.busy == s.time <==> Idle !in Expand(s.gantt)
  {
    ExpandLength(s.gantt, s.time);
    AllBusy(Expand(s.gantt));
  }

  /** The utilization gauge of `updateSystemMonitor` shows 100% exactly when
      time has passed and the Gantt log has no idle tick. */
  lemma FullUtilization(cfg: Config, s: State)
    requires Valid(cfg, s)
    ensures 0 <= s.busy <= s.time
    ensures Utilization(s.busy, s.time) == 100.0 <==> s.time > 0 && Idle !in Expand(s.gantt)
  {
    BusyBound(cfg, s);
  }

  /** Waiting-time accrual never touches a completed record. */
  lemma AccrueSkipsCompleted(cfg: Config, x: State)
    requires Valid(cfg, x)
    ensures forall j :: 0 <= j < |x.procs| && x.procs[j].status == Completed ==>
      AccrueWaiting(x).procs[j] == x.procs[j]
  {
  }

  /** The completion count rises by one exactly when the runner had one unit
      of burst left, and otherwise stays. */
  lemma StepCount(cfg: Config, s: State)
    requires Valid(cfg, s) && Live(s)
    ensures Step(cfg, s).completed ==
      s.completed + (if Runner(cfg, s) != -1 && s.procs[Runner(cfg, s)].remaining == 1 then 1 else 0)
  {
    var c := Prepared(cfg, s);
    var e := Executed(cfg, s);
    StepShape(cfg, s);
    PreparedFrame(cfg, s);
    ExecuteFrame(cfg, c);
    AccrueFrame(e);
    assert e == Execute(cfg, c).(time := c.time + 1);
    if c.running != -1 {
      assert c.procs[c.running] == s.procs[c.running].(status := c.procs[c.running].status);
    }
  }

  /** In the executed state of a valid tick, accrual skips completed records. */
  lemma ExecutedAccrueSkips(cfg: Config, s: State)
    requires Valid(cfg, s)
    ensures forall j :: 0 <= j < |s.procs| && Executed(cfg, s).procs[j].status == Completed ==>
      AccrueWaiting(Executed(cfg, s)).procs[j] == Executed(cfg, s).procs[j]
  {
    ExecutedKeeps(cfg, s);
    AccrueSkipsCompleted(cfg, Executed(cfg, s));
  }

  /** A completed record never changes again. */
  lemma StepFrozen(cfg: Config, s: State)
    requires Valid(cfg, s) && Live(s)
    ensures forall j :: 0 <= j < |s.procs| && s.procs[j].status == Completed ==> Step(cfg, s).procs[j] == s.procs[j]
  {
    var c := Prepared(cfg, s);
    var e := Executed(cfg, s);
    StepShape(cfg, s);
    PreparedFrame(cfg, s);
    RunnerEligible(cfg, s);
    ExecuteFrame(cfg, c);
    assert e == Execute(cfg, c).(time := c.time + 1);
    ExecutedAccrueSkips(cfg, s);
  }

  /**
   * A process that completes in a tick is the runner; its completion time
   * is the new clock, its turnaround is completion minus arrival, and its
   * waiting time is turnaround minus burst, whatever it had accumulated.
   */
  lemma StepNewlyCompleted(cfg: Config, s: State, j: int)
    requires Valid(cfg, s) && Live(s) && 0 <= j < |s.procs|
    requires s.procs[j].status != Completed && Step(cfg, s).procs[j].status == Completed
    ensures j == Runner(cfg, s)
    ensures Step(cfg, s).procs[j].completionTime == Step(cfg, s).time
    ensures Step(cfg, s).procs[j].turnaroundTime == Step(cfg, s).time - s.procs[j].arrival
    ensures Step(cfg, s).procs[j].waitingTime == Step(cfg, s).procs[j].turnaroundTime - s.procs[j].burst
  {
    StepAt(cfg, s, j);
    CompletionTimeOfRunner(cfg, s);
  }

  /** What `StepWork` and the invariant say about one process. */
  lemma StepAt(cfg: Config, s: State, j: int)
    requires Valid(cfg, s) && Live(s) && 0 <= j < |s.procs|
    ensures Step(cfg, s).time == s.time + 1
    ensures Step(cfg, s).procs[j].remaining == s.procs[j].remaining - (if j == Runner(cfg, s) then 1 else 0)
    ensures Step(cfg, s).procs[j].InputOf() == s.procs[j].InputOf()
    ensures ProcOk(s.procs[j], s.time) && ProcOk(Step(cfg, s).procs[j], Step(cfg, s).time)
  {
    StepWork(cfg, s);
    StepKeeps(cfg, s);
  }

  /** The runner that uses its last unit completes at the new clock. */
  lemma CompletionTimeOfRunner(cfg: Config, s: State)
    requires Valid(cfg, s) && Live(s)
    ensures Runner(cfg, s) != -1 && s.procs[Runner(cfg, s)].remaining == 1 ==>
      Step(cfg, s).procs[Runner(cfg, s)].completionTime == s.time + 1
  {
    var c := Prepared(cfg, s);
    var e := Executed(cfg, s);
    StepShape(cfg, s);
    PreparedFrame(cfg, s);
    ExecuteFrame(cfg, c);
    AccrueFrame(e);
    assert e == Execute(cfg, c).(time := c.time + 1);
    if c.running != -1 {
      assert c.procs[c.running] == s.procs[c.running].(status := c.procs[c.running].status);
    }
  }

  /** Once every process has completed the step changes nothing. */
  lemma Terminal(cfg: Config, s: State)
    requires Valid(cfg, s) && |s.procs| > 0
    requires forall j :: 0 <= j < |s.procs| ==> s.procs[j].status == Completed
    ensures Finished(s) && Step(cfg, s) == s
  {
    CountFull(s.procs);
  }

  /** The simulation is finished exactly when every process has completed. */
  lemma FinishedIff(cfg: Config, s: State)
    requires Valid(cfg, s)
    ensures Finished(s) <==> |s.procs| > 0 && forall j :: 0 <= j < |s.procs| ==> s.procs[j].status == Completed
  {
    CountFull(s.procs);
  }

  /** The totals behind the averages: over the completed processes the
      turnaround total is the waiting total plus the burst total, and no
      completed process has a negative waiting time. */
  lemma TotalsSplit(cfg: Config, s: State)
    requires Valid(cfg, s)
    ensures TotalTurnaround(s.procs) == TotalWaiting(s.procs) + TotalBurst(s.procs)
    ensures forall j :: 0 <= j < |s.procs| && s.procs[j].status == Completed ==>
      s.procs[j].waitingTime >= 0 && s.procs[j].turnaroundTime >= s.procs[j].burst
  {
    forall j | 0 <= j < |s.procs| && s.procs[j].status == Completed
      ensures s.procs[j].waitingTime == s.procs[j].turnaroundTime - s.procs[j].burst
    {
      assert ProcOk(s.procs[j], s.time);
    }
    TurnaroundSplits(s.procs);
  }

  /** The averages panel: the average turnaround time is the average waiting
      time plus the average burst of the completed processes. */
  lemma AveragesSplit(cfg: Config, s: State)
    requires Valid(cfg, s)
    ensures var n := CountCompleted(s.procs);
      Mean(TotalTurnaround(s.procs), n) == Mean(TotalWaiting(s.procs), n) + Mean(TotalBurst(s.procs), n)
  {
    assert TotalTurnaround(s.procs) == TotalWaiting(s.procs) + TotalBurst(s.procs) by {
      TotalsSplit(cfg, s);
    }
    MeanAdds(TotalWaiting(s.procs), TotalBurst(s.procs), CountCompleted(s.procs));
  }

  // ------------------------------------------------------------ arrivals

  /** With no process arriving at the current time the arrivals loop changes
      nothing. */
  lemma {:induction false} NoArrivals(cfg: Config, s: State, i: nat)
    requires Indexed(s) && i <= |s.procs|
    requires forall j :: 0 <= j < |s.procs| ==> !Arrives(s.procs[j], s.time)
    ensures ArriveUpTo(cfg, s, i) == s
  {
    if i > 0 {
      NoArrivals(cfg, s, i - 1);
    }
  }

  /** Some process with index below `i` arrives now and beats the runner. */
  ghost predicate Beaten(cfg: Config, s: State, i: int)
    requires Indexed(s) && s.running != -1
  {
    exists j :: 0 <= j < i && j < |s.procs| &&
      Arrives(s.procs[j], s.time) && Preempts(cfg.alg, s.procs[j], s.procs[s.running])
  }

  /** The facts `PreemptUpTo` carries through the arrivals loop, for the
      state `a` after its first `i` iterations. */
  ghost predicate PreemptSoFar(cfg: Config, s: State, a: State, i: int)
    requires Indexed(s) && Indexed(a) && |a.procs| == |s.procs| && s.running != -1
  {
    (a.running == -1 <==> Beaten(cfg, s, i)) &&
    (a.running != -1 ==> a.running == s.running && a.procs[s.running] == s.procs[s.running]) &&
    (forall j :: 0 <= j < |s.procs| && i <= j ==> (Arrives(a.procs[j], s.time) <==> Arrives(s.procs[j], s.time)))
  }

  /** One iteration of the arrivals loop extends `PreemptSoFar` by one index. */
  lemma PreemptOne(cfg: Config, s: State, a: State, k: int, k1: int)
    requires Indexed(s) && Indexed(a) && |a.procs| == |s.procs| && a.time == s.time
    requires 0 <= k < |s.procs| && s.running != -1 && s.procs[s.running].status == Running
    requires StatusOnly(s.procs, a.procs) && PreemptSoFar(cfg, s, a, k) && k1 == k + 1
    ensures PreemptSoFar(cfg, s, ArriveAt(cfg, a, k), k1)
  {
    var R := s.running;
    var b := ArriveAt(cfg, a, k);
    assert a.procs[k] == s.procs[k].(status := a.procs[k].status);
    if a.running == -1 {
      var w :| 0 <= w < k && w < |s.procs| && Arrives(s.procs[w], s.time) &&
               Preempts(cfg.alg, s.procs[w], s.procs[R]);
      assert Beaten(cfg, s, k + 1);
    } else if Arrives(s.procs[k], s.time) && Preempts(cfg.alg, s.procs[k], s.procs[R]) {
      assert Beaten(cfg, s, k + 1);
    } else {
      assert !Beaten(cfg, s, k + 1) by {
        if Beaten(cfg, s, k + 1) {
          var w :| 0 <= w < k + 1 && w < |s.procs| && Arrives(s.procs[w], s.time) &&
                   Preempts(cfg.alg, s.procs[w], s.procs[R]);
          assert Beaten(cfg, s, k);
        }
      }
    }
  }

  /** The first `i` iterations of the arrivals loop preempt the runner exactly
      when one of the first `i` processes arrives and beats it; until then the
      runner's record is untouched, and later indices keep their arrival. */
  lemma {:induction false} PreemptUpTo(cfg: Config, s: State, i: nat)
    requires Indexed(s) && s.running != -1 && s.procs[s.running].status == Running && i <= |s.procs|
    requires forall k :: 0 <= k < i ==> StatusOnly(s.procs, ArriveUpTo(cfg, s, k).procs)
    ensures PreemptSoFar(cfg, s, ArriveUpTo(cfg, s, i), i)
  {
    if i > 0 {
      var a := ArriveUpTo(cfg, s, i - 1);
      PreemptUpTo(cfg, s, i - 1);
      PreemptOne(cfg, s, a, i - 1, i);
      PreemptStep(cfg, s, i);
    }
  }

  /** The state after iteration `i - 1` is the state after `i` iterations. */
  lemma PreemptStep(cfg: Config, s: State, i: nat)
    requires Indexed(s) && s.running != -1 && 0 < i <= |s.procs|
    requires PreemptSoFar(cfg, s, ArriveAt(cfg, ArriveUpTo(cfg, s, i - 1), i - 1), i)
    ensures PreemptSoFar(cfg, s, ArriveUpTo(cfg, s, i), i)
  {
  }

  /**
   * Preemption on arrival: the arrivals phase takes the CPU from the runner
   * exactly when a process arriving now beats it strictly (smaller
   * remaining burst under SRTF, smaller priority number under preemptive
   * priority); a tie never preempts, and the other policies never do.
   */
  lemma ArrivalsPreempt(cfg: Config, s: State)
    requires Valid(cfg, s)
    ensures Arrivals(cfg, s).running != s.running <==>
      s.running != -1 &&
      exists j :: 0 <= j < |s.procs| && Arrives(s.procs[j], s.time) &&
        Preempts(cfg.alg, s.procs[j], s.procs[s.running])
    ensures Arrivals(cfg, s).running == s.running && s.running != -1 ==>
      Arrivals(cfg, s).procs[s.running] == s.procs[s.running] && Arrivals(cfg, s).slice == s.slice
  {
    if s.running != -1 {
      forall k | 0 <= k < |s.procs| ensures StatusOnly(s.procs, ArriveUpTo(cfg, s, k).procs) {
        ArriveUpToFrame(cfg, s, k);
      }
      PreemptUpTo(cfg, s, |s.procs|);
    }
  }

  /** The arrivals phase for one process `j`, from the facts the invariants
      give about `j` before (`s`) and after (`a`) it: `j` joins the queue
      exactly when it arrives now or is the preempted runner, and an arriving
      process becomes Ready. */
  lemma NewcomerAt(s: State, a: State, j: int)
    requires 0 <= j < |s.procs| == |a.procs| && a.time == s.time
    requires -1 <= s.running && -1 <= a.running && (a.running == s.running || a.running == -1)
    requires |s.queue| <= |a.queue| && a.queue[..|s.queue|] == s.queue && NoDup(a.queue)
    requires ProcOk(s.procs[j], s.time) && ProcOk(a.procs[j], s.time)
    requires a.procs[j] == s.procs[j].(status := a.procs[j].status)
    requires s.procs[j].status == Completed ==> a.procs[j] == s.procs[j]
    requires s.procs[j].status == Waiting <==> s.procs[j].arrival >= s.time
    requires a.procs[j].status == Waiting <==> a.procs[j].arrival > s.time
    requires (s.procs[j].status == Ready <==> j in s.queue) && (s.procs[j].status == Running <==> j == s.running)
    requires (a.procs[j].status == Ready <==> j in a.queue) && (a.procs[j].status == Running <==> j == a.running)
    ensures j in a.queue[|s.queue|..] <==>
      Arrives(s.procs[j], s.time) || (j == s.running && a.running == -1 && s.running != -1)
    ensures Arrives(s.procs[j], s.time) ==> a.procs[j].status == Ready
  {
    var n := |s.queue|;
    assert a.queue == a.queue[..n] + a.queue[n..];
    if j in s.queue {
      var q :| 0 <= q < n && s.queue[q] == j;
      assert a.queue[q] == j;
    }
    if a.procs[j].status == Ready && j !in s.queue {
      var p :| 0 <= p < |a.queue| && a.queue[p] == j;
      assert p >= n;
      assert j in a.queue[n..];
    }
  }

  /** The processes among indices `[lo, hi)` that arrive at time `t`, in
      index order. */
  ghost function ArrivingIn(ps: seq<Proc>, t: int, lo: int, hi: int): seq<int>
    requires 0 <= lo <= hi <= |ps|
    decreases hi - lo
  {
    if lo == hi then []
    else ArrivingIn(ps, t, lo, hi - 1) + (if Arrives(ps[hi - 1], t) then [hi - 1] else [])
  }

  /** Process `j` arrives now and takes the CPU from the runner. */
  ghost predicate Beats(cfg: Config, s: State, j: int)
    requires Indexed(s) && 0 <= j < |s.procs|
  {
    s.running != -1 && Arrives(s.procs[j], s.time) && Preempts(cfg.alg, s.procs[j], s.procs[s.running])
  }

  /** The first index below `i` whose arrival takes the CPU from the runner,
      or -1 if there is none. */
  ghost function FirstBeater(cfg: Config, s: State, i: nat): (f: int)
    requires Indexed(s) && i <= |s.procs|
    ensures -1 <= f < i
  {
    if i == 0 then -1
    else
      var f := FirstBeater(cfg, s, i - 1);
      if f != -1 then f else if Beats(cfg, s, i - 1) then i - 1 else -1
  }

  /** What the first `i` iterations of the arrivals loop append to the ready
      queue: the processes arriving now in index order, with a preempted
      runner right after the newcomer that beat it. */
  ghost function Appended(cfg: Config, s: State, i: nat): seq<int>
    requires Indexed(s) && i <= |s.procs|
  {
    var f := FirstBeater(cfg, s, i);
    if f == -1 then ArrivingIn(s.procs, s.time, 0, i)
    else ArrivingIn(s.procs, s.time, 0, f + 1) + [s.running] + ArrivingIn(s.procs, s.time, f + 1, i)
  }

  /** The facts `QueueUpTo` carries through the arrivals loop, for the state
      `a` after its first `i` iterations. */
  ghost predicate QueueSoFar(cfg: Config, s: State, a: State, i: int)
    requires Indexed(s) && Indexed(a) && |a.procs| == |s.procs| && 0 <= i <= |s.procs|
  {
    a.time == s.time &&
    a.queue == s.queue + Appended(cfg, s, i) &&
    a.running == (if FirstBeater(cfg, s, i) == -1 then s.running else -1) &&
    (a.running != -1 ==> a.procs[a.running] == s.procs[a.running] && a.running !in a.queue) &&
    (s.running != -1 ==> a.procs[s.running].status != Waiting) &&
    (forall j :: i <= j < |s.procs| && j != s.running ==> a.procs[j] == s.procs[j])
  }

  /** One more index extends `Appended` by that index when it arrives now,
      followed by the runner when it is the first newcomer to beat it. */
  lemma AppendedNext(cfg: Config, s: State, k: int, k1: int)
    requires Indexed(s) && 0 <= k < |s.procs| && k1 == k + 1
    ensures var f := FirstBeater(cfg, s, k);
      FirstBeater(cfg, s, k1) == (if f != -1 then f else if Beats(cfg, s, k) then k else -1) &&
      Appended(cfg, s, k1) == Appended(cfg, s, k) + (if Arrives(s.procs[k], s.time) then [k] else []) +
        (if f == -1 && Beats(cfg, s, k) then [s.running] else [])
  {
    var ps, t, R := s.procs, s.time, s.running;
    var f := FirstBeater(cfg, s, k);
    var tail := if Arrives(ps[k], t) then [k] else [];
    if f != -1 {
      assert FirstBeater(cfg, s, k1) == f;
      var pre := ArrivingIn(ps, t, 0, f + 1) + [R];
      assert ArrivingIn(ps, t, f + 1, k1) == ArrivingIn(ps, t, f + 1, k) + tail;
      assert Appended(cfg, s, k1) == pre + (ArrivingIn(ps, t, f + 1, k) + tail);
      assert Appended(cfg, s, k) == pre + ArrivingIn(ps, t, f + 1, k);
    } else {
      assert ArrivingIn(ps, t, 0, k1) == ArrivingIn(ps, t, 0, k) + tail;
      if Beats(cfg, s, k) {
        assert FirstBeater(cfg, s, k1) == k;
        assert ArrivingIn(ps, t, k1, k1) == [];
        assert Appended(cfg, s, k1) == ArrivingIn(ps, t, 0, k1) + [R] + [];
      } else {
        assert FirstBeater(cfg, s, k1) == -1;
      }
    }
  }

  /** One iteration of the arrivals loop extends `QueueSoFar` by one index. */
  lemma QueueOne(cfg: Config, s: State, a: State, k: int, k1: int)
    requires Indexed(s) && Indexed(a) && |a.procs| == |s.procs| && 0 <= k < |s.procs| && k1 == k + 1
    requires s.running != -1 ==> s.procs[s.running].status == Running
    requires QueueSoFar(cfg, s, a, k)
    ensures QueueSoFar(cfg, s, ArriveAt(cfg, a, k), k1)
  {
    var ps, t, R := s.procs, s.time, s.running;
    var b := ArriveAt(cfg, a, k);
    AppendedNext(cfg, s, k, k1);
    if Arrives(ps[k], t) {
      assert k != R;
      assert a.procs[k] == ps[k];
      if PreemptsOnArrival(cfg.alg) && a.running != -1 && Preempts(cfg.alg, ps[k], ps[R]) {
        assert Beats(cfg, s, k);
        assert b.queue == a.queue + [k] + [R];
      } else {
        assert !Beats(cfg, s, k) || FirstBeater(cfg, s, k) != -1;
        assert b.queue == a.queue + [k];
      }
    } else {
      assert !Arrives(a.procs[k], t);
      assert b == a;
    }
  }

  /** The state after iteration `i - 1` is the state after `i` iterations. */
  lemma QueueStep(cfg: Config, s: State, i: nat)
    requires Indexed(s) && 0 < i <= |s.procs|
    requires QueueSoFar(cfg, s, ArriveAt(cfg, ArriveUpTo(cfg, s, i - 1), i - 1), i)
    ensures QueueSoFar(cfg, s, ArriveUpTo(cfg, s, i), i)
  {
  }

  /** The first `i` iterations of the arrivals loop append `Appended(i)` to
      the ready queue, and free the CPU exactly when some newcomer beat the
      runner. */
  lemma {:induction false} QueueUpTo(cfg: Config, s: State, i: nat)
    requires Indexed(s) && i <= |s.procs|
    requires s.running != -1 ==> s.procs[s.running].status == Running && s.running !in s.queue
    ensures QueueSoFar(cfg, s, ArriveUpTo(cfg, s, i), i)
  {
    if i == 0 {
      assert s.queue + [] == s.queue;
    } else {
      QueueUpTo(cfg, s, i - 1);
      QueueOne(cfg, s, ArriveUpTo(cfg, s, i - 1), i - 1, i);
      QueueStep(cfg, s, i);
    }
  }

  /** Without a runner, or under a policy that does not preempt on arrival,
      no newcomer beats anyone. */
  lemma {:induction false} NoBeater(cfg: Config, s: State, i: nat)
    requires Indexed(s) && i <= |s.procs|
    requires s.running == -1 || !PreemptsOnArrival(cfg.alg)
    ensures FirstBeater(cfg, s, i) == -1
  {
    if i > 0 {
      NoBeater(cfg, s, i - 1);
    }
  }

  /**
   * The arrivals phase keeps the old queue as a prefix and appends exactly
   * the processes arriving now and, if it was preempted, the runner; every
   * arriving process ends up Ready.
   */
  lemma ArrivalsQueue(cfg: Config, s: State)
    requires Valid(cfg, s)
    ensures |s.queue| <= |Arrivals(cfg, s).queue| && Arrivals(cfg, s).queue[..|s.queue|] == s.queue
    ensures forall j :: 0 <= j < |s.procs| ==>
      (j in Arrivals(cfg, s).queue[|s.queue|..] <==>
         Arrives(s.procs[j], s.time) || (j == s.running && Arrivals(cfg, s).running == -1 && s.running != -1))
    ensures forall j :: 0 <= j < |s.procs| && Arrives(s.procs[j], s.time) ==> Arrivals(cfg, s).procs[j].status == Ready
    ensures Arrivals(cfg, s).queue == s.queue + Appended(cfg, s, |s.procs|)
    ensures s.running == -1 || !PreemptsOnArrival(cfg.alg) ==>
      Arrivals(cfg, s).queue == s.queue + ArrivingIn(s.procs, s.time, 0, |s.procs|)
  {
    var a := Arrivals(cfg, s);
    ArrivalsOrder(cfg, s);
    ArriveUpToFrame(cfg, s, |s.procs|);
    ArriveUpToKeeps(cfg, s, |s.procs|);
    ArrivalsPreempt(cfg, s);
    forall j | 0 <= j < |s.procs|
      ensures j in a.queue[|s.queue|..] <==>
        Arrives(s.procs[j], s.time) || (j == s.running && a.running == -1 && s.running != -1)
      ensures Arrives(s.procs[j], s.time) ==> a.procs[j].status == Ready
    {
      NewcomerAt(s, a, j);
    }
  }

  /** The order in which the arrivals phase appends to the ready queue. */
  lemma ArrivalsOrder(cfg: Config, s: State)
    requires Valid(cfg, s)
    ensures Arrivals(cfg, s).queue == s.queue + Appended(cfg, s, |s.procs|)
    ensures s.running == -1 || !PreemptsOnArrival(cfg.alg) ==>
      Arrivals(cfg, s).queue == s.queue + ArrivingIn(s.procs, s.time, 0, |s.procs|)
  {
    if s.running != -1 {
      assert s.procs[s.running].status == Running;
      assert s.running !in s.queue;
    }
    QueueUpTo(cfg, s, |s.procs|);
    if s.running == -1 || !PreemptsOnArrival(cfg.alg) {
      NoBeater(cfg, s, |s.procs|);
    }
  }

  // ------------------------------------------------------------ scheduling

  /** Nobody arrives at the current time. */
  predicate NoneArrive(s: State)
  {
    forall j :: 0 <= j < |s.procs| ==> !Arrives(s.procs[j], s.time)
  }

  /**
   * Under FCFS, SJF and non-preemptive priority a running process keeps the
   * CPU until it completes; under Round Robin it keeps it while its quantum
   * lasts (the invariant keeps the slice below the quantum between ticks).
   */
  lemma KeepsCPU(cfg: Config, s: State)
    requires Valid(cfg, s) && s.running != -1
    requires NonPreemptive(cfg.alg) || cfg.alg == RR
    ensures Runner(cfg, s) == s.running && Prepared(cfg, s) == Arrivals(cfg, s)
  {
    var a := Arrivals(cfg, s);
    ArrivalsPreempt(cfg, s);
    assert a.running == s.running;
    assert Continues(cfg, a);
  }

  /** What selection and the context switch leave when a lone runner under
      SRTF or preemptive priority meets an empty queue and no arrival. */
  lemma LonePrepared(cfg: Config, s: State)
    requires Valid(cfg, s) && PreemptsOnArrival(cfg.alg) && s.running != -1
    requires s.queue == [] && NoneArrive(s)
    ensures Prepared(cfg, s) == Release(s)
  {
    assert Arrivals(cfg, s) == s by { NoArrivals(cfg, s, |s.procs|); }
    EmptyDispatch(cfg, s);
  }

  /**
   * The lone-runner quirk of SRTF and preemptive priority: the fast path of
   * the selection never applies to them and the running process is not in
   * the queue, so with nothing queued and no arrival the CPU idles for the
   * tick, the runner goes back to the queue as Ready and is charged one unit
   * of waiting.
   */
  lemma LoneRunnerIdles(cfg: Config, s: State)
    requires Valid(cfg, s) && Live(s) && PreemptsOnArrival(cfg.alg) && s.running != -1
    requires s.queue == [] && NoneArrive(s)
    ensures Runner(cfg, s) == -1
    ensures var t, r := Step(cfg, s), s.running;
      t.running == -1 && t.queue == [r] && t.procs[r].status == Ready &&
      t.procs[r].remaining == s.procs[r].remaining &&
      t.procs[r].waitingTime == s.procs[r].waitingTime + 1
  {
    var r := s.running;
    LonePrepared(cfg, s);
    var c := Release(s);
    var e := Executed(cfg, s);
    assert e == c.(gantt := Log(c.gantt, Idle, c.time, c.time + 1), time := c.time + 1);
    StepShape(cfg, s);
    assert r in e.queue;
  }

  /** With the CPU free, a single queued process and no arrival, that process
      is dispatched, whatever the policy. */
  lemma ResumeAfterIdle(cfg: Config, s: State)
    requires Valid(cfg, s) && s.running == -1 && |s.queue| == 1 && NoneArrive(s)
    ensures Runner(cfg, s) == s.queue[0]
  {
    assert Arrivals(cfg, s) == s by { NoArrivals(cfg, s, |s.procs|); }
  }

  /** A lone runner under SRTF or preemptive priority alternates: after the
      idle tick it is dispatched again unless somebody arrives. */
  lemma LoneRunnerAlternates(cfg: Config, s: State)
    requires Valid(cfg, s) && Live(s) && PreemptsOnArrival(cfg.alg) && s.running != -1
    requires s.queue == [] && NoneArrive(s) && NoneArrive(Step(cfg, s))
    ensures Runner(cfg, s) == -1 && Runner(cfg, Step(cfg, s)) == s.running
  {
    LoneRunnerIdles(cfg, s);
    StepKeeps(cfg, s);
    ResumeAfterIdle(cfg, Step(cfg, s));
  }

  /**
   * Under SRTF and preemptive priority the fast path of the selection never
   * applies, so a running process that no arrival preempted still hands the
   * CPU to the best queued process whenever the queue is not empty, even to
   * one whose key is worse than its own, and goes back to the queue as Ready.
   */
  lemma RunnerHandedBack(cfg: Config, s: State)
    requires Valid(cfg, s) && PreemptsOnArrival(cfg.alg) && s.running != -1
    requires Arrivals(cfg, s).running == s.running && Arrivals(cfg, s).queue != []
    ensures var a, r := Arrivals(cfg, s), Runner(cfg, s);
      r in a.queue && r != s.running &&
      Prepared(cfg, s).queue == RemoveAt(a.queue, IndexOf(a.queue, r)) + [s.running]
    ensures Prepared(cfg, s).procs[s.running] == s.procs[s.running].(status := Ready)
  {
    var a := Arrivals(cfg, s);
    ArrivalsPreempt(cfg, s);
    assert a.procs[s.running] == s.procs[s.running];
    assert Core(cfg, a, |s.procs|) && Settled(cfg, a) by { ArriveUpToKeeps(cfg, s, |s.procs|); }
    assert a.procs[s.running].status == Running;
    assert s.running !in a.queue;
    SelectChoice(cfg, a);
  }

  /**
   * The execution phase of a Round Robin tick whose quantum runs out, whether
   * the runner kept the CPU from the previous tick or was dispatched just now
   * (with a quantum of 1 every dispatch expires at once).
   */
  lemma ExpiryExecuted(cfg: Config, s: State)
    requires Valid(cfg, s) && cfg.alg == RR && Runner(cfg, s) != -1
    requires Prepared(cfg, s).slice + 1 >= cfg.quantum && s.procs[Runner(cfg, s)].remaining > 1
    ensures var e, c, r := Executed(cfg, s), Prepared(cfg, s), Runner(cfg, s);
      e.running == -1 && e.slice == 0 && r !in c.queue && e.queue == c.queue + [r] &&
      e.procs[r] == RunOnce(s.procs[r], s.time).(status := Ready)
    ensures s.running != -1 ==>
      Runner(cfg, s) == s.running && Prepared(cfg, s).queue == Arrivals(cfg, s).queue
  {
    var c := Prepared(cfg, s);
    var r := c.running;
    assert r !in c.queue by { PreparedKeeps(cfg, s); }
    assert c.procs[r] == s.procs[r].(status := c.procs[r].status) && c.time == s.time by {
      PreparedFrame(cfg, s);
    }
    ExpireRun(cfg, c);
    if s.running != -1 {
      KeepsCPU(cfg, s);
    }
  }

  /** Execution of a Round Robin runner whose slice reaches the quantum with
      burst left: it is requeued at the back as Ready and the CPU is freed. */
  lemma ExpireRun(cfg: Config, c: State)
    requires Indexed(c) && cfg.alg == RR && c.running != -1 && c.running !in c.queue
    requires c.slice + 1 >= cfg.quantum && c.procs[c.running].remaining > 1
    ensures var e, r := Execute(cfg, c), c.running;
      e.running == -1 && e.slice == 0 && e.queue == c.queue + [r] &&
      e.procs[r] == RunOnce(c.procs[r], c.time).(status := Ready)
  {
  }

  /**
   * Round Robin quantum expiry: a process that uses up its quantum in this
   * tick and still has burst left goes to the back of the queue as Ready and
   * the CPU is freed. Because the waiting-time pass runs after the requeue,
   * the process is charged one unit of waiting for the tick it ran. A runner
   * carried over from the previous tick lands behind this tick's arrivals.
   */
  lemma QuantumExpiry(cfg: Config, s: State)
    requires Valid(cfg, s) && Live(s) && cfg.alg == RR && Runner(cfg, s) != -1
    requires Prepared(cfg, s).slice + 1 >= cfg.quantum && s.procs[Runner(cfg, s)].remaining > 1
    ensures var t, r := Step(cfg, s), Runner(cfg, s);
      t.running == -1 && t.slice == 0 && t.queue == Prepared(cfg, s).queue + [r] &&
      t.procs[r].status == Ready &&
      t.procs[r].remaining == s.procs[r].remaining - 1 &&
      t.procs[r].waitingTime == s.procs[r].waitingTime + 1
    ensures s.running != -1 ==> Step(cfg, s).queue == Arrivals(cfg, s).queue + [s.running]
  {
    var r := Runner(cfg, s);
    var e := Executed(cfg, s);
    ExpiryExecuted(cfg, s);
    StepShape(cfg, s);
    assert r in e.queue;
  }

  /**
   * Selection when the fast path does not apply and the queue is not empty:
   * the chosen index is taken off the queue and nothing else is, the other
   * entries keeping their order; Round Robin
   * takes the head, every other policy the first queued process whose key is
   * minimal, so no queued process has a smaller key and every one before it
   * has a larger one.
   */
  lemma SelectChoice(cfg: Config, s: State)
    requires Indexed(s) && NoDup(s.queue) && !Continues(cfg, s) && s.queue != []
    ensures var sel, q := Select(cfg, s).0, Select(cfg, s).1;
      sel in s.queue && NoDup(q) && |q| == |s.queue| - 1 &&
      (forall x :: x in q <==> x in s.queue && x != sel)
    ensures Select(cfg, s).1 == RemoveAt(s.queue, IndexOf(s.queue, Select(cfg, s).0))
    ensures cfg.alg == RR ==> Select(cfg, s).0 == s.queue[0] && Select(cfg, s).1 == s.queue[1..]
    ensures cfg.alg != RR ==>
      IsFirstMin(KeysOf(cfg.alg, s.procs, s.queue), IndexOf(s.queue, Select(cfg, s).0))
  {
    var k := ChosenPos(cfg.alg, s.procs, s.queue);
    var sel := s.queue[k];
    assert IndexOf(s.queue, sel) == k by {
      var i := IndexOf(s.queue, sel);
      assert s.queue[i] == sel;
    }
    RemoveAtMembers(s.queue, k);
  }

  /** The fast path: a process that keeps the CPU is selected again and the
      queue is left alone; with nothing to keep and nothing queued the CPU
      is left free. */
  lemma SelectFastPath(cfg: Config, s: State)
    requires Indexed(s)
    ensures Continues(cfg, s) ==> Select(cfg, s) == (s.running, s.queue)
    ensures !Continues(cfg, s) && s.queue == [] ==> Select(cfg, s) == (-1, [])
    ensures Select(cfg, s).0 == -1 <==> !Continues(cfg, s) && s.queue == []
  {
    if !Continues(cfg, s) && s.queue != [] {
      var k := ChosenPos(cfg.alg, s.procs, s.queue);
      assert InRange(s.queue, |s.procs|);
      assert s.queue[k] >= 0;
    }
  }
}
