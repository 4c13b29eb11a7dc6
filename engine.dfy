/**
 * The tick function of script.js as a function on values. `State` gathers
 * the globals `simulationStep` reads and writes; one function per phase of
 * a tick mirrors the source, and `Step` composes them in the source's order:
 * arrivals, selection, context switch, execution (with completion or Round
 * Robin requeue), waiting-time accrual, ready-status refresh, clock advance.
 * The class `Simulator.Simulator` is proved to compute exactly these
 * functions; the invariants and properties are proved about them.
 */
module Engine {
  import opened Records
  import opened ReadyQueue
  import opened Policy
  import opened Gantt
  import opened Metrics

  /** The algorithm selector and `timeQuantum`; both are fixed for a run
      (changing either resets the simulation). */
  datatype Config = Config(alg: Algorithm, quantum: int)

  /** `currentTime`, `completedProcesses`, `readyQueue`, `runningProcessIndex`
      (-1 for none), `currentQuantumSlice`, `totalCpuBusyTime`, `ganttLog`
      and the process records. */
  datatype State = State(
    time: int, completed: int, queue: seq<int>, running: int,
    slice: int, busy: int, gantt: seq<Segment>, procs: seq<Proc>)

  /** The indices the state holds point into the process table. */
  predicate Indexed(s: State)
  {
    -1 <= s.running < |s.procs| && InRange(s.queue, |s.procs|)
  }

  /** The state a run starts from (`startSimulation` after validation). */
  function Initial(ins: seq<Input>): State
  {
    State(0, 0, [], -1, 0, 0, [], seq(|ins|, i requires 0 <= i < |ins| => NewProcess(ins[i])))
  }

  /** `resetSimulationState`: clear the globals and `reset()` every process. */
  function ResetState(s: State): State
  {
    State(0, 0, [], -1, 0, 0, [], seq(|s.procs|, i requires 0 <= i < |s.procs| => s.procs[i].Reset()))
  }

  // ---------------------------------------------------------------- arrivals

  /** Process `p` arrives in this tick. */
  predicate Arrives(p: Proc, t: int)
  {
    p.arrival == t && p.status == Waiting
  }

  /** Under SRTF a newcomer preempts when its remaining burst is strictly
      smaller; under preemptive priority when its priority number is. */
  predicate Preempts(alg: Algorithm, newcomer: Proc, current: Proc)
  {
    (alg == SRTF && newcomer.remaining < current.remaining) ||
    (alg == PriorityP && newcomer.priority < current.priority)
  }

  /** One iteration (index `i`) of the loop in `checkProcessArrivals`. */
  function ArriveAt(cfg: Config, s: State, i: int): (r: State)
    requires Indexed(s) && 0 <= i < |s.procs|
    ensures Indexed(r) && |r.procs| == |s.procs|
    ensures r.running == s.running || r.running == -1
    ensures r.slice == s.slice || (r.running == -1 && r.slice == 0)
    ensures r.time == s.time && r.completed == s.completed && r.busy == s.busy && r.gantt == s.gantt
  {
    var p := s.procs[i];
    if p.arrival == s.time && p.status == Waiting then
      var s1 := s.(procs := s.procs[i := p.(status := Ready)], queue := s.queue + [i]);
      if PreemptsOnArrival(cfg.alg) && s1.running != -1 then
        var cur := s1.procs[s1.running];
        if Preempts(cfg.alg, s1.procs[i], cur) then
          s1.(procs := s1.procs[s1.running := cur.(status := Ready)],
              queue := if s1.running in s1.queue then s1.queue else s1.queue + [s1.running],
              running := -1, slice := 0)
        else s1
      else s1
    else s
  }

  /** The first `i` iterations of the arrivals loop. */
  function ArriveUpTo(cfg: Config, s: State, i: nat): (r: State)
    requires Indexed(s) && i <= |s.procs|
    ensures Indexed(r) && |r.procs| == |s.procs|
    ensures r.running == s.running || r.running == -1
    ensures r.slice == s.slice || (r.running == -1 && r.slice == 0)
    ensures r.time == s.time && r.completed == s.completed && r.busy == s.busy && r.gantt == s.gantt
  {
    if i == 0 then s else ArriveAt(cfg, ArriveUpTo(cfg, s, i - 1), i - 1)
  }

  /** `checkProcessArrivals`. */
  function Arrivals(cfg: Config, s: State): (r: State)
    requires Indexed(s)
    ensures Indexed(r) && |r.procs| == |s.procs|
    ensures r.running == s.running || r.running == -1
    ensures r.slice == s.slice || (r.running == -1 && r.slice == 0)
    ensures r.time == s.time && r.completed == s.completed && r.busy == s.busy && r.gantt == s.gantt
  {
    ArriveUpTo(cfg, s, |s.procs|)
  }

  // ---------------------------------------------------------------- selection

  /** The fast path of `selectNextProcessToRun`: a running process keeps the
      CPU under a non-preemptive policy, or under Round Robin while its
      quantum lasts. */
  predicate Continues(cfg: Config, s: State)
    requires Indexed(s)
  {
    s.running != -1 && s.procs[s.running].status == Running &&
    (NonPreemptive(cfg.alg) || (cfg.alg == RR && s.slice < cfg.quantum))
  }

  /** `selectNextProcessToRun`: the index to run (-1 for none) and the ready
      queue after the chosen entry is spliced out. */
  function Select(cfg: Config, s: State): (r: (int, seq<int>))
    requires Indexed(s)
    ensures -1 <= r.0 < |s.procs| && InRange(r.1, |s.procs|)
  {
    if Continues(cfg, s) then (s.running, s.queue)
    else if s.queue == [] then (-1, s.queue)
    else
      var sel := s.queue[ChosenPos(cfg.alg, s.procs, s.queue)];
      (sel, SpliceOut(s.queue, sel))
  }

  /** `runningProcessIndex = selectNextProcessToRun()`. */
  function Dispatch(cfg: Config, s: State): (r: State)
    requires Indexed(s)
    ensures Indexed(r) && r.procs == s.procs
  {
    var sel := Select(cfg, s);
    s.(running := sel.0, queue := sel.1)
  }

  /** The context switch after selection: a previous process still marked
      Running goes back to Ready and onto the queue if absent; the quantum
      slice restarts. */
  function ContextSwitch(s: State, prev: int): (r: State)
    requires Indexed(s) && -1 <= prev < |s.procs|
    ensures Indexed(r) && |r.procs| == |s.procs| && r.running == s.running
  {
    if prev != s.running && prev != -1 then
      var s1 :=
        if s.procs[prev].status == Running then
          s.(procs := s.procs[prev := s.procs[prev].(status := Ready)],
             queue := if prev in s.queue then s.queue else s.queue + [prev])
        else s;
      s1.(slice := 0)
    else s
  }

  // ---------------------------------------------------------------- execution

  /** One tick on the CPU: first start recorded, status Running, one unit of
      burst consumed, last execution time noted. */
  function RunOnce(p: Proc, t: int): Proc
  {
    var p1 := if p.startTime == -1 then p.(startTime := t) else p;
    p1.(status := Running, remaining := p1.remaining - 1, lastExecution := t)
  }

  /** The completion bookkeeping of a process whose burst ran out in tick `t`;
      the accumulated waiting time is overwritten by the formula. */
  function Complete(p: Proc, t: int): Proc
  {
    var ct := t + 1;
    var tat := ct - p.arrival;
    var w := tat - p.burst;
    p.(completionTime := ct, turnaroundTime := tat, waitingTime := if w < 0 then 0 else w,
       status := Completed)
  }

  /** Execution, completion and Round Robin requeue for the current tick. */
  function Execute(cfg: Config, s: State): (r: State)
    requires Indexed(s)
    ensures Indexed(r) && |r.procs| == |s.procs| && r.time == s.time
  {
    if s.running != -1 then
      var p := RunOnce(s.procs[s.running], s.time);
      var s1 := s.(procs := s.procs[s.running := p], busy := s.busy + 1, slice := s.slice + 1,
                   gantt := Log(s.gantt, Pid(p.id), s.time, s.time + 1));
      if p.remaining == 0 then
        var s2 := s1.(procs := s1.procs[s.running := Complete(p, s.time)],
                      completed := s1.completed + 1, running := -1, slice := 0);
        // the lookup uses runningProcessIndex after it was cleared
        s2.(queue := SpliceOut(s2.queue, s2.running))
      else if cfg.alg == RR && s1.slice >= cfg.quantum then
        s1.(procs := s1.procs[s.running := p.(status := Ready)],
            queue := s1.queue + [s.running], running := -1, slice := 0)
      else s1
    else
      s.(gantt := Log(s.gantt, Idle, s.time, s.time + 1))
  }

  // ---------------------------------------------------------------- bookkeeping

  /** Every queued process other than the running one waited this tick. */
  function AccrueWaiting(s: State): (r: State)
    requires Indexed(s)
    ensures Indexed(r) && |r.procs| == |s.procs|
  {
    s.(procs := seq(|s.procs|, i requires 0 <= i < |s.procs| =>
         if i in s.queue && i != s.running then s.procs[i].(waitingTime := s.procs[i].waitingTime + 1)
         else s.procs[i]))
  }

  /** Queued processes that are neither Running nor Completed are marked Ready. */
  function RefreshReady(s: State): (r: State)
    requires Indexed(s)
    ensures Indexed(r) && |r.procs| == |s.procs|
  {
    s.(procs := seq(|s.procs|, i requires 0 <= i < |s.procs| =>
         if i in s.queue && s.procs[i].status != Running && s.procs[i].status != Completed
         then s.procs[i].(status := Ready)
         else s.procs[i]))
  }

  /** One full tick, phases in the order of `simulationStep`. */
  function Tick(cfg: Config, s: State): (r: State)
    requires Indexed(s)
    ensures Indexed(r) && |r.procs| == |s.procs|
  {
    var a := Arrivals(cfg, s);
    var d := Dispatch(cfg, a);
    var c := ContextSwitch(d, a.running);
    var e := Execute(cfg, c);
    var w := RefreshReady(AccrueWaiting(e));
    w.(time := w.time + 1)
  }

  /** All processes are done; `finishSimulation` is called. */
  predicate Finished(s: State)
  {
    |s.procs| > 0 && s.completed >= |s.procs|
  }

  /** `simulationStep`: nothing happens without processes or once all of them
      have completed; otherwise one tick. */
  function Step(cfg: Config, s: State): (r: State)
    requires Indexed(s)
    ensures Indexed(r) && |r.procs| == |s.procs|
  {
    if |s.procs| == 0 || s.completed >= |s.procs| then s else Tick(cfg, s)
  }

  // ---------------------------------------------------------------- invariant

  /**
   * The per-process facts that hold between ticks at time `t`: the inputs
   * are valid, the remaining burst stays in `[0, burst]`, a process has
   * started exactly when it has consumed burst, it cannot have run more
   * ticks than have passed since its arrival, and the completion metrics
   * satisfy `turnaround = completion - arrival`, `waiting = turnaround - burst`.
   */
  ghost predicate ProcOk(p: Proc, t: int)
  {
    p.arrival >= 0 && p.burst > 0 && p.priority >= 0 &&
    0 <= p.remaining <= p.burst &&
    (p.status == Completed <==> p.remaining == 0) &&
    (p.status == Waiting ==> p.remaining == p.burst) &&
    (p.startTime == -1 <==> p.remaining == p.burst) &&
    (p.startTime != -1 ==> p.arrival <= p.startTime < t) &&
    (p.status != Waiting ==> p.burst - p.remaining <= t - p.arrival) &&
    p.waitingTime >= 0 &&
    (p.status == Completed ==>
       p.completionTime <= t && p.turnaroundTime == p.completionTime - p.arrival &&
       p.waitingTime == p.turnaroundTime - p.burst) &&
    (p.status != Completed ==> p.completionTime == -1 && p.turnaroundTime == 0)
  }

  /** Exactly the processes that have not arrived are Waiting, once the
      arrivals of time `t` have been handled for the indices below `i`. */
  ghost predicate WaitingUntil(ps: seq<Proc>, t: int, i: int)
  {
    forall j :: 0 <= j < |ps| ==>
      (ps[j].status == Waiting <==> (ps[j].arrival > t || (ps[j].arrival == t && j >= i)))
  }

  /** The invariant shared by every phase of a tick. */
  ghost predicate Core(cfg: Config, s: State, i: int)
  {
    cfg.quantum > 0 && s.time >= 0 && Indexed(s) && NoDup(s.queue) &&
    (forall j :: 0 <= j < |s.procs| ==> ProcOk(s.procs[j], s.time)) &&
    WaitingUntil(s.procs, s.time, i) &&
    s.completed == CountCompleted(s.procs) &&
    Timeline(s.gantt, s.time) && s.busy == CountBusy(Expand(s.gantt))
  }

  /** The queue holds exactly the Ready processes, only the running process
      is Running, and the slice is 0 when the CPU is free and below the
      quantum under Round Robin. */
  ghost predicate Settled(cfg: Config, s: State)
    requires Indexed(s)
  {
    (forall j :: 0 <= j < |s.procs| ==> (s.procs[j].status == Ready <==> j in s.queue)) &&
    (forall j :: 0 <= j < |s.procs| ==> (s.procs[j].status == Running <==> j == s.running)) &&
    s.slice >= 0 && (s.running == -1 ==> s.slice == 0) &&
    (cfg.alg == RR ==> s.slice < cfg.quantum)
  }

  /** The invariant part way through the arrivals loop, once the arrivals
      of the current time have been handled for the indices below `i`. */
  ghost predicate ArrivingOk(cfg: Config, s: State, i: int)
  {
    Core(cfg, s, i) && Settled(cfg, s)
  }

  /** The invariant between two calls of `simulationStep`. */
  ghost predicate Valid(cfg: Config, s: State)
  {
    Core(cfg, s, 0) && Settled(cfg, s)
  }
}
