/**
 * The simulation engine of script.js as an object: the globals that
 * `simulationStep` and its helpers update in place become the fields of the
 * class `Simulator`, and each function of the source becomes a method that
 * changes those fields step by step, with the source's loops. Every method
 * is proved to compute the matching function of `Engine` on the abstract
 * state `Abs()`; the properties of those functions are proved in the modules
 * `Invariants` and `Properties`.
 */
module Simulator {
  import opened Records
  import opened ReadyQueue
  import opened Policy
  import opened Gantt
  import opened Metrics
  import opened Engine
  import Invariants

  /** The records after the first `k` iterations of the waiting-time loop
      over the ready queue `q`, while `run` holds the CPU. */
  ghost function WaitedUpTo(ps: seq<Proc>, q: seq<int>, run: int, k: int): seq<Proc>
    requires 0 <= k <= |q|
  {
    seq(|ps|, i requires 0 <= i < |ps| =>
      if i in q[..k] && i != run then ps[i].(waitingTime := ps[i].waitingTime + 1) else ps[i])
  }

  /** Iteration `k` touches entry `q[k]` only, which no earlier iteration did. */
  lemma WaitedNext(ps: seq<Proc>, q: seq<int>, run: int, k: int)
    requires NoDup(q) && InRange(q, |ps|) && 0 <= k < |q|
    ensures WaitedUpTo(ps, q, run, k)[q[k]] == ps[q[k]]
    ensures WaitedUpTo(ps, q, run, k + 1) ==
      if q[k] != run then WaitedUpTo(ps, q, run, k)[q[k] := ps[q[k]].(waitingTime := ps[q[k]].waitingTime + 1)]
      else WaitedUpTo(ps, q, run, k)
  {
    assert q[..k + 1] == q[..k] + [q[k]];
    assert q[k] !in q[..k];
  }

  /** After the whole queue the loop has computed `AccrueWaiting`. */
  lemma WaitedAll(s: State)
    requires Indexed(s)
    ensures WaitedUpTo(s.procs, s.queue, s.running, |s.queue|) == AccrueWaiting(s).procs
  {
    assert s.queue[..|s.queue|] == s.queue;
  }

  class Simulator {
    /** `selectedAlgorithm` and `timeQuantum`: changing either resets the
        run, so they are fixed for the life of one simulator. */
    const alg: Algorithm
    const quantum: int
    /** `processes`: replaced only when a run starts. */
    const processes: array<Proc>

    var currentTime: int
    var completedProcesses: int
    var readyQueue: seq<int>
    var runningProcessIndex: int
    var currentQuantumSlice: int
    var totalCpuBusyTime: int
    var ganttLog: seq<Segment>

    function Cfg(): Config
    {
      Config(alg, quantum)
    }

    /** The globals as a value of the engine's state. */
    function Abs(): State
      reads this, processes
    {
      State(currentTime, completedProcesses, readyQueue, runningProcessIndex,
            currentQuantumSlice, totalCpuBusyTime, ganttLog, processes[..])
    }

    /** The invariant kept between two ticks. */
    ghost predicate Valid()
      reads this, processes
    {
      Engine.Valid(Cfg(), Abs())
    }

    /**
     * `startSimulation` after `validateInputs` succeeded: a fresh process per
     * validated input row and the cleared globals of `resetSimulationState`.
     */
    constructor (alg: Algorithm, quantum: int, ins: seq<Input>)
      requires quantum > 0
      requires forall i :: 0 <= i < |ins| ==> ValidInput(ins[i])
      ensures this.alg == alg && this.quantum == quantum
      ensures Abs() == Initial(ins) && Valid()
    {
      this.alg := alg;
      this.quantum := quantum;
      processes := new Proc[|ins|](i requires 0 <= i < |ins| => NewProcess(ins[i]));
      currentTime := 0;
      completedProcesses := 0;
      readyQueue := [];
      runningProcessIndex := -1;
      ganttLog := [];
      totalCpuBusyTime := 0;
      currentQuantumSlice := 0;
      new;
      Invariants.InitialValid(Config(alg, quantum), ins);
    }

    /** `resetSimulationState`: clear the globals and reset every process. */
    method ResetSimulationState()
      modifies this, processes
      ensures Abs() == ResetState(old(Abs()))
      ensures old(Valid()) ==> Valid()
    {
      ghost var s := Abs();
      currentTime := 0;
      completedProcesses := 0;
      readyQueue := [];
      runningProcessIndex := -1;
      ganttLog := [];
      totalCpuBusyTime := 0;
      currentQuantumSlice := 0;
      for i := 0 to processes.Length
        invariant currentTime == 0 && completedProcesses == 0 && readyQueue == [] &&
                  runningProcessIndex == -1 && ganttLog == [] && totalCpuBusyTime == 0 &&
                  currentQuantumSlice == 0
        invariant forall j :: 0 <= j < i ==> processes[j] == old(processes[j]).Reset()
        invariant forall j :: i <= j < processes.Length ==> processes[j] == old(processes[j])
      {
        processes[i] := processes[i].Reset();
      }
      assert processes[..] == ResetState(s).procs;
      if Engine.Valid(Cfg(), s) {
        Invariants.ResetValid(Cfg(), s);
      }
    }

    /** `checkProcessArrivals`: one pass over the process table. */
    method CheckProcessArrivals()
      requires Indexed(Abs())
      modifies this, processes
      ensures Abs() == Arrivals(Cfg(), old(Abs()))
    {
      ghost var s := Abs();
      for i := 0 to processes.Length
        invariant Abs() == ArriveUpTo(Cfg(), s, i)
      {
        if processes[i].arrival == currentTime && processes[i].status == Waiting {
          processes[i] := processes[i].(status := Ready);
          readyQueue := readyQueue + [i];
          if alg == SRTF || alg == PriorityP {
            if runningProcessIndex != -1 {
              var currentRunning := processes[runningProcessIndex];
              var newArrival := processes[i];
              var preempt := false;
              if alg == SRTF && newArrival.remaining < currentRunning.remaining {
                preempt := true;
              } else if alg == PriorityP && newArrival.priority < currentRunning.priority {
                preempt := true;
              }
              if preempt {
                processes[runningProcessIndex] := currentRunning.(status := Ready);
                if runningProcessIndex !in readyQueue {
                  readyQueue := readyQueue + [runningProcessIndex];
                }
                runningProcessIndex := -1;
                currentQuantumSlice := 0;
              }
            }
          }
        }
      }
    }

    /**
     * `selectNextProcessToRun`: the fast path for a process that keeps the
     * CPU, otherwise the policy's scan of the ready queue (the head under
     * Round Robin) and the removal of the chosen entry from the queue.
     */
    method SelectNextProcessToRun() returns (selectedIndex: int)
      requires Indexed(Abs())
      modifies this
      ensures selectedIndex == Select(Cfg(), old(Abs())).0
      ensures Abs() == old(Abs()).(queue := Select(Cfg(), old(Abs())).1)
    {
      if runningProcessIndex != -1 {
        var currentProcess := processes[runningProcessIndex];
        if currentProcess.status == Running {
          if alg == FCFS || alg == SJF || alg == PriorityNP {
            return runningProcessIndex;
          }
          if alg == RR && currentQuantumSlice < quantum {
            return runningProcessIndex;
          }
        }
      }
      if |readyQueue| == 0 {
        return -1;
      }
      if alg == RR {
        selectedIndex := readyQueue[0];
      } else {
        selectedIndex := ScanQueue(alg, processes[..], readyQueue);
      }
      if selectedIndex != -1 {
        var queueIdx := IndexOf(readyQueue, selectedIndex);
        if queueIdx > -1 {
          readyQueue := RemoveAt(readyQueue, queueIdx);
        }
      }
    }

    /** Step 3 of `simulationStep`: the context switch after selection. */
    method SwitchContext(previousRunningIndex: int)
      requires Indexed(Abs()) && -1 <= previousRunningIndex < processes.Length
      modifies this, processes
      ensures Abs() == ContextSwitch(old(Abs()), previousRunningIndex)
    {
      if previousRunningIndex != runningProcessIndex && previousRunningIndex != -1 {
        var prevProcess := processes[previousRunningIndex];
        if prevProcess.status == Running {
          processes[previousRunningIndex] := prevProcess.(status := Ready);
          if previousRunningIndex !in readyQueue {
            readyQueue := readyQueue + [previousRunningIndex];
          }
        }
        currentQuantumSlice := 0;
      }
    }

    /** `logGantt`: extend the last segment or open a new one. */
    method LogGantt(pid: Gantt.Subject, start: int, end: int)
      modifies this
      ensures ganttLog == Log(old(ganttLog), pid, start, end)
      ensures currentTime == old(currentTime) && completedProcesses == old(completedProcesses)
      ensures readyQueue == old(readyQueue) && runningProcessIndex == old(runningProcessIndex)
      ensures currentQuantumSlice == old(currentQuantumSlice) && totalCpuBusyTime == old(totalCpuBusyTime)
    {
      if |ganttLog| > 0 {
        var lastSegment := ganttLog[|ganttLog| - 1];
        if lastSegment.pid == pid && lastSegment.end == start {
          ganttLog := ganttLog[..|ganttLog| - 1] + [lastSegment.(end := end)];
          return;
        }
      }
      ganttLog := ganttLog + [Segment(pid, start, end)];
    }

    /** Step 4 of `simulationStep`: run the selected process for one tick,
        with completion and Round Robin requeue, or log an idle tick. */
    method RunTick()
      requires Indexed(Abs())
      modifies this, processes
      ensures Abs() == Execute(Cfg(), old(Abs()))
    {
      ghost var s := Abs();
      if runningProcessIndex != -1 {
        var currentProcess := processes[runningProcessIndex];
        if currentProcess.startTime == -1 {
          currentProcess := currentProcess.(startTime := currentTime);
        }
        currentProcess := currentProcess.(status := Running, remaining := currentProcess.remaining - 1,
                                          lastExecution := currentTime);
        processes[runningProcessIndex] := currentProcess;
        totalCpuBusyTime := totalCpuBusyTime + 1;
        currentQuantumSlice := currentQuantumSlice + 1;
        LogGantt(Pid(currentProcess.id), currentTime, currentTime + 1);
        ghost var p := RunOnce(s.procs[s.running], s.time);
        ghost var s1 := s.(procs := s.procs[s.running := p], busy := s.busy + 1, slice := s.slice + 1,
                           gantt := Log(s.gantt, Pid(p.id), s.time, s.time + 1));
        assert currentProcess == p;
        assert Abs() == s1;
        if currentProcess.remaining == 0 {
          CompleteRunningProcess(currentProcess);
          assert Abs() == Execute(Cfg(), s);
        } else if alg == RR && currentQuantumSlice >= quantum {
          processes[runningProcessIndex] := currentProcess.(status := Ready);
          readyQueue := readyQueue + [runningProcessIndex];
          runningProcessIndex := -1;
          currentQuantumSlice := 0;
          assert Abs() == Execute(Cfg(), s);
        }
      } else {
        LogGantt(Idle, currentTime, currentTime + 1);
      }
    }

    /** The completion block of step 4: the metrics of the process that just
        used its last unit of burst, with negative waiting clamped to 0; the
        CPU is freed and the ready-queue lookup runs with the cleared index. */
    method CompleteRunningProcess(currentProcess: Proc)
      requires 0 <= runningProcessIndex < processes.Length
      modifies this, processes
      ensures processes[..] == old(processes[..])[old(runningProcessIndex) := Complete(currentProcess, currentTime)]
      ensures completedProcesses == old(completedProcesses) + 1
      ensures runningProcessIndex == -1 && currentQuantumSlice == 0
      ensures readyQueue == SpliceOut(old(readyQueue), -1)
      ensures currentTime == old(currentTime) && totalCpuBusyTime == old(totalCpuBusyTime)
      ensures ganttLog == old(ganttLog)
    {
      var completionTime := currentTime + 1;
      var turnaroundTime := completionTime - currentProcess.arrival;
      var waitingTime := turnaroundTime - currentProcess.burst;
      if waitingTime < 0 {
        waitingTime := 0;
      }
      processes[runningProcessIndex] := currentProcess.(completionTime := completionTime,
        turnaroundTime := turnaroundTime, waitingTime := waitingTime, status := Completed);
      completedProcesses := completedProcesses + 1;
      runningProcessIndex := -1;
      currentQuantumSlice := 0;
      readyQueue := SpliceOut(readyQueue, runningProcessIndex);
    }

    /** The first `forEach` after execution: every queued process other than
        the running one waits one more tick. */
    method AccrueWaitingTimes()
      requires Indexed(Abs()) && NoDup(readyQueue)
      modifies processes
      ensures Abs() == AccrueWaiting(old(Abs()))
    {
      ghost var s := Abs();
      for k := 0 to |readyQueue|
        invariant processes[..] == WaitedUpTo(s.procs, readyQueue, runningProcessIndex, k)
      {
        var pIndex := readyQueue[k];
        WaitedNext(s.procs, readyQueue, runningProcessIndex, k);
        if pIndex != runningProcessIndex {
          processes[pIndex] := processes[pIndex].(waitingTime := processes[pIndex].waitingTime + 1);
        }
      }
      WaitedAll(s);
    }

    /** The second `forEach` after execution: queued processes that are
        neither Running nor Completed are marked Ready. */
    method RefreshReadyStatuses()
      requires Indexed(Abs())
      modifies processes
      ensures Abs() == RefreshReady(old(Abs()))
    {
      ghost var s := Abs();
      for k := 0 to |readyQueue|
        invariant forall i :: 0 <= i < processes.Length ==>
          processes[i] == if i in readyQueue[..k] && old(processes[i]).status != Running &&
                             old(processes[i]).status != Completed
                          then old(processes[i]).(status := Ready)
                          else old(processes[i])
      {
        var pIndex := readyQueue[k];
        if processes[pIndex].status != Running && processes[pIndex].status != Completed {
          processes[pIndex] := processes[pIndex].(status := Ready);
        }
        assert readyQueue[..k + 1] == readyQueue[..k] + [pIndex];
      }
      assert readyQueue[..|readyQueue|] == readyQueue;
      assert processes[..] == RefreshReady(s).procs;
    }

    /**
     * `simulationStep`: nothing without processes; once every process has
     * completed only `finishSimulation` is signalled; otherwise one tick.
     * `finished` reports whether `finishSimulation` is called.
     */
    method SimulationStep() returns (finished: bool)
      requires Valid()
      modifies this, processes
      ensures Abs() == Step(Cfg(), old(Abs()))
      ensures finished <==> Finished(Abs())
      ensures Valid()
    {
      ghost var s := Abs();
      if processes.Length == 0 {
        return false;
      }
      if completedProcesses >= processes.Length {
        return true;
      }
      Invariants.TickFrom(Cfg(), s, Execute(Cfg(), Invariants.Prepared(Cfg(), s)));
      AdvanceTick();
      finished := completedProcesses >= processes.Length;
    }

    /** The body of `simulationStep` past its guards: arrivals, selection,
        context switch, execution, waiting-time accrual, status refresh and
        clock advance. The waiting-time loop needs a ready queue without
        duplicates after execution, which the invariant guarantees
        (`Invariants.TickFrom`). */
    method AdvanceTick()
      requires Indexed(Abs())
      requires NoDup(Execute(Cfg(), Invariants.Prepared(Cfg(), Abs())).queue)
      modifies this, processes
      ensures Abs() == Tick(Cfg(), old(Abs()))
    {
      ghost var s := Abs();
      CheckProcessArrivals();
      var previousRunningIndex := runningProcessIndex;
      runningProcessIndex := SelectNextProcessToRun();
      SwitchContext(previousRunningIndex);
      assert Abs() == Invariants.Prepared(Cfg(), s);
      RunTick();
      ghost var e := Abs();
      AccrueWaitingTimes();
      RefreshReadyStatuses();
      ghost var w := Abs();
      assert w == RefreshReady(AccrueWaiting(e));
      currentTime := currentTime + 1;
      assert Abs() == w.(time := w.time + 1);
      Invariants.BookkeepingClock(e, e.time);
    }

    /** The sums of `calculateAndDisplayAverages` and the averages it shows
        (0 when nothing has completed), computed exactly. */
    method CalculateAverages() returns (avgWT: real, avgTAT: real)
      ensures avgWT == Mean(TotalWaiting(processes[..]), CountCompleted(processes[..]))
      ensures avgTAT == Mean(TotalTurnaround(processes[..]), CountCompleted(processes[..]))
    {
      var totalWT := 0;
      var totalTAT := 0;
      var validProcesses := 0;
      for k := 0 to processes.Length
        invariant totalWT == TotalWaiting(processes[..k])
        invariant totalTAT == TotalTurnaround(processes[..k])
        invariant validProcesses == CountCompleted(processes[..k])
      {
        var p := processes[k];
        assert processes[..k + 1][..k] == processes[..k];
        if p.status == Completed {
          totalWT := totalWT + p.waitingTime;
          totalTAT := totalTAT + p.turnaroundTime;
          validProcesses := validProcesses + 1;
        }
      }
      assert processes[..processes.Length] == processes[..];
      avgWT := if validProcesses > 0 then totalWT as real / validProcesses as real else 0.0;
      avgTAT := if validProcesses > 0 then totalTAT as real / validProcesses as real else 0.0;
    }
  }
}
