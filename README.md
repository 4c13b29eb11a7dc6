# CPU scheduling simulator: a verified model of the tick engine

The simulator animates six CPU scheduling policies one time unit ("tick") at
a time:
- FCFS;
- SJF;
- SRTF;
- non-preemptive and preemptive priority;
- Round Robin with a quantum.

Its engine lives in `script.js`. It keeps a table of `Process` objects and a
few globals:
- the clock `currentTime`;
- the completion count;
- the ready queue of process indices;
- the index of the running process;
- the Round Robin slice counter;
- the busy-tick counter;
- the Gantt log of `{pid, start, end}` segments.

`simulationStep` advances all of them by one tick. It handles arrivals (with
preemption under SRTF and preemptive priority), then selection, the context
switch, execution (with completion or a Round Robin requeue), waiting-time
accrual, the ready-status refresh and the clock. The averages panel and the
CPU gauge are computed from the same state.

The model has three layers.

- `Simulator.Simulator` is a class. Its fields are the engine's globals, with
  the process table as an `array<Proc>`. Each engine function of the source is
  a method with the same loops and branches:
  - `ResetSimulationState`;
  - `CheckProcessArrivals`;
  - `SelectNextProcessToRun`;
  - `LogGantt`;
  - `SimulationStep`;
  - `CalculateAverages`.

  Each state-changing method is proved to compute a function of the `Engine`
  module on the abstract state `Abs()`. `LogGantt` computes `Gantt.Log` on the
  log field, and `CalculateAverages` computes `Metrics.Mean` of the completed
  records.
- `Engine` states one tick as functions on a `State` value, one per phase, in
  the source's order. It also defines the invariant `Valid`.
- `Invariants` proves that `Valid` holds initially, after a reset and after
  every step. `Properties` proves what a step does:
  - the clock, the Gantt timeline and the busy counter;
  - the burst consumed;
  - completions and their metrics;
  - the preemption rule;
  - the arrivals queue;
  - the selection rule;
  - the lone-runner and quantum-expiry behaviours;
  - termination;
  - the averages.

The supporting modules are:
- `Records`: the `Process` record;
- `ReadyQueue`: `indexOf`, `splice` and `push`;
- `Policy`: the sort keys and the queue scan of each policy;
- `Gantt`: the segment log and its tick-by-tick reading;
- `Metrics`: the counts, sums, utilization and means.

Three behaviours of the code are modelled exactly as written.

- Under SRTF and preemptive priority the selection fast path never applies.
  So a running process that no arrival preempted is still swapped for the
  best queued process whenever the queue is not empty, even one whose key is
  worse than its own (`RunnerHandedBack`).
- For the same reason, and because the running process is not in the queue,
  a process running alone is handed back to the queue and the CPU idles for a
  tick. The process is dispatched again on the next tick, so it alternates
  (`LoneRunnerIdles`, `LoneRunnerAlternates`). For example, under SRTF a
  process A (arrival 0, burst 5) runs at tick 0 and idles at tick 1. When B
  (arrival 2, burst 1) arrives, A still has 4 units left and B takes the CPU.
- A Round Robin process whose quantum expires is requeued before the
  waiting-time pass. It is therefore charged one unit of waiting for the tick
  it ran (`QuantumExpiry`). With quantum 2, P1 (arrival 0, burst 5) and P2
  (arrival 1, burst 3) run `P1,P1,P2,P2,P1,P1,P2,P1`: P2 completes at 7 and
  P1 at 8.

`simulationStep` returns without doing anything when there are no
processes, and so does the model.

## Model

| member | source | states |
|---|---|---|
| Records.Proc.Reset | script.js:72-80 | `reset()` returns the run state to exactly what a freshly constructed process holds, keeping the inputs |
| Simulator.Simulator.constructor | script.js:343-350 | the state after validated inputs are loaded and the globals cleared is `Initial(ins)` and satisfies the invariant |
| Invariants.InitialValid | script.js:53-70 | a fresh table of processes built from valid inputs, with cleared globals, satisfies `Valid` |
| Simulator.Simulator.ResetSimulationState | script.js:385-396 | the new state clears every global and resets every process; the invariant is kept |
| Invariants.ResetValid | script.js:385-396 | a reset state is exactly the initial state of a fresh run with the same inputs, and it is valid |
| Simulator.Simulator.CheckProcessArrivals | script.js:551-584 | the loop computes the arrivals phase `Arrivals`, one `ArriveAt` per index |
| Properties.ArrivalsPreempt | script.js:558-580 | the arrivals phase takes the CPU away exactly when a process arriving now has a strictly smaller remaining burst (SRTF) or priority number (preemptive priority); otherwise the runner's record and slice are untouched |
| Properties.ArrivalsQueue | script.js:551-584 | the old queue stays a prefix; exactly the processes arriving now, plus a preempted runner, are appended, in index order, with the preempted runner right after the first newcomer that beat it (`Appended`); without a runner or a preemptive policy the suffix is the arriving processes in index order; every arriving process becomes Ready |
| Properties.NoArrivals | script.js:553-554 | with no process arriving at the current time the arrivals loop changes nothing |
| Simulator.Simulator.SelectNextProcessToRun | script.js:587-702 | returns `Select(...).0` and leaves the queue as `Select(...).1`, changing nothing else |
| Properties.SelectFastPath | script.js:589-600 | a running process keeps the CPU under FCFS, SJF and non-preemptive priority, and under Round Robin within its quantum; with nothing kept and nothing queued the result is -1 |
| Properties.SelectChoice | script.js:606-702 | otherwise the chosen index comes from the queue and is the only index removed from it, the rest keeping their order (`RemoveAt` at its position); Round Robin takes the head and leaves the tail; the other policies take the first queued entry with the minimal key (arrival and id; or remaining, arrival and id; or priority, arrival and id) |
| Policy.ScanQueue | script.js:610-675 | the `forEach` scan, which replaces the best only on a strictly smaller key, returns the first minimum of the policy's key, or -1 on an empty queue |
| Policy.ChoiceIsStrict | script.js:610-675 | with distinct ids the chosen process is strictly before every other queued process in the policy's order |
| Policy.ChoiceIgnoresOrder | script.js:610-675 | with distinct ids the FCFS, SJF/SRTF and priority choices depend only on which processes are queued |
| Properties.KeepsCPU | script.js:589-600 | under FCFS, SJF, non-preemptive priority and Round Robin a running process is the runner of the next tick, and selection and the context switch leave the arrivals state unchanged |
| Properties.RunnerHandedBack | script.js:453-467 | under SRTF and preemptive priority a runner no arrival preempted still hands the CPU to the queued process that selection picks, whatever its key, and goes back to the end of the queue as Ready |
| Simulator.Simulator.SwitchContext | script.js:457-469 | computes `ContextSwitch`: a previous process still Running becomes Ready and is queued if absent, and the slice restarts, only when the selection changed |
| Simulator.Simulator.LogGantt | script.js:765-776 | the log is `Log(old log, pid, start, end)`: the last segment is extended when it has the same subject and ends at `start`, otherwise a segment is appended; nothing else changes |
| Gantt.LogTick | script.js:765-776 | logging tick `[t, t+1)` on a gapless log of `[0, t)` gives a gapless log of `[0, t+1)` whose tick sequence gains exactly that subject |
| Simulator.Simulator.RunTick | script.js:471-519 | computes `Execute`: the runner starts if new, consumes one unit, is logged and counted busy, then completes or is requeued on quantum expiry; an idle tick logs `Idle` |
| Simulator.Simulator.CompleteRunningProcess | script.js:491-504 | completion time `t+1`, turnaround `ct - arrival`, waiting `tat - burst` clamped at 0, status Completed, count plus one, CPU freed, and the queue goes through the `indexOf`/`splice` lookup with the already cleared index -1 |
| Simulator.Simulator.AccrueWaitingTimes | script.js:521-528 | computes `AccrueWaiting`: each queued process other than the runner gains one unit of waiting |
| Simulator.Simulator.RefreshReadyStatuses | script.js:530-536 | computes `RefreshReady`: queued processes that are neither Running nor Completed become Ready |
| Simulator.Simulator.SimulationStep | script.js:438-549 | the new state is `Step(old state)`; `finished` is true exactly when `finishSimulation` is called; the invariant is kept |
| Simulator.Simulator.AdvanceTick | script.js:449-540 | the part of `simulationStep` past its guards computes `Tick`, phase by phase in the source's order |
| Invariants.StepKeeps | script.js:438-549 | a step keeps the invariant: the remaining burst stays in range; start, completion, turnaround and waiting times stay consistent; the queue holds exactly the Ready processes without duplicates; only the runner is Running; the completion count, the Gantt timeline and the busy counter agree with the records |
| Properties.StepWork | script.js:472-540 | one tick consumes exactly one unit of burst, that of the runner, keeps every process's inputs and advances the clock by one; the runner alone gets its start time on its first tick and its last execution time |
| Properties.RunnerEligible | script.js:587-702 | the process that runs has arrived, has burst left and is not completed |
| Properties.StepLog | script.js:484-519 | a tick appends exactly one subject to the Gantt timeline (the runner's id, or Idle), and the busy counter grows by one exactly when a process ran |
| Properties.ExecutedLog | script.js:472-519 | execution logs the tick's subject, counts a busy tick when a process ran, and the subject is the runner's id |
| Properties.StepCount | script.js:491-499 | the completion count rises by one exactly when the runner used its last unit |
| Properties.StepNewlyCompleted | script.js:491-498 | a process that completes in a tick is its runner; its completion time is the new clock, turnaround is completion minus arrival, and waiting is turnaround minus burst, whatever it had accumulated |
| Properties.StepFrozen | script.js:438-549 | a completed record never changes again |
| Properties.LoneRunnerIdles | script.js:589-600 | under SRTF and preemptive priority a lone runner with nothing queued and nobody arriving is handed back: the CPU idles and the process is Ready in the queue, charged one waiting unit |
| Properties.LoneRunnerAlternates | script.js:589-600 | such a runner is dispatched again on the following tick |
| Properties.ResumeAfterIdle | script.js:604-702 | with the CPU free, one queued process and no arrival, that process runs, under every policy |
| Properties.QuantumExpiry | script.js:506-528 | a Round Robin process whose quantum runs out in this tick with burst left, whether carried over or just dispatched (quantum 1), goes to the back of the queue as Ready, behind this tick's arrivals when carried over; the CPU and slice are freed, and it is charged one waiting unit for the tick it ran |
| Properties.Terminal | script.js:443-447 | once every process has completed, a step changes nothing and `finishSimulation` is signalled |
| Properties.FinishedIff | script.js:544-548 | the simulation is finished exactly when there are processes and all of them have completed |
| Properties.BusyBound | script.js:743 | `0 <= totalCpuBusyTime <= currentTime`, with equality exactly when no tick of the Gantt log was idle |
| Metrics.Utilization | script.js:743 | the utilization lies in `[0, 100]`; it is 100 exactly when every tick was busy, and 0 exactly when none was |
| Properties.FullUtilization | script.js:743 | the gauge shows 100% exactly when time has passed and the Gantt log has no idle tick |
| Simulator.Simulator.CalculateAverages | script.js:878-896 | the averages are the waiting and turnaround totals of completed processes divided by their count, or 0 when none has completed |
| Metrics.Mean | script.js:890-891 | `mean * count == total` when the count is positive, 0 otherwise |
| Properties.TotalsSplit | script.js:878-891 | over the completed processes, total turnaround = total waiting + total burst, and no completed process has negative waiting |
| Properties.AveragesSplit | script.js:878-891 | average turnaround = average waiting + average burst of the completed processes |
| Metrics.CountFull | script.js:443 | the completion count equals the number of processes exactly when every process is completed |
| Engine.Arrivals | script.js:551-584 | the arrivals phase either keeps the runner or frees the CPU with the slice at 0, and leaves the clock, the completion count, the busy counter and the Gantt log alone |
| Properties.CompletionTimeOfRunner | script.js:491-492 | the runner that uses its last unit of burst completes at the new clock |
| Properties.AccrueSkipsCompleted | script.js:521-528 | waiting-time accrual never touches a completed record |
| Properties.ExpiryExecuted | script.js:506-512 | execution on a Round Robin quantum expiry, for a carried-over or a freshly dispatched runner, frees the CPU and the slice, appends the runner to the queue after the prepared queue (this tick's arrivals when carried over), and marks it Ready after one unit of burst |
| Gantt.ExpandLength | script.js:765-776 | a gapless log of `[0, t)` covers exactly `t` ticks |
| Gantt.AllBusy | script.js:743 | every tick was busy exactly when no tick was idle |
| Metrics.CountOneMore | script.js:498-499 | completing one more process raises the completion count by exactly one |
| Metrics.TurnaroundSplits | script.js:878-891 | when every completed process has `waiting = turnaround - burst`, total turnaround = total waiting + total burst |
| Metrics.MeanAdds | script.js:890-891 | averages over the same count add up |
| ReadyQueue.SpliceOut | script.js:503-504 | `indexOf` plus `splice(idx, 1)` removes the first occurrence if present, and otherwise leaves the queue unchanged |
| ReadyQueue.RemoveAtMembers | script.js:690-698 | removing one entry of a duplicate-free queue removes exactly that index and keeps the queue duplicate-free |

## Left out

- The DOM, the table, the status bar and the Gantt chart rendering are not modelled. They only display state.
- The interval timer, the speed slider and the `isPaused` guard of `simulationStep` are not modelled. The model is one call of `simulationStep` on demand.
- Floating point (`toFixed`, divisions) is not modelled. Utilization and averages are exact `real` values.
- The memory gauge of `updateSystemMonitor` is not modelled. It is display-only and affects no scheduling state.
- Parsing in `validateInputs`, random input generation and `theme.js` are not modelled. The constructor takes already-validated input rows (arrival ≥ 0, burst > 0, priority ≥ 0) and a positive quantum.
- `memory_required` is not modelled. It is display-only.
- Process objects are value records held in an array, not shared references. The source never aliases them outside `processes`.
- The `default` branch of the algorithm switch is not modelled. The algorithm is a closed datatype, so that branch cannot be reached.
- `updateTableRow`, `updateUI` and the console are not modelled. They are display calls with no effect on the modelled state.
