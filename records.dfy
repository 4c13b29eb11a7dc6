/**
 * The per-process record of the simulator: the `Process` class of script.js.
 * The inputs (id, arrival, burst, priority) never change during a run; the
 * run state (remaining burst, timestamps, accumulated times, status) is
 * updated by the engine one tick at a time.
 */
module Records {

  /** The lifecycle of a process: not yet arrived, queued, on the CPU, done. */
  datatype Status = Waiting | Ready | Running | Completed

  /** One validated row of user input. */
  datatype Input = Input(id: int, arrival: int, burst: int, priority: int)

  /** The checks the input form applies before a run starts. */
  predicate ValidInput(x: Input)
  {
    x.arrival >= 0 && x.burst > 0 && x.priority >= 0
  }

  /**
   * A process. `startTime`, `completionTime` and `lastExecution` hold -1
   * for "not yet"; a lower `priority` number means a higher priority.
   */
  datatype Proc = Proc(
    id: int, arrival: int, burst: int, priority: int,
    remaining: int, startTime: int, completionTime: int,
    waitingTime: int, turnaroundTime: int, lastExecution: int,
    status: Status)
  {
    /** The inputs this record was built from. */
    function InputOf(): Input
    {
      Input(id, arrival, burst, priority)
    }

    /** `reset()`: the run state goes back to exactly what a freshly built
        process holds; the inputs are kept. */
    function Reset(): (r: Proc)
      ensures r == NewProcess(InputOf())
    {
      this.(remaining := burst, startTime := -1, completionTime := -1,
            waitingTime := 0, turnaroundTime := 0, lastExecution := -1,
            status := Waiting)
    }
  }

  /** `new Process(id, arrival, burst, priority)`. */
  function NewProcess(x: Input): Proc
  {
    Proc(x.id, x.arrival, x.burst, x.priority, x.burst, -1, -1, 0, 0, -1, Waiting)
  }
}
