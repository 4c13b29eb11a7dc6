/**
 * `Engine.Valid` holds of every state a run reaches: it holds initially and
 * after a reset, and each phase of a tick carries it (or its intermediate
 * form) to the next phase.
 */
module Invariants {
  import opened Records
  import opened ReadyQueue
  import opened Policy
  import opened Gantt
  import opened Metrics
  import opened Engine

  /** A run starts in a valid state. */
  lemma InitialValid(cfg: Config, ins: seq<Input>)
    requires cfg.quantum > 0
    requires forall i :: 0 <= i < |ins| ==> ValidInput(ins[i])
    ensures Valid(cfg, Initial(ins))
  {
    AllReadyCountZero(Initial(ins).procs);
  }

  /** Records none of which is completed count zero. */
  lemma {:induction false} AllReadyCountZero(ps: seq<Proc>)
    requires forall i :: 0 <= i < |ps| ==> ps[i].status != Completed
    ensures CountCompleted(ps) == 0
  {
    if ps != [] {
      AllReadyCountZero(ps[..|ps| - 1]);
    }
  }

  /** `resetSimulationState` returns a valid state, the very one a fresh run
      with the same inputs starts from. */
  lemma ResetValid(cfg: Config, s: State)
    requires Valid(cfg, s)
    ensures ResetState(s) == Initial(seq(|s.procs|, i requires 0 <= i < |s.procs| => s.procs[i].InputOf()))
    ensures Valid(cfg, ResetState(s))
  {
    var ins := seq(|s.procs|, i requires 0 <= i < |s.procs| => s.procs[i].InputOf());
    assert ResetState(s).procs == Initial(ins).procs;
    InitialValid(cfg, ins);
  }

  // ------------------------------------------------------------ time passing

  /** The per-process facts at time `t` still hold one tick later. */
  lemma ProcOkLater(p: Proc, t: int)
    requires ProcOk(p, t)
    ensures ProcOk(p, t + 1)
  {
  }

  // ------------------------------------------------------------ arrivals

  /** The newcomer at index `i` (arrival equal to the clock, still Waiting)
      is marked Ready and queued. */
  lemma MarkArrivedKeeps(cfg: Config, s: State, i: int)
    requires 0 <= i < |s.procs| && Core(cfg, s, i) && Settled(cfg, s)
    requires Arrives(s.procs[i], s.time)
    ensures Core(cfg, Marked(s, i), i + 1) && Settled(cfg, Marked(s, i))
  {
    assert i !in s.queue;
    MarkArrivedCore(cfg, s, i);
    var ps1 := s.procs[i := s.procs[i].(status := Ready)];
    var q1 := s.queue + [i];
    forall j | 0 <= j < |ps1| ensures ps1[j].status == Ready <==> j in q1 {
      assert j in q1 <==> j in s.queue || j == i;
    }
  }

  /** The shared half of `MarkArrivedKeeps`. */
  lemma MarkArrivedCore(cfg: Config, s: State, i: int)
    requires 0 <= i < |s.procs| && Core(cfg, s, i)
    requires Arrives(s.procs[i], s.time) && i !in s.queue
    ensures Core(cfg, Marked(s, i), i + 1)
  {
    var t := s.time;
    var ps := s.procs;
    var ps1 := ps[i := ps[i].(status := Ready)];
    AppendFresh(s.queue, i);
    forall j | 0 <= j < |ps1| ensures ProcOk(ps1[j], t) {
      if j == i { assert ProcOk(ps[i], t); }
    }
    forall j | 0 <= j < |ps1|
      ensures ps1[j].status == Waiting <==> (ps1[j].arrival > t || (ps1[j].arrival == t && j >= i + 1))
    {
    }
    CountSame(ps, ps1);
  }

  /** A preempted process is marked Ready and queued, and the CPU freed. */
  lemma PreemptKeeps(cfg: Config, s: State, i: int)
    requires Core(cfg, s, i) && Settled(cfg, s) && s.running != -1
    ensures Core(cfg, Release(s), i) && Settled(cfg, Release(s))
  {
    PreemptCore(cfg, s, i);
    PreemptSettled(cfg, s);
  }

  /** The shared half of `PreemptKeeps`. */
  lemma PreemptCore(cfg: Config, s: State, i: int)
    requires Core(cfg, s, i) && Settled(cfg, s) && s.running != -1
    ensures Core(cfg, Release(s), i)
  {
    var t := s.time;
    var run := s.running;
    var ps := s.procs;
    var ps1 := Release(s).procs;
    assert run !in s.queue;
    AppendFresh(s.queue, run);
    forall j | 0 <= j < |ps1| ensures ProcOk(ps1[j], t) {
      if j == run { assert ProcOk(ps[run], t); }
    }
    forall j | 0 <= j < |ps1|
      ensures ps1[j].status == Waiting <==> (ps1[j].arrival > t || (ps1[j].arrival == t && j >= i))
    {
    }
    CountSame(ps, ps1);
  }

  /** The Ready/queued correspondence after a preemption. */
  lemma PreemptSettled(cfg: Config, s: State)
    requires Indexed(s) && Settled(cfg, s) && s.running != -1
    ensures Settled(cfg, Release(s))
  {
    var r := Release(s);
    forall j | 0 <= j < |r.procs| ensures r.procs[j].status == Ready <==> j in r.queue {
      assert j in r.queue <==> j in s.queue || j == s.running;
    }
  }

  /** Record `i` marked Ready and appended to the queue. */
  function Marked(s: State, i: int): State
    requires 0 <= i < |s.procs|
  {
    s.(procs := s.procs[i := s.procs[i].(status := Ready)], queue := s.queue + [i])
  }

  /** The three ways an iteration of the arrivals loop can end. */
  lemma ArriveAtShape(cfg: Config, s: State, i: int)
    requires Indexed(s) && 0 <= i < |s.procs|
    requires Arrives(s.procs[i], s.time) && s.running != -1 ==> s.running !in s.queue && s.running != i
    ensures !Arrives(s.procs[i], s.time) ==> ArriveAt(cfg, s, i) == s
    ensures Arrives(s.procs[i], s.time) ==>
      var s1 := Marked(s, i);
      ArriveAt(cfg, s, i) ==
        if PreemptsOnArrival(cfg.alg) && s.running != -1 && Preempts(cfg.alg, s1.procs[i], s1.procs[s.running])
        then Release(s1) else s1
  {
  }

  /** A record that does not arrive leaves nothing to do but move the mark. */
  lemma SkipCore(cfg: Config, s: State, i: int)
    requires 0 <= i < |s.procs| && Core(cfg, s, i) && !Arrives(s.procs[i], s.time)
    ensures Core(cfg, s, i + 1)
  {
    assert forall j :: 0 <= j < |s.procs| ==>
      (s.procs[j].status == Waiting <==> (s.procs[j].arrival > s.time || (s.procs[j].arrival == s.time && j >= i + 1)));
  }

  /** One iteration of the arrivals loop keeps the invariant and moves the
      "arrivals handled" mark past index `i`. */
  lemma ArriveAtKeeps(cfg: Config, s: State, i: int)
    requires 0 <= i < |s.procs| && Core(cfg, s, i) && Settled(cfg, s)
    ensures Core(cfg, ArriveAt(cfg, s, i), i + 1) && Settled(cfg, ArriveAt(cfg, s, i))
  {
    assert s.running != -1 ==> s.running !in s.queue && s.procs[s.running].status == Running;
    ArriveAtShape(cfg, s, i);
    if Arrives(s.procs[i], s.time) {
      MarkArrivedKeeps(cfg, s, i);
      var s1 := Marked(s, i);
      if PreemptsOnArrival(cfg.alg) && s.running != -1 && Preempts(cfg.alg, s1.procs[i], s1.procs[s.running]) {
        PreemptKeeps(cfg, s1, i + 1);
      }
    } else {
      SkipCore(cfg, s, i);
    }
  }

  /** `ArriveAtKeeps` in terms of the loop invariant. */
  lemma ArriveAtOk(cfg: Config, s: State, i: int, k: int)
    requires 0 <= i < |s.procs| && ArrivingOk(cfg, s, i) && k == i + 1
    ensures Core(cfg, ArriveAt(cfg, s, i), k) && Settled(cfg, ArriveAt(cfg, s, i))
  {
    ArriveAtKeeps(cfg, s, i);
  }

  /** The result of iteration `i - 1` is that of the first `i` iterations. */
  lemma ArriveUpToStep(cfg: Config, s: State, i: nat)
    requires Indexed(s) && 0 < i <= |s.procs|
    requires ArrivingOk(cfg, ArriveAt(cfg, ArriveUpTo(cfg, s, i - 1), i - 1), i)
    ensures ArrivingOk(cfg, ArriveUpTo(cfg, s, i), i)
  {
  }

  /** One more iteration of the arrivals loop keeps the invariant. */
  lemma ArriveNextOk(cfg: Config, s: State, i: nat)
    requires Indexed(s) && 0 < i <= |s.procs|
    requires ArrivingOk(cfg, ArriveUpTo(cfg, s, i - 1), i - 1)
    ensures ArrivingOk(cfg, ArriveAt(cfg, ArriveUpTo(cfg, s, i - 1), i - 1), i)
  {
    ArriveAtOk(cfg, ArriveUpTo(cfg, s, i - 1), i - 1, i);
  }

  lemma {:induction false} ArriveUpToOk(cfg: Config, s: State, i: nat)
    requires i <= |s.procs| && Valid(cfg, s)
    ensures ArrivingOk(cfg, ArriveUpTo(cfg, s, i), i)
  {
    if i > 0 {
      ArriveUpToOk(cfg, s, i - 1);
      ArriveNextOk(cfg, s, i);
      ArriveUpToStep(cfg, s, i);
    }
  }

  /** The first `i` iterations of the arrivals loop keep the invariant. */
  lemma ArriveUpToKeeps(cfg: Config, s: State, i: nat)
    requires i <= |s.procs| && Valid(cfg, s)
    ensures Core(cfg, ArriveUpTo(cfg, s, i), i) && Settled(cfg, ArriveUpTo(cfg, s, i))
  {
    ArriveUpToOk(cfg, s, i);
  }

  // ------------------------------------------------------------ selection

  /** After selection and the context switch: every process except the
      chosen one is Ready exactly when queued and none is Running; the chosen
      one is off the queue and Ready or Running. */
  ghost predicate Dispatched(s: State)
    requires Indexed(s)
  {
    (forall j :: 0 <= j < |s.procs| && j != s.running ==>
       (s.procs[j].status == Ready <==> j in s.queue) && s.procs[j].status != Running) &&
    (s.running != -1 ==>
       s.running !in s.queue &&
       (s.procs[s.running].status == Ready || s.procs[s.running].status == Running)) &&
    s.slice >= 0 && (s.running == -1 ==> s.slice == 0)
  }

  /** A settled state is in particular dispatched. */
  lemma SettledDispatched(cfg: Config, s: State)
    requires Indexed(s) && Settled(cfg, s)
    ensures Dispatched(s)
  {
  }

  /** Taking the entry at queue position `k` while the CPU is free. */
  lemma TakeKeeps(cfg: Config, s: State, k: int)
    requires Core(cfg, s, |s.procs|) && Settled(cfg, s) && s.running == -1 && 0 <= k < |s.queue|
    ensures Core(cfg, s.(running := s.queue[k], queue := RemoveAt(s.queue, k)), |s.procs|)
    ensures Dispatched(s.(running := s.queue[k], queue := RemoveAt(s.queue, k)))
  {
    RemoveAtMembers(s.queue, k);
  }

  /** The running process handed back: marked Ready, queued, CPU free. */
  function Release(s: State): State
    requires Indexed(s) && s.running != -1
  {
    s.(procs := s.procs[s.running := s.procs[s.running].(status := Ready)],
       queue := s.queue + [s.running], running := -1, slice := 0)
  }

  /** With nothing queued the selection frees the CPU. */
  lemma EmptyDispatch(cfg: Config, a: State)
    requires Indexed(a) && Settled(cfg, a) && !Continues(cfg, a) && a.queue == []
    ensures a.running != -1 ==> ContextSwitch(Dispatch(cfg, a), a.running) == Release(a)
    ensures a.running == -1 ==> ContextSwitch(Dispatch(cfg, a), a.running) == a
  {
  }

  /** Otherwise the chosen entry is taken off the queue and a previous
      runner, if any, is handed back first. */
  lemma TakeDispatch(cfg: Config, a: State)
    requires Indexed(a) && NoDup(a.queue) && !Continues(cfg, a) && a.queue != []
    requires a.running != -1 ==> a.procs[a.running].status == Running && a.running !in a.queue
    ensures var k := ChosenPos(cfg.alg, a.procs, a.queue);
      var b := if a.running != -1 then Release(a) else a;
      ContextSwitch(Dispatch(cfg, a), a.running) == b.(running := b.queue[k], queue := RemoveAt(b.queue, k))
  {
    var k := ChosenPos(cfg.alg, a.procs, a.queue);
    IndexOfEntry(a.queue, k);
    if a.running != -1 {
      RemoveAtAppend(a.queue, a.running, k);
    }
  }

  /** Selection plus context switch keep the invariant. */
  lemma DispatchKeeps(cfg: Config, a: State)
    requires Core(cfg, a, |a.procs|) && Settled(cfg, a)
    ensures Core(cfg, ContextSwitch(Dispatch(cfg, a), a.running), |a.procs|)
    ensures Dispatched(ContextSwitch(Dispatch(cfg, a), a.running))
  {
    if Continues(cfg, a) {
      assert ContextSwitch(Dispatch(cfg, a), a.running) == a;
      SettledDispatched(cfg, a);
    } else if a.queue == [] {
      EmptyDispatch(cfg, a);
      if a.running != -1 {
        PreemptKeeps(cfg, a, |a.procs|);
        SettledDispatched(cfg, Release(a));
      } else {
        SettledDispatched(cfg, a);
      }
    } else {
      var k := ChosenPos(cfg.alg, a.procs, a.queue);
      assert a.running != -1 ==> a.procs[a.running].status == Running && a.running !in a.queue;
      TakeDispatch(cfg, a);
      if a.running != -1 {
        PreemptKeeps(cfg, a, |a.procs|);
        TakeKeeps(cfg, Release(a), k);
      } else {
        TakeKeeps(cfg, a, k);
      }
    }
  }

  // ------------------------------------------------------------ execution

  /** What every process record keeps over one tick of execution once record
      `r` is replaced by `x`: the per-process facts at the next time and the
      arrivals bookkeeping, with no arrival of the next time handled yet. */
  lemma UpdateLater(cfg: Config, c: State, r: int, x: Proc, ps: seq<Proc>, u: int)
    requires Core(cfg, c, |c.procs|) && 0 <= r < |c.procs| && ps == c.procs[r := x] && u == c.time + 1
    requires ProcOk(x, u) && x.arrival == c.procs[r].arrival
    requires x.status != Waiting && c.procs[r].status != Waiting
    ensures forall j :: 0 <= j < |ps| ==> ProcOk(ps[j], u)
    ensures WaitingUntil(ps, u, 0)
  {
    forall j | 0 <= j < |ps| ensures ProcOk(ps[j], u) {
      if j != r { ProcOkLater(c.procs[j], c.time); }
    }
  }

  /** The per-process facts for the process that ran in tick `t`, in each of
      the three ways the tick can end for it. */
  lemma RunOnceOk(p: Proc, t: int)
    requires ProcOk(p, t) && (p.status == Ready || p.status == Running) && p.arrival <= t
    ensures RunOnce(p, t).remaining == p.remaining - 1
    ensures RunOnce(p, t).remaining > 0 ==>
              ProcOk(RunOnce(p, t), t + 1) && ProcOk(RunOnce(p, t).(status := Ready), t + 1)
    ensures RunOnce(p, t).remaining == 0 ==> ProcOk(Complete(RunOnce(p, t), t), t + 1)
  {
  }

  /** Every record's per-process facts survive one tick of the clock. */
  lemma AllOkLater(ps: seq<Proc>, t: int)
    requires forall j :: 0 <= j < |ps| ==> ProcOk(ps[j], t)
    ensures forall j :: 0 <= j < |ps| ==> ProcOk(ps[j], t + 1)
  {
    forall j | 0 <= j < |ps| ensures ProcOk(ps[j], t + 1) {
      ProcOkLater(ps[j], t);
    }
  }

  /** Logging one tick keeps the log contiguous and the busy counter in step
      with it. */
  lemma LogStep(g: seq<Segment>, t: int, busy: int, pid: Subject, h: seq<Segment>, u: int, b: int)
    requires Timeline(g, t) && busy == CountBusy(Expand(g))
    requires h == Log(g, pid, t, t + 1) && u == t + 1 && b == busy + (if pid == Idle then 0 else 1)
    ensures Timeline(h, u) && b == CountBusy(Expand(h))
  {
    LogTick(g, t, pid);
    CountBusyAppend(Expand(g), pid);
  }

  /** The idle tick, per-process half. */
  lemma IdleCore(cfg: Config, c: State)
    requires Core(cfg, c, |c.procs|) && c.running == -1
    ensures Core(cfg, c.(gantt := Log(c.gantt, Idle, c.time, c.time + 1), time := c.time + 1), 0)
  {
    LogStep(c.gantt, c.time, c.busy, Idle, Log(c.gantt, Idle, c.time, c.time + 1), c.time + 1, c.busy);
    AllOkLater(c.procs, c.time);
  }

  /** A tick with no process selected: only the log and the clock move. */
  lemma IdleKeeps(cfg: Config, c: State)
    requires Core(cfg, c, |c.procs|) && Dispatched(c) && c.running == -1
    ensures Valid(cfg, Execute(cfg, c).(time := c.time + 1))
  {
    IdleCore(cfg, c);
    assert Settled(cfg, c.(gantt := Log(c.gantt, Idle, c.time, c.time + 1), time := c.time + 1));
  }

  /** After the tick in which `c.running` ran, the shared invariant holds of
      any state that records `x` for it, logs the tick, counts one more busy
      tick and keeps its queue and completion count in order. */
  lemma RunCore(cfg: Config, c: State, x: Proc, e: State)
    requires Core(cfg, c, |c.procs|) && Dispatched(c) && c.running != -1
    requires ProcOk(x, c.time + 1) && x.arrival == c.procs[c.running].arrival && x.status != Waiting
    requires e.time == c.time + 1 && e.procs == c.procs[c.running := x] && e.busy == c.busy + 1
    requires e.gantt == Log(c.gantt, Pid(x.id), c.time, c.time + 1)
    requires Indexed(e) && NoDup(e.queue) && e.completed == CountCompleted(e.procs)
    ensures Core(cfg, e, 0)
  {
    LogStep(c.gantt, c.time, c.busy, Pid(x.id), e.gantt, e.time, e.busy);
    UpdateLater(cfg, c, c.running, x, e.procs, e.time);
  }

  /** The record of the runner after its tick, the log with that tick, one
      more busy tick: the part common to the three ways a running tick ends. */
  function Ran(c: State): State
    requires Indexed(c) && c.running != -1
  {
    var p := RunOnce(c.procs[c.running], c.time);
    c.(procs := c.procs[c.running := p], busy := c.busy + 1, slice := c.slice + 1,
       gantt := Log(c.gantt, Pid(p.id), c.time, c.time + 1))
  }

  /** The branch of `Execute` taken when the runner used its last unit. */
  lemma CompleteShape(cfg: Config, c: State)
    requires Indexed(c) && c.running != -1 && RunOnce(c.procs[c.running], c.time).remaining == 0
    ensures Execute(cfg, c) ==
      Ran(c).(procs := c.procs[c.running := Complete(RunOnce(c.procs[c.running], c.time), c.time)],
              completed := c.completed + 1, running := -1, slice := 0)
  {
    assert -1 !in c.queue;
  }

  /** The running process completed. */
  lemma CompleteKeeps(cfg: Config, c: State)
    requires Core(cfg, c, |c.procs|) && Dispatched(c) && c.running != -1
    requires RunOnce(c.procs[c.running], c.time).remaining == 0
    ensures Valid(cfg, Execute(cfg, c).(time := c.time + 1))
  {
    var t, r := c.time, c.running;
    var x := Complete(RunOnce(c.procs[r], t), t);
    var e := Ran(c).(procs := c.procs[r := x], completed := c.completed + 1, running := -1, slice := 0, time := t + 1);
    CompleteShape(cfg, c);
    CompleteCore(cfg, c, e);
    assert Settled(cfg, e);
  }

  /** The invariant's shared half after a completion. */
  lemma CompleteCore(cfg: Config, c: State, e: State)
    requires Core(cfg, c, |c.procs|) && Dispatched(c) && c.running != -1
    requires RunOnce(c.procs[c.running], c.time).remaining == 0
    requires e == Ran(c).(procs := c.procs[c.running := Complete(RunOnce(c.procs[c.running], c.time), c.time)],
                          completed := c.completed + 1, running := -1, slice := 0, time := c.time + 1)
    ensures Core(cfg, e, 0)
  {
    var r := c.running;
    assert ProcOk(c.procs[r], c.time);
    RunOnceOk(c.procs[r], c.time);
    CountOneMore(c.procs, e.procs, r);
    RunCore(cfg, c, e.procs[r], e);
  }

  /** The running process used up its Round Robin quantum and is requeued. */
  lemma RequeueKeeps(cfg: Config, c: State)
    requires Core(cfg, c, |c.procs|) && Dispatched(c) && c.running != -1
    requires RunOnce(c.procs[c.running], c.time).remaining != 0
    requires cfg.alg == RR && c.slice + 1 >= cfg.quantum
    ensures Valid(cfg, Execute(cfg, c).(time := c.time + 1))
  {
    var t, r := c.time, c.running;
    var x := RunOnce(c.procs[r], t).(status := Ready);
    var e := Ran(c).(procs := c.procs[r := x], queue := c.queue + [r], running := -1, slice := 0, time := t + 1);
    assert Execute(cfg, c).(time := t + 1) == e;
    RequeueCore(cfg, c, e);
    RequeueSettled(cfg, c, x, e);
  }

  /** The invariant's shared half after a requeue. */
  lemma RequeueCore(cfg: Config, c: State, e: State)
    requires Core(cfg, c, |c.procs|) && Dispatched(c) && c.running != -1
    requires RunOnce(c.procs[c.running], c.time).remaining != 0
    requires e == Ran(c).(procs := c.procs[c.running := RunOnce(c.procs[c.running], c.time).(status := Ready)],
                          queue := c.queue + [c.running], running := -1, slice := 0, time := c.time + 1)
    ensures Core(cfg, e, 0)
  {
    var r := c.running;
    assert ProcOk(c.procs[r], c.time);
    RunOnceOk(c.procs[r], c.time);
    CountSame(c.procs, e.procs);
    AppendFresh(c.queue, r);
    RunCore(cfg, c, e.procs[r], e);
  }

  /** The Ready/queued correspondence after a requeue. */
  lemma RequeueSettled(cfg: Config, c: State, x: Proc, e: State)
    requires cfg.quantum > 0 && Indexed(c) && Dispatched(c) && c.running != -1 && x.status == Ready
    requires Indexed(e) && e.queue == c.queue + [c.running] && e.procs == c.procs[c.running := x]
    requires e.running == -1 && e.slice == 0
    ensures Settled(cfg, e)
  {
    forall j | 0 <= j < |e.procs| ensures e.procs[j].status == Ready <==> j in e.queue {
      assert j in e.queue <==> j in c.queue || j == c.running;
    }
  }

  /** The branch of `Execute` taken when the runner keeps the CPU. */
  lemma ContinueShape(cfg: Config, c: State)
    requires Indexed(c) && c.running != -1
    requires RunOnce(c.procs[c.running], c.time).remaining != 0
    requires !(cfg.alg == RR && c.slice + 1 >= cfg.quantum)
    ensures Execute(cfg, c) == Ran(c)
  {
  }

  /** The Ready/queued and Running correspondence when the runner stays. */
  lemma ContinueSettled(cfg: Config, c: State, e: State)
    requires Indexed(c) && Dispatched(c) && c.running != -1
    requires !(cfg.alg == RR && c.slice + 1 >= cfg.quantum)
    requires Indexed(e) && e.queue == c.queue && e.running == c.running && e.slice == c.slice + 1
    requires e.procs == c.procs[c.running := RunOnce(c.procs[c.running], c.time)]
    ensures Settled(cfg, e)
  {
  }

  /** The running process keeps the CPU into the next tick. */
  lemma ContinueKeeps(cfg: Config, c: State)
    requires Core(cfg, c, |c.procs|) && Dispatched(c) && c.running != -1
    requires RunOnce(c.procs[c.running], c.time).remaining != 0
    requires !(cfg.alg == RR && c.slice + 1 >= cfg.quantum)
    ensures Valid(cfg, Execute(cfg, c).(time := c.time + 1))
  {
    var e := Ran(c).(time := c.time + 1);
    ContinueShape(cfg, c);
    ContinueCore(cfg, c, e);
    ContinueSettled(cfg, c, e);
  }

  /** The invariant's shared half when the runner stays. */
  lemma ContinueCore(cfg: Config, c: State, e: State)
    requires Core(cfg, c, |c.procs|) && Dispatched(c) && c.running != -1
    requires RunOnce(c.procs[c.running], c.time).remaining != 0
    requires e == Ran(c).(time := c.time + 1)
    ensures Core(cfg, e, 0)
  {
    var r := c.running;
    assert ProcOk(c.procs[r], c.time);
    RunOnceOk(c.procs[r], c.time);
    CountSame(c.procs, e.procs);
    RunCore(cfg, c, e.procs[r], e);
  }

  /** Execution, completion and requeue bring the state to the invariant at
      the next time step. */
  lemma ExecuteKeeps(cfg: Config, c: State)
    requires Core(cfg, c, |c.procs|) && Dispatched(c)
    ensures Valid(cfg, Execute(cfg, c).(time := c.time + 1))
  {
    if c.running == -1 {
      IdleKeeps(cfg, c);
    } else if RunOnce(c.procs[c.running], c.time).remaining == 0 {
      CompleteKeeps(cfg, c);
    } else if cfg.alg == RR && c.slice + 1 >= cfg.quantum {
      RequeueKeeps(cfg, c);
    } else {
      ContinueKeeps(cfg, c);
    }
  }

  // ------------------------------------------------------------ bookkeeping

  /** Raising the waiting times of some Ready records keeps the invariant. */
  lemma WaitedKeeps(cfg: Config, x: State, ps: seq<Proc>)
    requires Valid(cfg, x) && |ps| == |x.procs|
    requires forall j :: 0 <= j < |ps| ==>
      ps[j] == x.procs[j] ||
      (x.procs[j].status == Ready && ps[j] == x.procs[j].(waitingTime := x.procs[j].waitingTime + 1))
    ensures Valid(cfg, x.(procs := ps))
  {
    var y := x.(procs := ps);
    forall j | 0 <= j < |ps|
      ensures ps[j].status == x.procs[j].status && ps[j].arrival == x.procs[j].arrival
      ensures ProcOk(ps[j], y.time)
    {
      assert ProcOk(x.procs[j], x.time);
    }
    CountSame(x.procs, ps);
  }

  /** Waiting-time accrual keeps the invariant: it only touches queued
      records, which are Ready. */
  lemma AccrueKeeps(cfg: Config, x: State)
    requires Valid(cfg, x)
    ensures Valid(cfg, AccrueWaiting(x))
  {
    var ps := AccrueWaiting(x).procs;
    forall j | 0 <= j < |ps|
      ensures ps[j] == x.procs[j] ||
        (x.procs[j].status == Ready && ps[j] == x.procs[j].(waitingTime := x.procs[j].waitingTime + 1))
    {
      if j in x.queue && j != x.running {
        assert x.procs[j].status == Ready;
      }
    }
    WaitedKeeps(cfg, x, ps);
    assert AccrueWaiting(x) == x.(procs := ps);
  }

  /** In a valid state every queued record is Ready already, so the status
      refresh changes nothing. */
  lemma RefreshIdle(cfg: Config, y: State)
    requires Indexed(y) && Settled(cfg, y)
    ensures RefreshReady(y) == y
  {
    assert RefreshReady(y).procs == y.procs;
  }

  /** Waiting-time accrual and the ready-status refresh keep the invariant;
      the refresh changes nothing in a valid state. */
  lemma BookkeepingKeeps(cfg: Config, x: State)
    requires Valid(cfg, x)
    ensures Valid(cfg, RefreshReady(AccrueWaiting(x)))
    ensures RefreshReady(AccrueWaiting(x)) == AccrueWaiting(x)
  {
    AccrueKeeps(cfg, x);
    RefreshIdle(cfg, AccrueWaiting(x));
  }

  // ------------------------------------------------------------ the step

  /** The state of a tick after arrivals, selection and context switch. */
  function Prepared(cfg: Config, s: State): State
    requires Indexed(s)
  {
    var a := Arrivals(cfg, s);
    ContextSwitch(Dispatch(cfg, a), a.running)
  }

  /** The state of a tick after execution, with the clock already advanced. */
  function Executed(cfg: Config, s: State): State
    requires Indexed(s)
  {
    var c := Prepared(cfg, s);
    Execute(cfg, c).(time := c.time + 1)
  }

  /** The waiting-time accrual and the status refresh do not read the clock. */
  lemma TickShape(cfg: Config, s: State)
    requires Indexed(s)
    ensures Tick(cfg, s) == RefreshReady(AccrueWaiting(Executed(cfg, s)))
  {
    var c := Prepared(cfg, s);
    var e := Execute(cfg, c);
    var w := RefreshReady(AccrueWaiting(e));
    assert Tick(cfg, s) == w.(time := w.time + 1);
    assert e.time == c.time;
    BookkeepingClock(e, c.time + 1);
  }

  /** Moving the clock commutes with the bookkeeping phases. */
  lemma BookkeepingClock(e: State, t: int)
    requires Indexed(e)
    ensures RefreshReady(AccrueWaiting(e.(time := t))) == RefreshReady(AccrueWaiting(e)).(time := t)
    ensures RefreshReady(AccrueWaiting(e)).time == e.time
  {
    assert AccrueWaiting(e.(time := t)) == AccrueWaiting(e).(time := t);
  }

  lemma PreparedKeeps(cfg: Config, s: State)
    requires Valid(cfg, s)
    ensures Core(cfg, Prepared(cfg, s), |s.procs|) && Dispatched(Prepared(cfg, s))
  {
    ArriveUpToKeeps(cfg, s, |s.procs|);
    DispatchKeeps(cfg, Arrivals(cfg, s));
  }

  lemma ExecutedKeeps(cfg: Config, s: State)
    requires Valid(cfg, s)
    ensures Valid(cfg, Executed(cfg, s))
  {
    var c := Prepared(cfg, s);
    PreparedKeeps(cfg, s);
    ExecuteKeeps(cfg, c);
    assert Executed(cfg, s) == Execute(cfg, c).(time := c.time + 1);
  }

  /** The phases of a tick in terms of the lemmas above. */
  lemma TickKeeps(cfg: Config, s: State)
    requires Valid(cfg, s)
    ensures Valid(cfg, Tick(cfg, s))
  {
    ExecutedKeeps(cfg, s);
    BookkeepingKeeps(cfg, Executed(cfg, s));
    TickShape(cfg, s);
  }

  /** A tick seen from the state right after execution: the queue has no
      duplicates there, the bookkeeping phases and the clock finish the tick,
      and the tick keeps the invariant. */
  lemma TickFrom(cfg: Config, s: State, e: State)
    requires Valid(cfg, s) && e == Execute(cfg, Prepared(cfg, s))
    ensures NoDup(e.queue)
    ensures Tick(cfg, s) == RefreshReady(AccrueWaiting(e)).(time := e.time + 1)
    ensures Valid(cfg, Tick(cfg, s))
  {
    ExecutedKeeps(cfg, s);
    assert Executed(cfg, s).queue == e.queue;
    var w := RefreshReady(AccrueWaiting(e));
    BookkeepingClock(e, e.time);
    assert Tick(cfg, s) == w.(time := w.time + 1);
    TickKeeps(cfg, s);
  }

  /** `simulationStep` keeps the invariant. */
  lemma StepKeeps(cfg: Config, s: State)
    requires Valid(cfg, s)
    ensures Valid(cfg, Step(cfg, s))
  {
    if !(|s.procs| == 0 || s.completed >= |s.procs|) {
      TickKeeps(cfg, s);
    }
  }
}
