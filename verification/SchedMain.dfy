/** Starting the simulator, and the thread of a single simulated CPU. */
module SchedMain {
  import opened Basics
  import opened SchedTypes
  import opened SchedSteps
  import opened SchedBalance
  import opened SchedTheorems
  import opened SchedOneCpu
  import opened SchedMachine

  /** `sched_start` up to the creation of the CPU threads. */
  method SchedStart(cfg: Config, ps: seq<Profile>, n: nat) returns (m: Machine)
    requires n >= 1
    ensures fresh(m) && fresh(m.tasks) && fresh(m.rqs)
    ensures m.cfg == cfg && m.Valid() && m.State() == BootSys(cfg, ps, n)
  {
    var tasks := NewTasks(cfg, ps, n);
    var rqs := NewQueues(n);
    m := new Machine(cfg, tasks, rqs);
    for i := 0 to |ps|
      invariant m.events == seq(n, c requires 0 <= c < n => Arrivals(ps, n, c, i)) && !m.aborted
      invariant forall j :: 0 <= j < |tasks| ==> tasks[j].Val() == Loaded(cfg, ps[j], j, n)
      invariant forall d :: 0 <= d < n ==> rqs[d].Val() == Rq([], None, false, 0, d % n)
    {
      m.InsertSchedEvent(Event(i, NewTask, ps[i].arrival), i % n);
    }
    assert m.State() == BootSys(cfg, ps, n) by {
      assert m.State().tasks == LoadTasks(cfg, ps, n);
    }
  }

  /** The task descriptors, one per line of the task file, dealt out to the CPUs in turn. */
  method NewTasks(cfg: Config, ps: seq<Profile>, n: nat) returns (tasks: seq<TaskDesc>)
    requires n >= 1
    ensures |tasks| == |ps| && fresh(tasks)
    ensures forall j :: 0 <= j < |ps| ==> tasks[j].id == j && tasks[j].Val() == Loaded(cfg, ps[j], j, n)
  {
    tasks := [];
    for i := 0 to |ps|
      invariant |tasks| == i && fresh(tasks)
      invariant forall j :: 0 <= j < i ==> tasks[j].id == j && tasks[j].Val() == Loaded(cfg, ps[j], j, n)
    {
      var t := new TaskDesc(i, ps[i].prio, ps[i].arrival, ps[i].phases, i % n,
                            if Sliced(cfg.policy) then Quantum(cfg) else 0);
      tasks := tasks + [t];
    }
  }

  /** The run queues, one per CPU. */
  method NewQueues(n: nat) returns (rqs: seq<RunQueue>)
    requires n >= 1
    ensures |rqs| == n && fresh(rqs)
    ensures forall d :: 0 <= d < n ==> rqs[d].cpu == d && rqs[d].Val() == Rq([], None, false, 0, d % n)
  {
    rqs := [];
    for c := 0 to n
      invariant |rqs| == c && fresh(rqs)
      invariant forall d :: 0 <= d < c ==> rqs[d].cpu == d && rqs[d].Val() == Rq([], None, false, 0, d % n)
    {
      var q := new RunQueue(c, n);
      rqs := rqs + [q];
    }
  }

  /** One turn of the loop of `sched_cpu` with nr_cpus == 1, and the new value of `cpus_completed`. */
  method SoloTurn(m: Machine, step: nat) returns (completed: nat)
    requires m.Valid() && |m.rqs| == 1
    modifies m, m.tasks, m.rqs
    ensures m.Valid() && m.State() == Round(m.cfg, old(m.State()), step)
    ensures completed == if HasCompleted(m.State(), 0) then 1 else 0
  {
    hide FireAll, Tick, LoadBalance, Schedule, HasCompleted, WellFormed, Machine.Valid, Machine.State, RunQueue.Val, TaskDesc.Val;
    m.SchedulerTick(0, step);
    var count := m.ProcessSchedEvents(0, step + 1);
    SoloIsLoadBalance(m.cfg, m.State(), step);
    m.LoadBalanceCpu(0, step);
    m.ScheduleCpu(0, step);
    CompletedFields(m);
    completed := if m.rqs[0].nrRunnable == 0 && m.events[0] == [] then 1 else 0;
  }

  /** `sched_cpu` and `synchronize_cpus` for nr_cpus == 1: the loop stops after the first step that leaves the CPU complete,
      and after max_simulation_steps at the latest. */
  method SchedCpuSolo(m: Machine, ghost ps: seq<Profile>, maxSteps: nat) returns (step: nat)
    requires m.Valid() && m.State() == BootSys(m.cfg, ps, 1) && ProfilesOk(ps)
    modifies m, m.tasks, m.rqs
    ensures m.Valid() && step <= maxSteps
    ensures m.State() == Rounds(m.cfg, Started(m.cfg, ps), 0, step)
    ensures step < maxSteps ==> HasCompleted(m.State(), 0)
    ensures maxSteps >= 1 ==> step >= 1
    ensures forall j :: 1 <= j < step ==> !HasCompleted(Rounds(m.cfg, Started(m.cfg, ps), 0, j), 0)
    ensures maxSteps >= MaxArrival(ps) + TotalWork(ps) ==>
      forall x :: 0 <= x < |m.tasks| ==> m.tasks[x].state == Completed
  {
    hide *;
    assert |m.rqs| == 1 by { BootShape(m, ps); }
    StartedIs(m.cfg, ps);
    ghost var s0 := Started(m.cfg, ps);
    var count := m.ProcessSchedEvents(0, 0);
    m.FirstPickOf(0);
    step := 0;
    var completed := 0;
    NotYetFirst(m.cfg, s0);
    RoundsFrom(m.cfg, s0, 0);
    while completed < 1 && step < maxSteps
      invariant m.Valid() && step <= maxSteps && completed <= 1
      invariant m.State() == Rounds(m.cfg, s0, 0, step)
      invariant completed == 1 <==> step >= 1 && HasCompleted(m.State(), 0)
      invariant NotYet(m.cfg, s0, step)
      decreases maxSteps - step
    {
      NotYetStep(m.cfg, s0, step);
      RoundsFrom(m.cfg, s0, step);
      completed := SoloTurn(m, step);
      step := step + 1;
    }
    NotYetMeans(m.cfg, s0, step);
    TaskStates(m);
    if maxSteps >= MaxArrival(ps) + TotalWork(ps) { LoopEnds(m.cfg, ps, step, maxSteps); }
  }

  /** After none of the steps before this one was the CPU complete. */
  ghost predicate NotYet(cfg: Config, s: Sys, step: nat)
    requires WellFormed(s) && |s.rqs| == 1
  {
    forall j :: 1 <= j < step ==> !HasCompleted(Rounds(cfg, s, 0, j), 0)
  }

  lemma NotYetFirst(cfg: Config, s: Sys)
    requires WellFormed(s) && |s.rqs| == 1
    ensures NotYet(cfg, s, 0)
  {
  }

  lemma NotYetStep(cfg: Config, s: Sys, step: nat)
    requires WellFormed(s) && |s.rqs| == 1 && NotYet(cfg, s, step)
    ensures (step >= 1 && HasCompleted(Rounds(cfg, s, 0, step), 0)) || NotYet(cfg, s, step + 1)
  {
    hide HasCompleted, Rounds;
  }

  lemma NotYetMeans(cfg: Config, s: Sys, step: nat)
    requires WellFormed(s) && |s.rqs| == 1 && NotYet(cfg, s, step)
    ensures forall j :: 1 <= j < step ==> !HasCompleted(Rounds(cfg, s, 0, j), 0)
  {
  }

  lemma StartedIs(cfg: Config, ps: seq<Profile>)
    ensures var s := BootSys(cfg, ps, 1);
      WellFormed(s) && |s.rqs| == 1 && Started(cfg, ps) == FirstPick(FireAll(cfg, s, 0, 0), 0)
  {
    hide FireAll, FirstPick;
    var s := Started(cfg, ps);
  }

  lemma RoundsFrom(cfg: Config, s: Sys, step: nat)
    requires WellFormed(s) && |s.rqs| == 1
    ensures Rounds(cfg, s, 0, 0) == s
    ensures Rounds(cfg, s, 0, step + 1) == Round(cfg, Rounds(cfg, s, 0, step), step)
  {
    hide Round;
  }

  lemma BootShape(m: Machine, ps: seq<Profile>)
    requires m.State() == BootSys(m.cfg, ps, 1)
    ensures |m.rqs| == 1
  {
  }

  lemma CompletedFields(m: Machine)
    requires m.Valid() && |m.rqs| == 1
    ensures |m.events| == 1 && WellFormed(m.State())
    ensures HasCompleted(m.State(), 0) <==> m.rqs[0].nrRunnable == 0 && m.events[0] == []
  {
  }

  lemma SoloIsLoadBalance(cfg: Config, s: Sys, now: int)
    requires WellFormed(s) && |s.rqs| == 1
    ensures LoadBalance(cfg, s, 0, now) == SoloBalance(s, now)
  {
  }

  lemma TaskStates(m: Machine)
    ensures |m.State().tasks| == |m.tasks|
    ensures forall x :: 0 <= x < |m.tasks| ==> m.State().tasks[x].state == m.tasks[x].state
  {
  }
}
