/** The scheduler's own structures, updated in place: task descriptors, run queues and event lists. Each method is
    proved to take the state of the machine to the one given by the function of module SchedSteps. */
module SchedMachine {
  import opened Basics
  import opened SchedTypes
  import opened SchedSteps
  import opened SchedBalance
  import opened Sequences

  /** task_t */
  class TaskDesc {
    const id: nat
    const prio: int
    const arrival: nat
    const phases: seq<int>
    var curPhase: nat
    var state: TaskState
    var lastCpu: nat
    var lastEnqueued: int
    var ticksLeft: int
    var onRq: bool
    var insertFront: bool
    var slice: int
    var userTime: int
    var realTime: int
    var sysTime: int
    var regs: seq<LogRegister>

    constructor (id: nat, prio: int, arrival: nat, phases: seq<int>, cpu: nat, slice: int)
      ensures this.id == id
      ensures Val() == Task(prio, arrival, phases, 0, Starting, cpu, 0, 0, false, false, slice, 0, 0, 0, [])
    {
      this.id, this.prio, this.arrival, this.phases := id, prio, arrival, phases;
      curPhase, state, lastCpu, lastEnqueued, ticksLeft := 0, Starting, cpu, 0, 0;
      onRq, insertFront, this.slice := false, false, slice;
      userTime, realTime, sysTime, regs := 0, 0, 0, [];
    }

    function Val(): Task
      reads this
    {
      Task(prio, arrival, phases, curPhase, state, lastCpu, lastEnqueued, ticksLeft, onRq, insertFront, slice,
           userTime, realTime, sysTime, regs)
    }

    /** The class-private fields of a task that is being queued. */
    method MarkQueued(cfg: Config)
      modifies this
      ensures Val() == Queued(cfg, old(Val()))
    {
      if Sliced(cfg.policy) { slice := Quantum(cfg); }
      if SortedClass(cfg.policy) { insertFront := false; }
    }

    /** The charges of a tick to the running task. */
    method ChargeTick(cfg: Config, cpu: nat, now: int)
      modifies this
      ensures Val() == Charge(cfg, old(Val()), cpu, now)
    {
      hide AddLog;
      userTime := userTime + 1;
      realTime := realTime + 1;
      lastCpu := cpu;
      if Sliced(cfg.policy) { slice := slice - 1; }
      AddLogRegister(OnProc, cpu, now, 1);
      ticksLeft := ticksLeft - 1;
    }

    /** The task exits, or goes to sleep with its I/O charged in advance. */
    method LeaveCpu(cpu: nat, now: int)
      modifies this
      ensures Val() == Leave(old(Val()), cpu, now)
    {
      hide AddLog;
      curPhase := curPhase + 1;
      if curPhase >= |phases| {
        state := Completed;
      } else if PhaseIsIo(curPhase) {
        var len := phases[curPhase];
        sysTime := sysTime + len;
        realTime := realTime + len;
        state := Sleep;
        AddLogRegister(Sleep, cpu, now + 1, len);
      }
    }

    /** The task moves on to phase k, and completes if there is none. */
    method EnterPhase(k: nat)
      modifies this
      ensures Val() == old(Val()).(curPhase := k, state := if k >= |phases| then Completed else old(state))
    {
      curPhase := k;
      if k >= |phases| { state := Completed; }
    }

    /** The task becomes runnable in its current phase. */
    method MakeRunnable(step: int)
      modifies this
      ensures Val() == old(Val()).(ticksLeft := PhaseLen(old(Val()), old(curPhase)), lastEnqueued := step, state := Runnable)
    {
      ticksLeft := if curPhase < |phases| then phases[curPhase] else 0;
      lastEnqueued := step;
      state := Runnable;
    }

    /** The ready time of a migrated task. */
    method ChargeMigration(src: nat, now: int)
      modifies this
      ensures Val() == Migrated(old(Val()), src, now)
    {
      var timeOnRq := now - lastEnqueued + 1;
      realTime := realTime + timeOnRq;
      AddLogRegister(Runnable, src, lastEnqueued, timeOnRq);
      lastEnqueued := now + 1;
    }

    /** The outgoing side of a context switch. */
    method LeaveRunning(now: int)
      modifies this
      ensures Val() == SwitchOut(old(Val()), now)
    {
      if state == OnProc {
        state := Runnable;
        lastEnqueued := now + 1;
      }
    }

    /** The incoming side of a context switch. */
    method StartRunning(cpu: nat, now: int)
      modifies this
      ensures Val() == SwitchIn(old(Val()), cpu, now)
    {
      state := OnProc;
      var waited := now - lastEnqueued + 1;
      realTime := realTime + waited;
      AddLogRegister(Runnable, cpu, lastEnqueued, waited);
    }

    method SetState(st: TaskState)
      modifies this
      ensures Val() == old(Val()).(state := st)
    {
      state := st;
    }

    method SetInsertFront()
      modifies this
      ensures Val() == old(Val()).(insertFront := true)
    {
      insertFront := true;
    }

    method SetOnRq(flag: bool)
      modifies this
      ensures Val() == old(Val()).(onRq := flag)
    {
      onRq := flag;
    }

    method SetLastCpu(cpu: nat)
      modifies this
      ensures Val() == old(Val()).(lastCpu := cpu)
    {
      lastCpu := cpu;
    }

    /** `add_log_register` */
    method AddLogRegister(st: TaskState, cpu: nat, when: int, howLong: int)
      modifies this
      ensures Val() == old(Val()).(regs := AddLog(old(regs), st, cpu, when, howLong))
    {
      if howLong == 0 { return; }
      if regs == [] || regs[|regs| - 1].state != st || regs[|regs| - 1].cpu != cpu {
        regs := regs + [LogRegister(st, cpu, when, howLong)];
      } else {
        var last := regs[|regs| - 1];
        regs := regs[|regs| - 1 := last.(howLong := last.howLong + howLong)];
      }
    }
  }

  /** runqueue_t. Task pointers are positions in the task table; `cur == None` stands for the idle task. */
  class RunQueue {
    const cpu: nat
    var queue: seq<nat>
    var cur: Option<nat>
    var needResched: bool
    var nrRunnable: int
    var nextLb: int

    constructor (cpu: nat, nrCpus: nat)
      requires nrCpus > 0
      ensures this.cpu == cpu && Val() == Rq([], None, false, 0, cpu % nrCpus)
    {
      this.cpu := cpu;
      queue, cur, needResched, nrRunnable, nextLb := [], None, false, 0, cpu % nrCpus;
    }

    function Val(): Rq
      reads this
    {
      Rq(queue, cur, needResched, nrRunnable, nextLb)
    }
  }

  class Machine {
    const cfg: Config
    const tasks: seq<TaskDesc>
    const rqs: seq<RunQueue>
    var events: seq<seq<Event>>
    var aborted: bool

    constructor (cfg: Config, tasks: seq<TaskDesc>, rqs: seq<RunQueue>)
      ensures this.cfg == cfg && this.tasks == tasks && this.rqs == rqs
      ensures events == seq(|rqs|, _ => []) && !aborted
    {
      this.cfg, this.tasks, this.rqs := cfg, tasks, rqs;
      events := seq(|rqs|, _ => []);
      aborted := false;
    }

    ghost function TaskVals(): (r: seq<Task>)
      reads tasks
      ensures |r| == |tasks|
    {
      seq(|tasks|, i requires 0 <= i < |tasks| reads tasks => tasks[i].Val())
    }

    ghost function RqVals(): (r: seq<Rq>)
      reads rqs
      ensures |r| == |rqs|
    {
      seq(|rqs|, c requires 0 <= c < |rqs| reads rqs => rqs[c].Val())
    }

    /** The state of the whole machine as a value. */
    ghost function State(): (s: Sys)
      reads this, tasks, rqs
      ensures |s.tasks| == |tasks| && |s.rqs| == |rqs| && s.events == events && s.aborted == aborted
      ensures forall i :: 0 <= i < |tasks| ==> s.tasks[i] == tasks[i].Val()
      ensures forall c :: 0 <= c < |rqs| ==> s.rqs[c] == rqs[c].Val()
    {
      Sys(TaskVals(), RqVals(), events, aborted)
    }

    /** Task descriptors and run queues are distinct objects, and every stored index is one of a task. */
    ghost predicate Valid()
      reads this, tasks, rqs
    {
      && (forall i :: 0 <= i < |tasks| ==> tasks[i].id == i)
      && (forall c :: 0 <= c < |rqs| ==> rqs[c].cpu == c)
      && |events| == |rqs|
      && WellFormed(State())
    }

    /** A state that differs from s in task x and run queue c. */
    lemma Framed(s: Sys, x: nat, c: nat)
      requires |s.tasks| == |tasks| && |s.rqs| == |rqs| && x < |tasks| && c < |rqs|
      requires forall i :: 0 <= i < |tasks| && i != x ==> tasks[i].Val() == s.tasks[i]
      requires forall d :: 0 <= d < |rqs| && d != c ==> rqs[d].Val() == s.rqs[d]
      ensures State().tasks == s.tasks[x := tasks[x].Val()]
      ensures State().rqs == s.rqs[c := rqs[c].Val()]
    {
    }

    // ------------------------------------------------------------ the classes

    /** The comparator of the class. */
    function KeyOf(t: TaskDesc): (k: int)
      reads t
      ensures k == Key(cfg.policy, t.Val())
    {
      if cfg.policy.Prio? then t.prio else t.ticksLeft
    }

    /** The search loop of `sorted_insert_slist` and `sorted_insert_slist_front` on a queue. */
    method FindPlace(c: nat, x: nat) returns (k: nat)
      requires Valid() && c < |rqs| && x < |tasks|
      ensures k == InsertPos(QueueKeys(cfg.policy, State().tasks, rqs[c].queue), KeyOf(tasks[x]), Ascending(cfg.policy), tasks[x].insertFront)
      ensures k <= |rqs[c].queue|
    {
      k := 0;
      var q, t := rqs[c].queue, tasks[x];
      assert RqInRange(State().rqs[c], |tasks|);
      ghost var keys := QueueKeys(cfg.policy, State().tasks, q);
      assert forall i :: 0 <= i < |q| ==> keys[i] == KeyOf(tasks[q[i]]);
      while k < |q| && !StopsAt(KeyOf(tasks[q[k]]), KeyOf(t), Ascending(cfg.policy), t.insertFront)
        invariant k <= |q|
        invariant InsertPos(keys, KeyOf(t), Ascending(cfg.policy), t.insertFront)
               == k + InsertPos(keys[k..], KeyOf(t), Ascending(cfg.policy), t.insertFront)
      {
        assert keys[k..][1..] == keys[k + 1..];
        k := k + 1;
      }
    }

    /** `enqueue_task` of the classes without an order: FCFS, and RR with its time slice. */
    method EnqueueFifo(x: nat, c: nat, ghost preempted: bool)
      requires Valid() && x < |tasks| && c < |rqs| && !SortedClass(cfg.policy)
      modifies tasks[x], rqs[c]
      ensures State() == ClassEnqueue(cfg, old(State()), x, c, preempted)
      ensures Valid()
    {
      hide WellFormed, InsertPos, Machine.State, Machine.TaskVals, Machine.RqVals;
      var t, q := tasks[x], rqs[c];
      ghost var s := State();
      assert s.tasks[x] == t.Val() && s.rqs[c] == q.Val();
      if t.onRq { return; }
      q.queue := InsertAt(q.queue, |q.queue|, x);
      t.MarkQueued(cfg);
      Framed(s, x, c);
    }

    /** The sorted insertion of SJF, PRIO, TJF and TJFEX. */
    method InsertSorted(x: nat, c: nat)
      requires Valid() && x < |tasks| && c < |rqs| && SortedClass(cfg.policy)
      modifies tasks[x], rqs[c]
      ensures State() == ClassInsert(cfg, old(State()), x, c)
      ensures Valid()
    {
      hide WellFormed, InsertPos, TaskDesc.Val, Queued, QueueKeys, Machine.State, Machine.TaskVals, Machine.RqVals;
      var t, q := tasks[x], rqs[c];
      ghost var s := State();
      assert t.Val().insertFront == t.insertFront by { TaskFields(t); }
      var k := FindPlace(c, x);
      t.MarkQueued(cfg);
      q.queue := InsertAt(q.queue, k, x);
      Framed(s, x, c);
    }

    /** The preemption test of the sorted classes. */
    method PreemptionTest(x: nat, c: nat)
      requires Valid() && x < |tasks| && c < |rqs| && SortedClass(cfg.policy)
      modifies tasks, rqs[c]
      ensures State() == CheckPreemption(cfg, old(State()), x, c)
      ensures Valid()
    {
      ghost var s := State();
      CurrentInRange(s, c);
      hide WellFormed, TaskDesc.Val, Machine.State, Machine.TaskVals, Machine.RqVals;
      var t, q := tasks[x], rqs[c];
      var curKey := if q.cur.None? then 0 else KeyOf(tasks[q.cur.value]);
      if cfg.preemptive && KeyOf(t) < curKey {
        q.needResched := true;
        if q.cur.Some? { tasks[q.cur.value].SetInsertFront(); }
        Framed(s, if q.cur.None? then x else q.cur.value, c);
      }
    }

    /** `enqueue_task` of SJF, PRIO, TJF and TJFEX. */
    method EnqueueSorted(x: nat, c: nat, preempted: bool)
      requires Valid() && x < |tasks| && c < |rqs| && SortedClass(cfg.policy)
      modifies tasks, rqs[c]
      ensures State() == ClassEnqueue(cfg, old(State()), x, c, preempted)
      ensures Valid()
    {
      hide ClassInsert, CheckPreemption, WellFormed, Machine.State, Machine.TaskVals, Machine.RqVals;
      assert tasks[x].Val().onRq == tasks[x].onRq;
      if tasks[x].onRq { return; }
      InsertSorted(x, c);
      if !preempted { PreemptionTest(x, c); }
    }

    lemma CurrentInRange(s: Sys, c: nat)
      requires WellFormed(s) && c < |s.rqs|
      ensures s.rqs[c].cur.Some? ==> s.rqs[c].cur.value < |s.tasks|
    {
    }

    lemma TaskFields(t: TaskDesc)
      ensures t.Val().onRq == t.onRq && t.Val().state == t.state && t.Val().insertFront == t.insertFront
      ensures t.Val().phases == t.phases && t.Val().curPhase == t.curPhase && t.Val().ticksLeft == t.ticksLeft
      ensures t.Val().lastEnqueued == t.lastEnqueued && t.Val().slice == t.slice
    {
    }

    /** `active_sched_class->enqueue_task` */
    method ClassEnqueueTask(x: nat, c: nat, preempted: bool)
      requires Valid() && x < |tasks| && c < |rqs|
      modifies tasks, rqs[c]
      ensures State() == ClassEnqueue(cfg, old(State()), x, c, preempted)
      ensures Valid()
    {
      if SortedClass(cfg.policy) {
        EnqueueSorted(x, c, preempted);
      } else {
        EnqueueFifo(x, c, preempted);
      }
    }

    // ------------------------------------------------------------ sched.c

    /** Task x is on a queue, or on none. */
    method MarkOnRq(x: nat, flag: bool)
      requires Valid() && x < |tasks|
      modifies tasks[x]
      ensures var s := old(State()); State() == s.(tasks := s.tasks[x := s.tasks[x].(onRq := flag)])
      ensures Valid()
    {
      hide WellFormed, TaskDesc.Val, Machine.State, Machine.TaskVals, Machine.RqVals;
      ghost var s := State();
      tasks[x].SetOnRq(flag);
      FramedTask(s, x);
      assert WellFormed(State()) by { OnlyTasksChanged(s, State()); }
    }

    /** Task x is on the queue of CPU c, which counts it. */
    method AssignToCpu(x: nat, c: nat)
      requires Valid() && x < |tasks| && c < |rqs|
      modifies tasks[x], rqs[c]
      ensures var s := old(State());
        State() == s.(tasks := s.tasks[x := s.tasks[x].(onRq := true, lastCpu := c)],
                      rqs := s.rqs[c := s.rqs[c].(nrRunnable := s.rqs[c].nrRunnable + 1)])
      ensures Valid()
    {
      hide WellFormed, TaskDesc.Val, Machine.State, Machine.TaskVals, Machine.RqVals;
      ghost var s := State();
      tasks[x].SetOnRq(true);
      tasks[x].SetLastCpu(c);
      rqs[c].nrRunnable := rqs[c].nrRunnable + 1;
      Framed(s, x, c);
      assert WellFormed(State()) by { ChargedInRange(s, State(), x, c); }
    }

    /** `do_enqueue_task` */
    method DoEnqueueTask(x: nat, c: nat, runnable: bool)
      requires Valid() && x < |tasks| && c < |rqs|
      modifies tasks, rqs[c]
      ensures State() == DoEnqueue(cfg, old(State()), x, c, runnable)
      ensures Valid()
    {
      hide ClassEnqueue, WellFormed, TaskDesc.Val, Machine.State, Machine.TaskVals, Machine.RqVals;
      ClassEnqueueTask(x, c, runnable);
      if runnable { MarkOnRq(x, true); } else { AssignToCpu(x, c); }
    }

    /** `insert_sched_event` */
    method InsertSchedEvent(e: Event, cpu: nat)
      requires cpu < |events|
      modifies this`events
      ensures events == old(events)[cpu := InsertEvent(old(events)[cpu], e)]
    {
      var evs := events[cpu];
      var k := 0;
      while k < |evs| && evs[k].timeout <= e.timeout
        invariant k <= |evs|
        invariant InsertPos(Timeouts(evs), e.timeout, true, false) == k + InsertPos(Timeouts(evs)[k..], e.timeout, true, false)
      {
        assert Timeouts(evs)[k..][1..] == Timeouts(evs)[k + 1..];
        k := k + 1;
      }
      events := events[cpu := InsertAt(evs, k, e)];
    }

    /** A state that differs from s in task x only. */
    lemma FramedTask(s: Sys, x: nat)
      requires |s.tasks| == |tasks| && |s.rqs| == |rqs| && x < |tasks|
      requires forall i :: 0 <= i < |tasks| && i != x ==> tasks[i].Val() == s.tasks[i]
      requires forall d :: 0 <= d < |rqs| ==> rqs[d].Val() == s.rqs[d]
      ensures State().tasks == s.tasks[x := tasks[x].Val()]
      ensures State().rqs == s.rqs
    {
    }

    /** A state that differs from s in run queue c only. */
    lemma FramedRq(s: Sys, c: nat)
      requires |s.tasks| == |tasks| && |s.rqs| == |rqs| && c < |rqs|
      requires forall i :: 0 <= i < |tasks| ==> tasks[i].Val() == s.tasks[i]
      requires forall d :: 0 <= d < |rqs| && d != c ==> rqs[d].Val() == s.rqs[d]
      ensures State().tasks == s.tasks
      ensures State().rqs == s.rqs[c := rqs[c].Val()]
    {
    }

    /** The task has used up its ticks: the end of `scheduler_tick`. */
    method FinishPhaseOf(x: nat, c: nat, now: int)
      requires Valid() && c < |rqs| && x < |tasks|
      modifies this, tasks[x], rqs[c]
      ensures State() == FinishPhase(old(State()), x, c, now)
      ensures Valid()
    {
      hide WellFormed, TaskDesc.Val, Leave, InsertEvent, Machine.State, Machine.TaskVals, Machine.RqVals;
      ghost var s := State();
      var t, q := tasks[x], rqs[c];
      LeaveFields(t.Val(), c, now);
      TaskFields(t);
      q.nrRunnable := q.nrRunnable - 1;
      q.needResched := true;
      var k := t.curPhase + 1;
      t.LeaveCpu(c, now);
      if k < |t.phases| {
        if !PhaseIsIo(k) {
          aborted := true;
        } else {
          InsertSchedEvent(Event(x, TaskAwake, now + t.phases[k] + 1), c);
        }
      }
      Framed(s, x, c);
    }

    /** `scheduler_tick` */
    method SchedulerTick(c: nat, now: int)
      requires Valid() && c < |rqs|
      modifies this, tasks, rqs[c]
      ensures State() == Tick(cfg, old(State()), c, now)
      ensures Valid()
    {
      ghost var s := State();
      CurrentInRange(s, c);
      hide WellFormed, TaskDesc.Val, Charge, FinishPhase, Machine.State, Machine.TaskVals, Machine.RqVals;
      var q := rqs[c];
      if q.cur.None? { return; }
      var x := q.cur.value;
      var t := tasks[x];
      t.ChargeTick(cfg, c, now);
      TaskFields(t);
      if Sliced(cfg.policy) && t.slice <= 0 { q.needResched := true; }
      Framed(s, x, c);
      assert WellFormed(State()) by { ChargedInRange(s, State(), x, c); }
      if t.ticksLeft == 0 { FinishPhaseOf(x, c, now); }
    }

    lemma ChargedInRange(s: Sys, s': Sys, x: nat, c: nat)
      requires WellFormed(s) && c < |s.rqs| && x < |s.tasks| && |s'.tasks| == |s.tasks|
      requires s'.events == s.events && |s'.rqs| == |s.rqs|
      requires s'.rqs == s.rqs[c := s'.rqs[c]]
      requires s'.rqs[c].queue == s.rqs[c].queue && s'.rqs[c].cur == s.rqs[c].cur
      ensures WellFormed(s')
    {
    }

    lemma LeaveFields(t: Task, c: nat, now: int)
      ensures Leave(t, c, now).curPhase == t.curPhase + 1 && Leave(t, c, now).phases == t.phases
    {
      hide AddLog;
    }

    /** The wake-up of a task in its current phase, common to the two kinds of events. */
    method WakeUpTask(x: nat, c: nat, step: int)
      requires Valid() && c < |rqs| && x < |tasks|
      modifies tasks, rqs[c]
      ensures State() == WakeUp(cfg, old(State()), x, c, step)
      ensures Valid()
    {
      hide WellFormed, TaskDesc.Val, DoEnqueue, Machine.State, Machine.TaskVals, Machine.RqVals;
      ghost var s := State();
      TaskFields(tasks[x]);
      tasks[x].MakeRunnable(step);
      FramedTask(s, x);
      assert WellFormed(State()) by { OnlyTasksChanged(s, State()); }
      DoEnqueueTask(x, c, false);
    }

    lemma OnlyTasksChanged(s: Sys, s': Sys)
      requires WellFormed(s) && |s'.tasks| == |s.tasks| && s'.rqs == s.rqs && s'.events == s.events
      ensures WellFormed(s')
    {
    }

    /** A sleeping task's event: it goes on with its next phase or completes. */
    method AwakeTask(x: nat, c: nat, step: int)
      requires Valid() && c < |rqs| && x < |tasks|
      modifies this, tasks, rqs[c]
      ensures State() == Awake(cfg, old(State()), x, c, step)
      ensures Valid()
    {
      hide WellFormed, TaskDesc.Val, WakeUp, Machine.State, Machine.TaskVals, Machine.RqVals;
      ghost var s := State();
      var t := tasks[x];
      TaskFields(t);
      var k := t.curPhase + 1;
      t.EnterPhase(k);
      FramedTask(s, x);
      assert WellFormed(State()) by { OnlyTasksChanged(s, State()); }
      if k < |t.phases| {
        if PhaseIsIo(k) {
          aborted := true;
          FramedTask(s, x);
        } else {
          WakeUpTask(x, c, step);
        }
      }
    }

    /** One turn of the loop of `process_sched_events`. */
    method FireEvent(c: nat, step: int)
      requires Valid() && c < |rqs| && events[c] != []
      modifies this, tasks, rqs[c]
      ensures State() == Fire(cfg, old(State()), c, step)
      ensures Valid()
    {
      ghost var s := State();
      HeadInRange(s, c);
      hide WellFormed, TaskDesc.Val, WakeUp, Awake, Machine.State, Machine.TaskVals, Machine.RqVals;
      var e := events[c][0];
      var x := e.task;
      TaskFields(tasks[x]);
      events := events[c := events[c][1..]];
      SameVals(s);
      assert WellFormed(State()) by { EventsDropped(s, State(), c); }
      match e.kind
      case NewTask =>
        if PhaseIsIo(tasks[x].curPhase) {
          aborted := true;
          SameVals(s);
        } else {
          WakeUpTask(x, c, step);
        }
      case TaskAwake => AwakeTask(x, c, step);
    }

    lemma SameVals(s: Sys)
      requires |s.tasks| == |tasks| && |s.rqs| == |rqs|
      requires forall i :: 0 <= i < |tasks| ==> tasks[i].Val() == s.tasks[i]
      requires forall d :: 0 <= d < |rqs| ==> rqs[d].Val() == s.rqs[d]
      ensures State().tasks == s.tasks && State().rqs == s.rqs
    {
    }

    lemma HeadInRange(s: Sys, c: nat)
      requires WellFormed(s) && c < |s.events| && s.events[c] != []
      ensures s.events[c][0].task < |s.tasks|
    {
    }

    lemma EventsDropped(s: Sys, s': Sys, c: nat)
      requires WellFormed(s) && s'.tasks == s.tasks && s'.rqs == s.rqs && c < |s.events| && s.events[c] != []
      requires s'.events == s.events[c := s.events[c][1..]]
      ensures WellFormed(s')
    {
    }

    /** `process_sched_events`: the number of events that fired. */
    method ProcessSchedEvents(c: nat, step: int) returns (count: nat)
      requires Valid() && c < |rqs|
      modifies this, tasks, rqs[c]
      ensures State() == FireAll(cfg, old(State()), c, step)
      ensures Valid()
      ensures count + |events[c]| == |old(events)[c]|
    {
      hide WellFormed, TaskDesc.Val, Fire, Machine.State, Machine.TaskVals, Machine.RqVals;
      count := 0;
      while !aborted && events[c] != [] && events[c][0].timeout == step
        invariant Valid()
        invariant FireAll(cfg, State(), c, step) == FireAll(cfg, old(State()), c, step)
        invariant count + |events[c]| == |old(events)[c]|
        decreases |events[c]|
      {
        ghost var s := State();
        FireEvent(c, step);
        FireDropsOne(s, c, step);
        count := count + 1;
      }
    }

    lemma FireDropsOne(s: Sys, c: nat, step: int)
      requires WellFormed(s) && c < |s.rqs| && s.events[c] != []
      ensures Fire(cfg, s, c, step).events == s.events[c := s.events[c][1..]]
    {
      hide InsertPos, QueuePos, QueueKeys;
    }

    /** The tail x of the queue of src leaves it. */
    method DropTail(src: nat, x: nat)
      requires Valid() && src < |rqs| && rqs[src].queue != [] && x == rqs[src].queue[|rqs[src].queue| - 1] && x < |tasks|
      modifies tasks, rqs[src]
      ensures State() == Steal(old(State()), src)
      ensures Valid()
    {
      hide WellFormed, TaskDesc.Val, Machine.State, Machine.TaskVals, Machine.RqVals;
      ghost var s := State();
      var q := rqs[src];
      q.queue := q.queue[..|q.queue| - 1];
      q.nrRunnable := q.nrRunnable - 1;
      FramedRq(s, src);
      assert WellFormed(State()) by { TailDropped(s, State(), src); }
      MarkOnRq(x, false);
    }

    /** `steal_task` of every class, and the end of the stay on this queue. An empty queue has no task to steal. */
    method StealTask(src: nat) returns (stolen: Option<nat>)
      requires Valid() && src < |rqs|
      modifies tasks, rqs[src]
      ensures stolen.None? <==> old(rqs[src].queue) == []
      ensures stolen.None? ==> State() == old(State())
      ensures stolen.Some? ==> stolen.value < |tasks| && stolen.value == old(rqs[src].queue)[|old(rqs[src].queue)| - 1]
      ensures stolen.Some? ==> State() == Steal(old(State()), src)
      ensures Valid()
    {
      TailInRange(State(), src);
      var q := rqs[src].queue;
      hide WellFormed, TaskDesc.Val, Machine.State, Machine.TaskVals, Machine.RqVals, Steal;
      if q == [] { return None; }
      var x := q[|q| - 1];
      DropTail(src, x);
      stolen := Some(x);
    }

    lemma TailDropped(s: Sys, s': Sys, c: nat)
      requires WellFormed(s) && c < |s.rqs| && s.rqs[c].queue != [] && s'.tasks == s.tasks && s'.events == s.events
      requires var q := s.rqs[c];
        s'.rqs == s.rqs[c := q.(queue := q.queue[..|q.queue| - 1], nrRunnable := q.nrRunnable - 1)]
      ensures WellFormed(s')
    {
    }

    /** `move_one_task` */
    method MoveTask(src: nat, dst: nat, now: int)
      requires Valid() && src < |rqs| && dst < |rqs|
      modifies this, tasks, rqs[src], rqs[dst]
      ensures State() == MoveOneTask(cfg, old(State()), src, dst, now)
      ensures Valid()
    {
      hide WellFormed, TaskDesc.Val, DoEnqueue, Steal, Migrated, Machine.State, Machine.TaskVals, Machine.RqVals;
      ghost var s := State();
      var stolen := StealTask(src);
      if stolen.None? {
        aborted := true;
        SameVals(s);
        return;
      }
      var x := stolen.value;
      DoEnqueueTask(x, dst, false);
      ghost var s2 := State();
      tasks[x].ChargeMigration(src, now);
      FramedTask(s2, x);
    }

    lemma TailInRange(s: Sys, c: nat)
      requires WellFormed(s) && c < |s.rqs|
      ensures forall i :: 0 <= i < |s.rqs[c].queue| ==> s.rqs[c].queue[i] < |s.tasks|
    {
    }

    /** `pick_next_task` of every class, and the assignment of `cur_task`. */
    method PickNextTask(c: nat)
      requires Valid() && c < |rqs|
      modifies tasks, rqs[c]
      ensures State() == PickNext(old(State()), c)
      ensures Valid()
    {
      ghost var s := State();
      TailInRange(s, c);
      hide WellFormed, TaskDesc.Val, Machine.State, Machine.TaskVals, Machine.RqVals;
      var q := rqs[c];
      if q.queue == [] {
        q.cur := None;
        FramedRq(s, c);
      } else {
        var x := q.queue[0];
        tasks[x].SetOnRq(false);
        q.queue := q.queue[1..];
        q.cur := Some(x);
        Framed(s, x, c);
      }
    }

    /** The context switch of `schedule`. */
    method SwitchTasks(prev: Option<nat>, next: Option<nat>, c: nat, now: int)
      requires Valid() && (prev.Some? ==> prev.value < |tasks|) && (next.Some? ==> next.value < |tasks|)
      modifies tasks
      ensures State() == old(State()).(tasks := Switch(old(State()).tasks, prev, next, c, now))
      ensures Valid()
    {
      hide WellFormed, TaskDesc.Val, SwitchIn, SwitchOut, Machine.State, Machine.TaskVals, Machine.RqVals;
      ghost var s := State();
      if prev.Some? {
        tasks[prev.value].LeaveRunning(now);
        FramedTask(s, prev.value);
      } else {
        SameVals(s);
      }
      ghost var s1 := State();
      if next.Some? {
        tasks[next.value].StartRunning(c, now);
        FramedTask(s1, next.value);
      }
      assert WellFormed(State()) by { OnlyTasksChanged(s, State()); }
    }

    /** "Give current a chance to be selected again." */
    method RequeueCurrent(c: nat)
      requires Valid() && c < |rqs|
      modifies tasks, rqs[c]
      ensures State() == Requeue(cfg, old(State()), c)
      ensures Valid()
    {
      ghost var s := State();
      CurrentInRange(s, c);
      hide WellFormed, TaskDesc.Val, DoEnqueue, Machine.State, Machine.TaskVals, Machine.RqVals;
      var prev := rqs[c].cur;
      if prev.Some? {
        TaskFields(tasks[prev.value]);
        if tasks[prev.value].state == OnProc { DoEnqueueTask(prev.value, c, true); }
      }
    }

    /** The part of `schedule` that picks a task and switches to it. */
    method RescheduleCpu(c: nat, now: int)
      requires Valid() && c < |rqs|
      modifies tasks, rqs[c]
      ensures State() == Reschedule(cfg, old(State()), c, now)
      ensures Valid()
    {
      CurrentInRange(State(), c);
      hide WellFormed, TaskDesc.Val, Requeue, PickNext, Switch, Machine.State, Machine.TaskVals, Machine.RqVals;
      var prev := rqs[c].cur;
      RequeueCurrent(c);
      PickNextTask(c);
      CurrentInRange(State(), c);
      var next := rqs[c].cur;
      if prev != next { SwitchTasks(prev, next, c, now); }
    }

    /** `schedule` */
    method ScheduleCpu(c: nat, now: int)
      requires Valid() && c < |rqs|
      modifies tasks, rqs[c]
      ensures State() == Schedule(cfg, old(State()), c, now)
      ensures Valid()
    {
      hide WellFormed, TaskDesc.Val, Reschedule, Machine.State, Machine.TaskVals, Machine.RqVals;
      if rqs[c].needResched || rqs[c].cur.None? { RescheduleCpu(c, now); }
      ghost var s := State();
      rqs[c].needResched := false;
      FramedRq(s, c);
    }

    /** The first pick of a CPU thread. */
    method FirstPickOf(c: nat)
      requires Valid() && c < |rqs|
      modifies tasks, rqs[c]
      ensures State() == FirstPick(old(State()), c)
      ensures Valid()
    {
      hide WellFormed, TaskDesc.Val, PickNext, Machine.State, Machine.TaskVals, Machine.RqVals;
      PickNextTask(c);
      ghost var s1 := State();
      CurrentInRange(s1, c);
      var q := rqs[c];
      if q.cur.Some? {
        tasks[q.cur.value].SetState(OnProc);
        FramedTask(s1, q.cur.value);
      }
    }

    /** The loads that one trial of `load_balance` reads, and the CPUs it picks; INT_MAX is the initial minimum. */
    method ComputeLoads() returns (loads: seq<nat>, maxCpu: nat, minCpu: nat, maxLoad: int, minLoad: int)
      requires |rqs| >= 1 && forall i :: 0 <= i < |rqs| ==> 0 <= rqs[i].nrRunnable < INT_MAX
      ensures |loads| == |rqs| && forall i :: 0 <= i < |rqs| ==> loads[i] == rqs[i].nrRunnable
      ensures maxCpu == MaxLoadCpu(loads, |loads|) && maxLoad == loads[maxCpu]
      ensures minCpu == MinLoadCpu(loads, |loads|) && minLoad == loads[minCpu]
    {
      hide MaxLoadCpu, MinLoadCpu;
      minLoad, maxLoad := INT_MAX, -1;
      maxCpu, minCpu := 0, 0;
      loads := [];
      for i := 0 to |rqs|
        invariant |loads| == i && forall j :: 0 <= j < i ==> loads[j] == rqs[j].nrRunnable
        invariant i == 0 ==> maxLoad == -1 && minLoad == INT_MAX
        invariant i > 0 ==> maxCpu == MaxLoadCpu(loads, i) && maxLoad == loads[maxCpu]
        invariant i > 0 ==> minCpu == MinLoadCpu(loads, i) && minLoad == loads[minCpu]
      {
        var load := rqs[i].nrRunnable;
        LoadsGrow(loads, load);
        loads := loads + [load];
        if load > maxLoad { maxLoad, maxCpu := load, i; }
        if load < minLoad { minLoad, minCpu := load, i; }
      }
    }

    lemma LoadsGrow(a: seq<nat>, load: nat)
      ensures var b := a + [load]; var k := |a|;
        if k == 0 then MaxLoadCpu(b, 1) == MinLoadCpu(b, 1) == 0
        else
          && MaxLoadCpu(b, k + 1) == (if load > a[MaxLoadCpu(a, k)] then k else MaxLoadCpu(a, k))
          && MinLoadCpu(b, k + 1) == (if load < a[MinLoadCpu(a, k)] then k else MinLoadCpu(a, k))
    {
      if a != [] { LoadsPrefix(a, a + [load], |a|); }
    }

    lemma {:induction false} LoadsPrefix(a: seq<nat>, b: seq<nat>, k: nat)
      requires 1 <= k <= |a| <= |b| && a == b[..|a|]
      ensures MaxLoadCpu(b, k) == MaxLoadCpu(a, k) && MinLoadCpu(b, k) == MinLoadCpu(a, k)
    {
      if k > 1 { LoadsPrefix(a, b, k - 1); }
    }

    /** The recheck under both locks, and the migration. */
    method RecheckAndMove(src: nat, dst: nat, now: int)
      requires Valid() && src < |rqs| && dst < |rqs|
      modifies this, tasks, rqs[src], rqs[dst]
      ensures State() == Rebalance(cfg, old(State()), src, dst, now)
      ensures Valid()
    {
      hide WellFormed, TaskDesc.Val, MoveOneTask, Machine.State, Machine.TaskVals, Machine.RqVals;
      if rqs[src].nrRunnable - rqs[dst].nrRunnable > 1 { MoveTask(src, dst, now); }
    }

    /** One turn of the trial loop of `load_balance`, with no interference from other threads. */
    method BalanceTrialOf(c: nat, now: int) returns (balanced: bool)
      requires Valid() && c < |rqs| && LoadsInRange(State())
      modifies this, tasks, rqs
      ensures (State(), balanced) == OneTrial(cfg, old(State()), c, now)
      ensures Valid()
    {
      hide WellFormed, TaskDesc.Val, Rebalance, Machine.State, Machine.TaskVals, Machine.RqVals, MaxLoadCpu, MinLoadCpu;
      ghost var s := State();
      LoadsRead(s);
      var loads, maxCpu, minCpu, maxLoad, minLoad := ComputeLoads();
      assert loads == NatLoads(s);
      balanced := false;
      if maxLoad - minLoad <= 1 {
        balanced := true;
      } else if loads[c] == maxLoad {
        RecheckAndMove(c, minCpu, now);
      } else if loads[c] == minLoad {
        RecheckAndMove(maxCpu, c, now);
      }
    }

    lemma LoadsRead(s: Sys)
      requires s == State() && LoadsInRange(s)
      ensures |rqs| >= 1 && forall i :: 0 <= i < |rqs| ==> 0 <= rqs[i].nrRunnable < INT_MAX && s.rqs[i].nrRunnable == rqs[i].nrRunnable
    {
    }

    /** `load_balance`, with no interference from other threads. */
    method LoadBalanceCpu(c: nat, now: int)
      requires Valid() && c < |rqs| && (|rqs| == 1 || LoadsInRange(State()))
      modifies this, tasks, rqs
      ensures State() == LoadBalance(cfg, old(State()), c, now)
      ensures Valid()
    {
      hide WellFormed, LoadsInRange, TaskDesc.Val, OneTrial, Machine.State, Machine.TaskVals, Machine.RqVals;
      ghost var s := State();
      if rqs[c].nrRunnable == 0 {
        rqs[c].nextLb := now;
        FramedRq(s, c);
        if |rqs| > 1 { DueInRange(s, c, now); }
      }
      if |rqs| == 1 || rqs[c].nextLb != now { return; }
      RunTrials(c, now);
      ghost var s2 := State();
      rqs[c].nextLb := rqs[c].nextLb + cfg.period;
      FramedRq(s2, c);
    }

    /** The loop of `load_balance`: until a trial finds the loads balanced, at most MAX_TRIALS times. */
    method RunTrials(c: nat, now: int)
      requires Valid() && c < |rqs| && LoadsInRange(State())
      modifies this, tasks, rqs
      ensures State() == Trials(cfg, old(State()), c, now, 0)
      ensures Valid()
    {
      hide WellFormed, LoadsInRange, TaskDesc.Val, OneTrial, Machine.State, Machine.TaskVals, Machine.RqVals;
      ghost var s1 := State();
      var balanced, trials := false, 0;
      while !balanced && trials < MAX_TRIALS
        invariant Valid() && LoadsInRange(State()) && 0 <= trials <= MAX_TRIALS
        invariant Trials(cfg, s1, c, now, 0) == if balanced then State() else Trials(cfg, State(), c, now, trials)
        decreases MAX_TRIALS - trials
      {
        TrialInRange(cfg, State(), c, now);
        balanced := BalanceTrialOf(c, now);
        trials := trials + 1;
      }
    }

    lemma DueInRange(s: Sys, c: nat, when: int)
      requires c < |s.rqs| && LoadsInRange(s)
      ensures LoadsInRange(SetNextLb(s, c, when))
    {
    }
  }
}
