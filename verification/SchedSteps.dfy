/** What each lock-protected section of the simulator does to the system, as functions on values.
    The methods of module SchedMachine are proved to compute exactly these functions. */
module SchedSteps {
  import opened Basics
  import opened SchedTypes
  import opened Sequences

  // ---------------------------------------------------------------- scheduling classes

  /** The key that a sorted class compares. */
  function Key(p: Policy, t: Task): int {
    if p == Prio then t.prio else t.ticksLeft
  }

  /** The key of the current task; the idle task has priority 0 and no ticks left. */
  function CurKey(p: Policy, tasks: seq<Task>, cur: Option<nat>): int
    requires cur.Some? ==> cur.value < |tasks|
  {
    if cur.None? then 0 else Key(p, tasks[cur.value])
  }

  predicate SortedClass(p: Policy) {
    p.Sjf? || p.Prio? || p.Tjf? || p.TjfEx?
  }

  predicate Ascending(p: Policy) {
    p.Sjf? || p.Prio?
  }

  predicate Sliced(p: Policy) {
    p.Rr? || p.TjfEx?
  }

  function Quantum(cfg: Config): int {
    if cfg.policy.Rr? then cfg.rrQuantum else TJF_QUANTUM
  }

  function QueueKeys(p: Policy, tasks: seq<Task>, queue: seq<nat>): (r: seq<int>)
    requires forall i :: 0 <= i < |queue| ==> queue[i] < |tasks|
    ensures |r| == |queue|
  {
    seq(|queue|, i requires 0 <= i < |queue| => Key(p, tasks[queue[i]]))
  }

  /** Where the class puts task `t` in a queue with these keys. */
  function QueuePos(p: Policy, keys: seq<int>, t: Task): (r: nat)
    ensures r <= |keys|
  {
    if SortedClass(p) then InsertPos(keys, Key(p, t), Ascending(p), t.insertFront) else |keys|
  }

  /** The class-private fields of a task after it has been put on a queue. */
  function Queued(cfg: Config, t: Task): Task {
    var t1 := if Sliced(cfg.policy) then t.(slice := Quantum(cfg)) else t;
    if SortedClass(cfg.policy) then t1.(insertFront := false) else t1
  }

  predicate Preempts(cfg: Config, tasks: seq<Task>, cur: Option<nat>, t: Task)
    requires cur.Some? ==> cur.value < |tasks|
  {
    && cfg.preemptive && SortedClass(cfg.policy)
    && (if cfg.policy.Prio? then t.prio < CurKey(Prio, tasks, cur)
        else t.ticksLeft < CurKey(cfg.policy, tasks, cur))
  }

  /** The insertion into the queue, at the place the class chooses. */
  function ClassInsert(cfg: Config, s: Sys, x: nat, c: nat): (r: Sys)
    requires WellFormed(s) && x < |s.tasks| && c < |s.rqs|
    ensures WellFormed(r) && |r.tasks| == |s.tasks| && |r.rqs| == |s.rqs|
  {
    var q := s.rqs[c];
    var pos := QueuePos(cfg.policy, QueueKeys(cfg.policy, s.tasks, q.queue), s.tasks[x]);
    s.(tasks := s.tasks[x := Queued(cfg, s.tasks[x])], rqs := s.rqs[c := q.(queue := InsertAt(q.queue, pos, x))])
  }

  /** The preemption test: current is marked to be put ahead of its equals. */
  function CheckPreemption(cfg: Config, s: Sys, x: nat, c: nat): (r: Sys)
    requires WellFormed(s) && x < |s.tasks| && c < |s.rqs|
    ensures WellFormed(r) && |r.tasks| == |s.tasks| && |r.rqs| == |s.rqs|
  {
    var q := s.rqs[c];
    if Preempts(cfg, s.tasks, q.cur, s.tasks[x]) then
      s.(tasks := if q.cur.None? then s.tasks
                  else s.tasks[q.cur.value := s.tasks[q.cur.value].(insertFront := true)],
         rqs := s.rqs[c := q.(needResched := true)])
    else s
  }

  /** `enqueue_task` of the active class. */
  function ClassEnqueue(cfg: Config, s: Sys, x: nat, c: nat, preempted: bool): (r: Sys)
    requires WellFormed(s) && x < |s.tasks| && c < |s.rqs|
    ensures WellFormed(r) && |r.tasks| == |s.tasks| && |r.rqs| == |s.rqs|
  {
    if s.tasks[x].onRq then s
    else if preempted then ClassInsert(cfg, s, x, c)
    else CheckPreemption(cfg, ClassInsert(cfg, s, x, c), x, c)
  }

  /** `task_tick` of the active class, on the current task (nothing happens for the idle task). */
  function ClassTick(cfg: Config, t: Task): Task {
    if Sliced(cfg.policy) then t.(slice := t.slice - 1) else t
  }

  predicate SliceOver(cfg: Config, t: Task) {
    Sliced(cfg.policy) && t.slice <= 0
  }

  // ---------------------------------------------------------------- sched.c

  /** `add_log_register`: empty registers are dropped and a register with the state and CPU of the
      last one extends it, without looking at where the last one ends. */
  function AddLog(regs: seq<LogRegister>, state: TaskState, cpu: nat, when: int, howLong: int): seq<LogRegister> {
    if howLong == 0 then regs
    else if regs == [] || regs[|regs| - 1].state != state || regs[|regs| - 1].cpu != cpu then
      regs + [LogRegister(state, cpu, when, howLong)]
    else
      var last := regs[|regs| - 1];
      regs[|regs| - 1 := last.(howLong := last.howLong + howLong)]
  }

  function Timeouts(evs: seq<Event>): (r: seq<int>)
    ensures |r| == |evs|
  {
    seq(|evs|, i requires 0 <= i < |evs| => evs[i].timeout)
  }

  /** `insert_sched_event`: the per-CPU list is sorted by timeout. */
  function InsertEvent(evs: seq<Event>, e: Event): seq<Event> {
    InsertAt(evs, InsertPos(Timeouts(evs), e.timeout, true, false), e)
  }

  function DoEnqueue(cfg: Config, s: Sys, x: nat, c: nat, runnable: bool): (r: Sys)
    requires WellFormed(s) && x < |s.tasks| && c < |s.rqs|
    ensures WellFormed(r) && |r.tasks| == |s.tasks| && |r.rqs| == |s.rqs|
  {
    var s1 := ClassEnqueue(cfg, s, x, c, runnable);
    var t := s1.tasks[x].(onRq := true);
    if runnable then s1.(tasks := s1.tasks[x := t])
    else
      var q := s1.rqs[c];
      s1.(tasks := s1.tasks[x := t.(lastCpu := c)],
          rqs := s1.rqs[c := q.(nrRunnable := q.nrRunnable + 1)])
  }

  /** What a tick charges to the running task. */
  function Charge(cfg: Config, t: Task, c: nat, now: int): Task {
    ClassTick(cfg, t.(userTime := t.userTime + 1, realTime := t.realTime + 1, lastCpu := c))
      .(regs := AddLog(t.regs, OnProc, c, now, 1), ticksLeft := t.ticksLeft - 1)
  }

  /** Would the "CPU Phase detected when leaving the CPU" branch be taken? */
  predicate LeavesIntoCpuPhase(t: Task) {
    t.curPhase + 1 < |t.phases| && !PhaseIsIo(t.curPhase + 1)
  }

  /** A task whose ticks are used up exits or goes to sleep; sleep is charged in advance. */
  function Leave(t: Task, c: nat, now: int): Task {
    var t3 := t.(curPhase := t.curPhase + 1);
    if t3.curPhase >= |t3.phases| then t3.(state := Completed)
    else if !PhaseIsIo(t3.curPhase) then t3
    else
      var len := t3.phases[t3.curPhase];
      t3.(sysTime := t3.sysTime + len, realTime := t3.realTime + len, state := Sleep,
          regs := AddLog(t3.regs, Sleep, c, now + 1, len))
  }

  /** The running task x has used up its ticks: it exits or goes to sleep. */
  function FinishPhase(s: Sys, x: nat, c: nat, now: int): (r: Sys)
    requires WellFormed(s) && c < |s.rqs| && x < |s.tasks|
    ensures WellFormed(r) && |r.tasks| == |s.tasks| && |r.rqs| == |s.rqs|
  {
    var q := s.rqs[c];
    var t := s.tasks[x];
    var t' := Leave(t, c, now);
    var s1 := s.(tasks := s.tasks[x := t'],
                 rqs := s.rqs[c := q.(nrRunnable := q.nrRunnable - 1, needResched := true)]);
    if LeavesIntoCpuPhase(t) then s1.(aborted := true)
    else if t'.curPhase < |t'.phases| then
      var e := Event(x, TaskAwake, now + t.phases[t'.curPhase] + 1);
      InsertEventInRange(s.events[c], e, |s.tasks|);
      s1.(events := s.events[c := InsertEvent(s.events[c], e)])
    else s1
  }

  /** `scheduler_tick` on CPU c at step `now`. */
  function Tick(cfg: Config, s: Sys, c: nat, now: int): (r: Sys)
    requires WellFormed(s) && c < |s.rqs|
    ensures WellFormed(r) && |r.tasks| == |s.tasks| && |r.rqs| == |s.rqs|
  {
    var q := s.rqs[c];
    if q.cur.None? then s else
    var x := q.cur.value;
    var t := Charge(cfg, s.tasks[x], c, now);
    var q1 := if SliceOver(cfg, t) then q.(needResched := true) else q;
    var s1 := s.(tasks := s.tasks[x := t], rqs := s.rqs[c := q1]);
    if t.ticksLeft != 0 then s1 else FinishPhase(s1, x, c, now)
  }

  lemma InsertEventInRange(evs: seq<Event>, e: Event, n: nat)
    requires EventsInRange(evs, n) && e.task < n
    ensures EventsInRange(InsertEvent(evs, e), n)
  {
    var pos := InsertPos(Timeouts(evs), e.timeout, true, false);
    assert forall i :: 0 <= i <= |evs| && i != pos ==> InsertEvent(evs, e)[i] == evs[if i < pos then i else i - 1];
  }

  /** A task becomes runnable on CPU c at `step` and is enqueued. */
  function WakeUp(cfg: Config, s: Sys, x: nat, c: nat, step: int): (r: Sys)
    requires WellFormed(s) && x < |s.tasks| && c < |s.rqs|
    ensures WellFormed(r) && |r.tasks| == |s.tasks| && |r.rqs| == |s.rqs|
  {
    var t := s.tasks[x];
    var t1 := t.(ticksLeft := PhaseLen(t, t.curPhase), lastEnqueued := step, state := Runnable);
    DoEnqueue(cfg, s.(tasks := s.tasks[x := t1]), x, c, false)
  }

  /** A sleeping task's event: it goes on with its next phase, or completes if there is none. */
  function Awake(cfg: Config, s: Sys, x: nat, c: nat, step: int): (r: Sys)
    requires WellFormed(s) && c < |s.rqs| && x < |s.tasks|
    ensures WellFormed(r) && |r.tasks| == |s.tasks| && |r.rqs| == |s.rqs|
  {
    var t := s.tasks[x].(curPhase := s.tasks[x].curPhase + 1);
    var s1 := s.(tasks := s.tasks[x := t]);
    if t.curPhase >= |t.phases| then s.(tasks := s.tasks[x := t.(state := Completed)])
    else if PhaseIsIo(t.curPhase) then s1.(aborted := true)
    else WakeUp(cfg, s1, x, c, step)
  }

  /** One turn of the loop of `process_sched_events`: the head event of CPU c fires. */
  function Fire(cfg: Config, s: Sys, c: nat, step: int): (r: Sys)
    requires WellFormed(s) && c < |s.rqs| && s.events[c] != []
    ensures WellFormed(r) && |r.tasks| == |s.tasks| && |r.rqs| == |s.rqs|
  {
    var e := s.events[c][0];
    var s0 := s.(events := s.events[c := s.events[c][1..]]);
    match e.kind
    case NewTask =>
      if PhaseIsIo(s.tasks[e.task].curPhase) then s0.(aborted := true)
      else WakeUp(cfg, s0, e.task, c, step)
    case TaskAwake => Awake(cfg, s0, e.task, c, step)
  }

  /** Does CPU c have an event for this step? */
  predicate HasDue(s: Sys, c: nat, step: int)
    requires c < |s.events|
  {
    s.events[c] != [] && s.events[c][0].timeout == step
  }

  /** The whole loop of `process_sched_events`. */
  function FireAll(cfg: Config, s: Sys, c: nat, step: int): (r: Sys)
    requires WellFormed(s) && c < |s.rqs|
    ensures WellFormed(r) && |r.tasks| == |s.tasks| && |r.rqs| == |s.rqs|
    decreases |s.events[c]|
  {
    if !HasDue(s, c, step) || s.aborted then s
    else
      assert |Fire(cfg, s, c, step).events[c]| < |s.events[c]|;
      FireAll(cfg, Fire(cfg, s, c, step), c, step)
  }

  /** The ready time of a migrated task is charged up to the next step, on the CPU it leaves. */
  function Migrated(t: Task, src: nat, now: int): Task {
    var timeOnRq := now - t.lastEnqueued + 1;
    t.(realTime := t.realTime + timeOnRq,
       regs := AddLog(t.regs, Runnable, src, t.lastEnqueued, timeOnRq),
       lastEnqueued := now + 1)
  }

  /** `steal_task`: the tail leaves the queue of src. */
  function Steal(s: Sys, src: nat): (r: Sys)
    requires WellFormed(s) && src < |s.rqs| && s.rqs[src].queue != []
    ensures WellFormed(r) && |r.tasks| == |s.tasks| && |r.rqs| == |s.rqs|
  {
    var q := s.rqs[src];
    var x := q.queue[|q.queue| - 1];
    s.(tasks := s.tasks[x := s.tasks[x].(onRq := false)],
       rqs := s.rqs[src := q.(queue := q.queue[..|q.queue| - 1], nrRunnable := q.nrRunnable - 1)])
  }

  /** `move_one_task`, with both run queue locks held: the tail of src goes to dst. */
  function MoveOneTask(cfg: Config, s: Sys, src: nat, dst: nat, now: int): (r: Sys)
    requires WellFormed(s) && src < |s.rqs| && dst < |s.rqs|
    ensures WellFormed(r) && |r.tasks| == |s.tasks| && |r.rqs| == |s.rqs|
  {
    if s.rqs[src].queue == [] then s.(aborted := true) else
    var x := s.rqs[src].queue[|s.rqs[src].queue| - 1];
    var s2 := DoEnqueue(cfg, Steal(s, src), x, dst, false);
    s2.(tasks := s2.tasks[x := Migrated(s2.tasks[x], src, now)])
  }

  /** The recheck of `load_balance` under both locks, followed by the migration when it holds. */
  function Rebalance(cfg: Config, s: Sys, src: nat, dst: nat, now: int): (r: Sys)
    requires WellFormed(s) && src < |s.rqs| && dst < |s.rqs|
    ensures WellFormed(r) && |r.tasks| == |s.tasks| && |r.rqs| == |s.rqs|
  {
    if s.rqs[src].nrRunnable - s.rqs[dst].nrRunnable > 1 then MoveOneTask(cfg, s, src, dst, now) else s
  }

  /** The state of the outgoing task at a context switch. */
  function SwitchOut(t: Task, now: int): Task {
    if t.state == OnProc then t.(state := Runnable, lastEnqueued := now + 1) else t
  }

  /** The state of the incoming task at a context switch. */
  function SwitchIn(t: Task, c: nat, now: int): Task {
    var waited := now - t.lastEnqueued + 1;
    t.(state := OnProc, realTime := t.realTime + waited,
       regs := AddLog(t.regs, Runnable, c, t.lastEnqueued, waited))
  }

  /** `pick_next_task` followed by the assignment of `cur_task`: the head of the queue, or idle. */
  function PickNext(s: Sys, c: nat): (r: Sys)
    requires WellFormed(s) && c < |s.rqs|
    ensures WellFormed(r) && |r.tasks| == |s.tasks| && |r.rqs| == |s.rqs|
  {
    var q := s.rqs[c];
    if q.queue == [] then s.(rqs := s.rqs[c := q.(cur := None)])
    else
      var x := q.queue[0];
      s.(tasks := s.tasks[x := s.tasks[x].(onRq := false)],
         rqs := s.rqs[c := q.(queue := q.queue[1..], cur := Some(x))])
  }

  /** "Give current a chance to be selected again if it's still runnable." */
  function Requeue(cfg: Config, s: Sys, c: nat): (r: Sys)
    requires WellFormed(s) && c < |s.rqs|
    ensures WellFormed(r) && |r.tasks| == |s.tasks| && |r.rqs| == |s.rqs|
  {
    var prev := s.rqs[c].cur;
    if prev.Some? && s.tasks[prev.value].state == OnProc then DoEnqueue(cfg, s, prev.value, c, true) else s
  }

  /** The task states after a context switch between two different tasks. */
  function Switch(tasks: seq<Task>, prev: Option<nat>, next: Option<nat>, c: nat, now: int): (r: seq<Task>)
    requires (prev.Some? ==> prev.value < |tasks|) && (next.Some? ==> next.value < |tasks|)
    ensures |r| == |tasks|
  {
    var tasks1 := if prev.None? then tasks else tasks[prev.value := SwitchOut(tasks[prev.value], now)];
    if next.None? then tasks1 else tasks1[next.value := SwitchIn(tasks1[next.value], c, now)]
  }

  /** The part of `schedule` that picks a task and switches to it. */
  function Reschedule(cfg: Config, s: Sys, c: nat, now: int): (r: Sys)
    requires WellFormed(s) && c < |s.rqs|
    ensures WellFormed(r) && |r.tasks| == |s.tasks| && |r.rqs| == |s.rqs|
  {
    var prev := s.rqs[c].cur;
    var s2 := PickNext(Requeue(cfg, s, c), c);
    var next := s2.rqs[c].cur;
    if prev == next then s2 else s2.(tasks := Switch(s2.tasks, prev, next, c, now))
  }

  /** `schedule` on CPU c at step `now`. */
  function Schedule(cfg: Config, s: Sys, c: nat, now: int): (r: Sys)
    requires WellFormed(s) && c < |s.rqs|
    ensures WellFormed(r) && |r.tasks| == |s.tasks| && |r.rqs| == |s.rqs|
  {
    var s1 := if s.rqs[c].needResched || s.rqs[c].cur.None? then Reschedule(cfg, s, c, now) else s;
    s1.(rqs := s1.rqs[c := s1.rqs[c].(needResched := false)])
  }

  /** The first pick of a CPU thread, before its loop. */
  function FirstPick(s: Sys, c: nat): (r: Sys)
    requires WellFormed(s) && c < |s.rqs|
    ensures WellFormed(r) && |r.tasks| == |s.tasks| && |r.rqs| == |s.rqs|
  {
    var s1 := PickNext(s, c);
    var cur := s1.rqs[c].cur;
    if cur.None? then s1
    else s1.(tasks := s1.tasks[cur.value := s1.tasks[cur.value].(state := OnProc)])
  }

  /** `cpu_has_completed`. */
  predicate HasCompleted(s: Sys, c: nat)
    requires WellFormed(s) && c < |s.rqs|
  {
    s.rqs[c].nrRunnable == 0 && s.events[c] == []
  }
}
