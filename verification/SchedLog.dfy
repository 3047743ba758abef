/** The log of a task tells what happened: who ran, slept and waited where is recorded, is never lost, and is kept in as
    few registers as possible. */
module SchedLog {
  import opened Basics
  import opened SchedTypes
  import opened SchedSteps
  import opened SchedClocks
  import opened SchedInvariant
  import opened SchedKeeps
  import opened SchedBalance
  import opened SchedRuns
  import opened SchedTheorems
  import opened SchedSlices
  import opened SchedPreempt
  import opened SchedHistory
  import opened SchedFlags
  import opened SchedFifo
  import opened Sequences

  /** According to the log, the task was in this state on this CPU at this instant. */
  ghost predicate Shows(regs: seq<LogRegister>, when: int, state: TaskState, cpu: nat) {
    exists i: nat :: Covers(regs, i, when) && regs[i].state == state && regs[i].cpu == cpu
  }

  /** Neighbouring registers differ in state or CPU. */
  predicate Compact(regs: seq<LogRegister>) {
    forall i :: 0 < i < |regs| ==> regs[i - 1].state != regs[i].state || regs[i - 1].cpu != regs[i].cpu
  }

  /** Nothing that the log showed is lost, and it stays compact. */
  ghost predicate KeepsLog(regs: seq<LogRegister>, regs': seq<LogRegister>) {
    && (forall when, state, cpu: nat :: Shows(regs, when, state, cpu) ==> Shows(regs', when, state, cpu))
    && (Compact(regs) ==> Compact(regs'))
  }

  lemma LogKeepsLog(regs: seq<LogRegister>, state: TaskState, cpu: nat, when: int, howLong: int)
    requires howLong >= 0
    ensures KeepsLog(regs, AddLog(regs, state, cpu, when, howLong))
  {
    var r := AddLog(regs, state, cpu, when, howLong);
    forall w, st, c: nat | Shows(regs, w, st, c) ensures Shows(r, w, st, c) {
      var i: nat :| Covers(regs, i, w) && regs[i].state == st && regs[i].cpu == c;
      assert Covers(r, i, w);
    }
  }

  /** What is added at the end of the log is shown. */
  lemma LogShows(regs: seq<LogRegister>, start: int, state: TaskState, cpu: nat, when: int, howLong: int, w: int)
    requires Tiles(regs, start) && when == LogEnd(regs, start) && when <= w < when + howLong
    ensures Shows(AddLog(regs, state, cpu, when, howLong), w, state, cpu)
  {
    var r := AddLog(regs, state, cpu, when, howLong);
    assert Covers(r, |r| - 1, w);
  }

  // ---------------------------------------------------------------- the sections

  lemma TickedLog(cfg: Config, t: Task, c: nat, now: int, w: int)
    requires TaskOk(t) && t.state == OnProc && End(t) == now && t.lastCpu == c
    ensures var t' := TickedTask(cfg, t, c, now);
      && KeepsLog(t.regs, t'.regs)
      && Shows(t'.regs, now, OnProc, c)
      && (t'.state.Sleep? && now < w < now + 1 + PhaseLen(t', t'.curPhase) ==> Shows(t'.regs, w, Sleep, c))
  {
    hide TaskOk, AddLog, Tiles, KeepsLog, Shows, Leave;
    assert Tiles(t.regs, t.arrival) by { OkTiles(t); }
    var regs1 := AddLog(t.regs, OnProc, c, now, 1);
    LogKeepsLog(t.regs, OnProc, c, now, 1);
    LogShows(t.regs, t.arrival, OnProc, c, now, 1, now);
    AddLogKeeps(t.regs, t.arrival, OnProc, c, now, 1);
    var t1 := Charge(cfg, t, c, now);
    assert t1.regs == regs1 && t1.arrival == t.arrival;
    if t1.ticksLeft == 0 { LeftLog(cfg, t, t1, c, now, w); }
  }

  lemma OkTiles(t: Task)
    requires TaskOk(t)
    ensures Tiles(t.regs, t.arrival)
  {
  }

  lemma LeftLog(cfg: Config, t: Task, t1: Task, c: nat, now: int, w: int)
    requires TaskOk(t) && t.state == OnProc && End(t) == now && t.lastCpu == c && t1 == Charge(cfg, t, c, now) && t1.ticksLeft == 0
    requires Tiles(t1.regs, t1.arrival) && LogEnd(t1.regs, t1.arrival) == now + 1 && KeepsLog(t.regs, t1.regs)
    requires Shows(t1.regs, now, OnProc, c)
    ensures var t' := Leave(t1, c, now);
      && KeepsLog(t.regs, t'.regs)
      && Shows(t'.regs, now, OnProc, c)
      && (t'.state.Sleep? && now < w < now + 1 + PhaseLen(t', t'.curPhase) ==> Shows(t'.regs, w, Sleep, c))
  {
    hide TaskOk, AddLog, Tiles, Shows, Charge;
    TickedTaskOk(cfg, t, c, now);
    hide KeepsLog;
    var t' := Leave(t1, c, now);
    if t'.state.Sleep? {
      var len := t1.phases[t1.curPhase + 1];
      LogKeepsLog(t1.regs, Sleep, c, now + 1, len);
      LogTrans(t.regs, t1.regs, t'.regs);
      LogKept(t1.regs, t'.regs, now, OnProc, c);
      if now < w < now + 1 + len { LogShows(t1.regs, t1.arrival, Sleep, c, now + 1, len, w); }
    }
  }

  lemma LogTrans(a: seq<LogRegister>, b: seq<LogRegister>, c: seq<LogRegister>)
    requires KeepsLog(a, b) && KeepsLog(b, c)
    ensures KeepsLog(a, c)
  {
    hide Shows, Compact;
  }

  lemma LogSame(a: seq<LogRegister>)
    ensures KeepsLog(a, a)
  {
  }

  lemma LogKept(a: seq<LogRegister>, b: seq<LogRegister>, when: int, state: TaskState, cpu: nat)
    requires KeepsLog(a, b) && Shows(a, when, state, cpu)
    ensures Shows(b, when, state, cpu)
  {
  }

  /** A waiting task is logged when it leaves the queue. */
  lemma WaitedLog(t: Task, c: nat, now: int, w: int)
    requires TaskOk(t) && QueuedOk(t, c, now)
    ensures var r := AddLog(t.regs, Runnable, c, t.lastEnqueued, now - t.lastEnqueued + 1);
      KeepsLog(t.regs, r) && (t.lastEnqueued <= w <= now ==> Shows(r, w, Runnable, c))
  {
    hide TaskOk, AddLog, Tiles, Shows, KeepsLog;
    OkTiles(t);
    LogKeepsLog(t.regs, Runnable, c, t.lastEnqueued, now - t.lastEnqueued + 1);
    if t.lastEnqueued <= w <= now { LogShows(t.regs, t.arrival, Runnable, c, t.lastEnqueued, now - t.lastEnqueued + 1, w); }
  }

  lemma MovedRegs(cfg: Config, s: Sys, src: nat, dst: nat, now: int, y: nat)
    requires WellFormed(s) && src < |s.rqs| && dst < |s.rqs| && src != dst && s.rqs[src].queue != [] && y < |s.tasks|
    ensures var s' := MoveOneTask(cfg, s, src, dst, now); var x := s.rqs[src].queue[|s.rqs[src].queue| - 1]; var t := s.tasks[y];
      s'.tasks[y].regs == if y == x then AddLog(t.regs, Runnable, src, t.lastEnqueued, now - t.lastEnqueued + 1) else t.regs
  {
    hide DoEnqueue, AddLog, EventsInRange;
    var pos := DoEnqueueShape(cfg, Steal(s, src), s.rqs[src].queue[|s.rqs[src].queue| - 1], dst, false);
  }

  lemma MoveLog(cfg: Config, s: Sys, now: int, ph: seq<Phase>, src: nat, dst: nat, y: nat, w: int)
    requires SysOk(s, now, ph) && WellFormed(s) && src < |s.rqs| && dst < |s.rqs| && src != dst && y < |s.tasks|
    ensures var s' := Rebalance(cfg, s, src, dst, now);
      && KeepsLog(s.tasks[y].regs, s'.tasks[y].regs)
      && (forall c :: 0 <= c < |s.rqs| && y in s.rqs[c].queue && y !in s'.rqs[c].queue && s.tasks[y].lastEnqueued <= w <= now ==>
            Shows(s'.tasks[y].regs, w, Runnable, c))
  {
    hide SysOk, TaskOk, QueuedOk, MoveOneTask, AddLog, Shows, KeepsLog, Compact, WellFormed;
    LogSame(s.tasks[y].regs);
    if s.rqs[src].nrRunnable - s.rqs[dst].nrRunnable > 1 {
      var x := StealFinds(s, now, ph, src, dst);
      var pos := MoveShape(cfg, s, src, dst, now, x);
      MovedRegs(cfg, s, src, dst, now, y);
      StillQueued(s, MoveOneTask(cfg, s, src, dst, now), src, dst, now, x, pos, y);
      if y == x { WaitedLog(s.tasks[x], src, now, w); }
    }
  }

  /** Only the stolen task leaves a queue. */
  lemma StillQueued(s: Sys, s': Sys, src: nat, dst: nat, now: int, x: nat, pos: nat, y: nat)
    requires src < |s.rqs| && dst < |s.rqs| && src != dst && x < |s.tasks| && MovedTo(s, s', src, dst, now, x, pos)
    ensures |s'.rqs| == |s.rqs|
    ensures forall c :: 0 <= c < |s.rqs| && y in s.rqs[c].queue && y !in s'.rqs[c].queue ==> y == x && c == src
  {
    hide TaskOk, QueuedOk;
    InsertMembers(s.rqs[dst].queue, pos, x);
    var q := s.rqs[src].queue;
    assert q == q[..|q| - 1] + [x];
  }

  lemma ScheduleLog(cfg: Config, s: Sys, now: int, ph: seq<Phase>, c: nat, y: nat, w: int)
    requires SysOk(s, now, ph) && WellFormed(s) && c < |s.rqs| && y < |s.tasks|
    ensures var s' := Schedule(cfg, s, c, now);
      && KeepsLog(s.tasks[y].regs, s'.tasks[y].regs)
      && (y in s.rqs[c].queue && s'.rqs[c].cur == Some(y) && s.tasks[y].lastEnqueued <= w <= now ==>
            Shows(s'.tasks[y].regs, w, Runnable, c))
  {
    hide SysOk, Schedule, WellFormed, AddLog, QueuePos, QueueKeys, Shows, KeepsLog, TaskOk, QueuedOk;
    LogSame(s.tasks[y].regs);
    var q := s.rqs[c];
    CurrentNotQueued(s, now, ph, c);
    assert q.cur.Some? ==> q.cur.value !in q.queue by { if q.cur.Some? { NotQueuedCurrent(s, now, ph, c); } }
    if q.needResched || q.cur.None? {
      var pos := ScheduleShape(cfg, s, c, now);
      var next := Schedule(cfg, s, c, now).rqs[c].cur;
      if next == Some(y) && next != q.cur {
        QueuedFacts(s, now, ph, c, pos);
        WaitedLog(s.tasks[y], c, now, w);
      }
    } else {
      ScheduleNothing(cfg, s, c, now);
    }
  }

  lemma NotQueuedCurrent(s: Sys, now: int, ph: seq<Phase>, c: nat)
    requires SysOk(s, now, ph) && c < |s.rqs| && s.rqs[c].cur.Some?
    ensures s.rqs[c].cur.value !in s.rqs[c].queue
  {
    hide SysOk;
    CurrentHereOk(s, now, ph, c);
    NotQueued(s, now, ph, s.rqs[c].cur.value, c);
  }

  /** The next task was waiting here, if it was not running. */
  lemma QueuedFacts(s: Sys, now: int, ph: seq<Phase>, c: nat, pos: nat)
    requires SysOk(s, now, ph) && c < |s.rqs| && pos <= |s.rqs[c].queue| && PickFrom(s, c, pos) != []
    ensures var y := PickFrom(s, c, pos)[0];
      y < |s.tasks| && TaskOk(s.tasks[y]) && (Some(y) != s.rqs[c].cur ==> QueuedOk(s.tasks[y], c, now))
  {
    hide TaskOk, EventsOk, Placed, End, QueuedOk;
    var q := s.rqs[c];
    assert CpuOk(s.tasks, q, s.events[c], c, now, ph[c]);
    assert q.queue != [] ==> QueuedOk(s.tasks[q.queue[0]], c, now);
  }

  lemma TickLog(cfg: Config, s: Sys, now: int, ph: seq<Phase>, c: nat, y: nat, w: int)
    requires SysOk(s, now, ph) && WellFormed(s) && c < |s.rqs| && ph[c].Start? && y < |s.tasks|
    ensures var s' := Tick(cfg, s, c, now); var t' := s'.tasks[y];
      && KeepsLog(s.tasks[y].regs, t'.regs)
      && (s.rqs[c].cur == Some(y) ==>
            && Shows(t'.regs, now, OnProc, c)
            && (t'.state.Sleep? && now < w < now + 1 + PhaseLen(t', t'.curPhase) ==> Shows(t'.regs, w, Sleep, c)))
  {
    hide SysOk, TaskOk, TickedTask, Tick, WellFormed, End, KeepsLog, Shows;
    TickedTasks(cfg, s, now, ph, c);
    LogSame(s.tasks[y].regs);
    if s.rqs[c].cur == Some(y) {
      RunningEnd(s, now, ph, c);
      TickedLog(cfg, s.tasks[y], c, now, w);
    }
  }

  lemma FireLog(cfg: Config, s: Sys, now: int, ph: seq<Phase>, c: nat, y: nat)
    requires SysOk(s, now, ph) && WellFormed(s) && c < |s.rqs| && HasDue(s, c, now + 1) && y < |s.tasks|
    ensures Fire(cfg, s, c, now + 1).tasks[y].regs == s.tasks[y].regs
  {
    hide SysOk, TaskOk, End, Fire, DoEnqueue, EventsInRange;
    DueIsNotCurrent(s, now, ph, c);
    var e := s.events[c][0];
    var x := e.task;
    var k := WokenPhase(s.tasks[x], e);
    if k < |s.tasks[x].phases| {
      PhaseOfEvent(s.tasks[x], e);
      WokenOk(s.tasks[x], now + 1, k);
      FireIsEnqueue(cfg, s, c, now + 1, k);
      var s1 := s.(events := s.events[c := s.events[c][1..]], tasks := s.tasks[x := Woken(s.tasks[x], k, now + 1)]);
      var pos := DoEnqueueShape(cfg, s1, x, c, false);
    } else {
      NewTaskHasPhase(s.tasks[x]);
      FinishedRegs(cfg, s, c, now + 1, y);
    }
  }

  lemma FinishedRegs(cfg: Config, s: Sys, c: nat, step: int, y: nat)
    requires WellFormed(s) && c < |s.rqs| && s.events[c] != [] && y < |s.tasks|
    requires var e := s.events[c][0]; e.kind.TaskAwake? && s.tasks[e.task].curPhase + 1 >= |s.tasks[e.task].phases|
    ensures Fire(cfg, s, c, step).tasks[y].regs == s.tasks[y].regs
  {
  }

  lemma FirstPickLog(s: Sys, c: nat, y: nat)
    requires WellFormed(s) && c < |s.rqs| && y < |s.tasks|
    ensures FirstPick(s, c).tasks[y].regs == s.tasks[y].regs
  {
    hide EventsInRange;
  }

  /** What a section does with task x, and what the log has to say about it: a tick runs the current task for one instant on
      its CPU, and may send it to sleep for the length of its next phase; `schedule` ends the wait of the task that it brings
      in, and a migration that of the task that it takes from a queue. */
  ghost predicate Happens(cfg: Config, r: RState, st: Step, x: nat, when: int, state: TaskState, cpu: nat)
    requires Enabled(r, st) && x < |r.s.tasks| && x < |Apply(cfg, r, st).s.tasks|
    requires |Apply(cfg, r, st).s.rqs| == |r.s.rqs|
  {
    var s, s' := r.s, Apply(cfg, r, st).s;
    var t, t' := s.tasks[x], s'.tasks[x];
    match st
    case TickStep(c) =>
      && cpu == c && s.rqs[c].cur == Some(x)
      && (|| (state.OnProc? && when == r.now)
          || (state.Sleep? && t'.state.Sleep? && r.now < when < r.now + 1 + PhaseLen(t', t'.curPhase)))
    case ScheduleStep(c) =>
      cpu == c && x in s.rqs[c].queue && s'.rqs[c].cur == Some(x) && state.Runnable? && t.lastEnqueued <= when <= r.now
    case BalanceTrial(_, _) =>
      && cpu < |s.rqs| && x in s.rqs[cpu].queue && x !in s'.rqs[cpu].queue
      && state.Runnable? && t.lastEnqueued <= when <= r.now
    case _ => false
  }

  lemma TrialLog(cfg: Config, r: RState, c: nat, loads: seq<nat>, x: nat, when: int)
    requires RInv(r) && Enabled(r, BalanceTrial(c, loads)) && x < |r.s.tasks|
    ensures var s' := Apply(cfg, r, BalanceTrial(c, loads)).s;
      && |s'.tasks| == |r.s.tasks| && |s'.rqs| == |r.s.rqs|
      && KeepsLog(r.s.tasks[x].regs, s'.tasks[x].regs)
      && (forall d :: 0 <= d < |r.s.rqs| && x in r.s.rqs[d].queue && x !in s'.rqs[d].queue && r.s.tasks[x].lastEnqueued <= when <= r.now ==>
            Shows(s'.tasks[x].regs, when, Runnable, d))
  {
    hide RInv, SysOk, WellFormed, Rebalance, Stamp, KeepsLog, Shows;
    RunSysOk(r);
    RemoteIsNotLocal(loads, c);
    LogSame(r.s.tasks[x].regs);
    match Choose(loads, c)
    case PushTo(d) => MoveLog(cfg, r.s, r.now, r.ph, c, d, x, when);
    case PullFrom(d) => MoveLog(cfg, r.s, r.now, r.ph, d, c, x, when);
    case _ =>
  }

  lemma StepLog(cfg: Config, r: RState, st: Step, x: nat, when: int, state: TaskState, cpu: nat)
    requires RInv(r) && Enabled(r, st) && x < |r.s.tasks|
    ensures var s' := Apply(cfg, r, st).s;
      && |s'.tasks| == |r.s.tasks| && |s'.rqs| == |r.s.rqs|
      && KeepsLog(r.s.tasks[x].regs, s'.tasks[x].regs)
      && (Happens(cfg, r, st, x, when, state, cpu) ==> Shows(s'.tasks[x].regs, when, state, cpu))
  {
    hide RInv, SysOk, WellFormed, Tick, Fire, Schedule, FirstPick, Rebalance, Stamp, KeepsLog, Shows;
    RunSysOk(r);
    LogSame(r.s.tasks[x].regs);
    match st
    case TickStep(c) => TickLog(cfg, r.s, r.now, r.ph, c, x, when);
    case FireStep(c) => FireLog(cfg, r.s, r.now, r.ph, c, x);
    case ScheduleStep(c) => ScheduleLog(cfg, r.s, r.now, r.ph, c, x, when);
    case BalanceTrial(c, loads) => TrialLog(cfg, r, c, loads, x, when);
    case FirstPickStep(c) => FirstPickLog(r.s, c, x);
    case _ =>
  }

  // ---------------------------------------------------------------- runs

  lemma {:induction false} RunLog(cfg: Config, r: RState, steps: seq<Step>, r': RState, x: nat)
    requires ConfigOk(cfg) && RInv(r) && x < |r.s.tasks| && Reaches(cfg, r, steps, r')
    ensures x < |r'.s.tasks| && KeepsLog(r.s.tasks[x].regs, r'.s.tasks[x].regs)
    decreases |steps|
  {
    hide RInv, Apply, Enabled, KeepsLog;
    if steps == [] {
      LogSame(r.s.tasks[x].regs);
    } else {
      var r1 := Apply(cfg, r, steps[0]);
      StepKeeps(cfg, r, steps[0]);
      StepLog(cfg, r, steps[0], x, 0, Runnable, 0);
      RunLog(cfg, r1, steps[1..], r', x);
      LogTrans(r.s.tasks[x].regs, r1.s.tasks[x].regs, r'.s.tasks[x].regs);
    }
  }

  lemma StepLengths(cfg: Config, r: RState, st: Step)
    requires RInv(r) && Enabled(r, st)
    ensures |Apply(cfg, r, st).s.tasks| == |r.s.tasks| && |Apply(cfg, r, st).s.rqs| == |r.s.rqs|
  {
    hide RInv, SysOk, WellFormed, Tick, Fire, Schedule, FirstPick, Rebalance, Stamp;
    match st
    case BalanceTrial(c, loads) => RemoteIsNotLocal(loads, c);
    case _ =>
  }

  /** In every run, at any later time: the log of a task shows for every instant whether it ran, slept or waited then, and on
      which CPU. */
  lemma LogRemembers(cfg: Config, ps: seq<Profile>, n: nat, steps: seq<Step>, r: RState, st: Step, more: seq<Step>, r': RState,
                     x: nat, when: int, state: TaskState, cpu: nat)
    requires RunFrom(cfg, ps, n, steps, r) && Enabled(r, st) && Reaches(cfg, Apply(cfg, r, st), more, r') && x < |ps|
    ensures |r.s.tasks| == |r'.s.tasks| == |Apply(cfg, r, st).s.tasks| == |ps| && |Apply(cfg, r, st).s.rqs| == |r.s.rqs|
    ensures Happens(cfg, r, st, x, when, state, cpu) ==> Shows(r'.s.tasks[x].regs, when, state, cpu)
  {
    assert ConfigOk(cfg);
    RunInv(cfg, ps, n, steps, r);
    hide *;
    StepLengths(cfg, r, st);
    StepKeeps(cfg, r, st);
    StepLog(cfg, r, st, x, when, state, cpu);
    RunKeeps(cfg, Apply(cfg, r, st), more, r');
    RunLengths(cfg, Apply(cfg, r, st), more, r');
    RunLog(cfg, Apply(cfg, r, st), more, r', x);
    if Happens(cfg, r, st, x, when, state, cpu) {
      LogKept(Apply(cfg, r, st).s.tasks[x].regs, r'.s.tasks[x].regs, when, state, cpu);
    }
  }

  lemma RunLengths(cfg: Config, r: RState, steps: seq<Step>, r': RState)
    requires ConfigOk(cfg) && RInv(r) && Reaches(cfg, r, steps, r')
    ensures |r'.s.tasks| == |r.s.tasks|
  {
    hide RInv, Reaches;
    RunKeeps(cfg, r, steps, r');
  }

  /** In every run the registers of a task are as few as possible: neighbours differ in state or CPU. */
  lemma LogIsCompact(cfg: Config, ps: seq<Profile>, n: nat, steps: seq<Step>, r: RState, x: nat, i: nat)
    requires RunFrom(cfg, ps, n, steps, r) && x < |ps|
    ensures |r.s.tasks| == |ps|
    ensures var regs := r.s.tasks[x].regs;
      0 < i < |regs| ==> regs[i - 1].state != regs[i].state || regs[i - 1].cpu != regs[i].cpu
  {
    RunInv(cfg, ps, n, steps, r);
    BootInv(cfg, ps, n);
    var boot := Boot(cfg, ps, n);
    assert Compact(boot.s.tasks[x].regs);
    hide RInv, Reaches, BootSys;
    RunLog(cfg, boot, steps, r, x);
  }
}
