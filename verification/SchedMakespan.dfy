/** Any number of CPUs, any interleaving: when every task has completed. */
module SchedMakespan {
  import opened Basics
  import opened SchedTypes
  import opened SchedSteps
  import opened SchedClocks
  import opened SchedInvariant
  import opened SchedKeeps
  import opened SchedBalance
  import opened SchedRuns
  import opened SchedTheorems
  import opened SchedSlices
  import opened SchedOneCpu
  import opened SchedFlags

  /** How far a CPU is in time: its tick takes it to the next step. */
  function ClockOf(now: int, p: Phase): int {
    if p.Start? then now else now + 1
  }

  /** The work that task x still needs, by the clock of its CPU. */
  function LeftIn(r: RState, x: nat): int
    requires x < |r.s.tasks|
  {
    var t := r.s.tasks[x];
    Left(t, if t.lastCpu < |r.ph| then ClockOf(r.now, r.ph[t.lastCpu]) else 0)
  }

  function Lefts(r: RState): (ls: seq<int>)
    ensures |ls| == |r.s.tasks|
  {
    seq(|r.s.tasks|, x requires 0 <= x < |r.s.tasks| => LeftIn(r, x))
  }

  /** The work that all tasks together still need. */
  function Potential(r: RState): int {
    Sum(Lefts(r))
  }

  /** A task that a tick of its CPU takes further: it runs, or it sleeps. */
  predicate InMotion(t: Task) {
    t.state.OnProc? || t.state.Sleep?
  }

  // ---------------------------------------------------------------- one task

  /** A ready or running task changes between these two states. */
  predicate Moved(t: Task, t': Task) {
    && (t.state.Runnable? || t.state.OnProc?) && (t'.state.Runnable? || t'.state.OnProc?)
    && t'.ticksLeft == t.ticksLeft && t'.curPhase == t.curPhase && t'.phases == t.phases
  }

  /** Task t is left alone, or is a ready or running one that only moves between these states. */
  predicate Untouched(t: Task, t': Task) {
    SameCore(t, t') || Moved(t, t')
  }

  lemma MovedLeft(t: Task, t': Task, clock: int, clock': int)
    requires Moved(t, t')
    ensures Left(t', clock') == Left(t, clock)
  {
  }

  lemma SameCoreClock(t: Task, t': Task, clock: int)
    requires SameCore(t, t')
    ensures Left(t', clock) == Left(t, clock)
  {
  }

  /** Sections other than the tick leave every other task's work alone. */
  lemma UntouchedLeft(r: RState, r': RState, x: nat)
    requires x < |r.s.tasks| == |r'.s.tasks| && Untouched(r.s.tasks[x], r'.s.tasks[x])
    requires r'.now == r.now && |r'.ph| == |r.ph| && forall c :: 0 <= c < |r.ph| ==> r'.ph[c].Start? == r.ph[c].Start?
    ensures LeftIn(r', x) == LeftIn(r, x)
  {
    hide Left;
    var t, t' := r.s.tasks[x], r'.s.tasks[x];
    if SameCore(t, t') {
      SameCoreClock(t, t', if t.lastCpu < |r.ph| then ClockOf(r.now, r.ph[t.lastCpu]) else 0);
    } else {
      MovedLeft(t, t', if t.lastCpu < |r.ph| then ClockOf(r.now, r.ph[t.lastCpu]) else 0,
                if t'.lastCpu < |r.ph| then ClockOf(r.now, r.ph[t'.lastCpu]) else 0);
    }
  }

  // ---------------------------------------------------------------- the sections

  lemma SwitchedUntouched(tasks: seq<Task>, tasks': seq<Task>, prev: Option<nat>, next: Option<nat>, c: nat, now: int, y: nat)
    requires SwitchedTasks(tasks, tasks', prev, next, c, now) && y < |tasks|
    requires next.Some? ==> tasks[next.value].state == Runnable || tasks[next.value].state == OnProc
    ensures Untouched(tasks[y], tasks'[y])
  {
    hide AddLog;
  }

  lemma ScheduleUntouched(cfg: Config, s: Sys, now: int, ph: seq<Phase>, c: nat, x: nat)
    requires SysOk(s, now, ph) && WellFormed(s) && c < |s.rqs| && EventsDone(ph[c]) && x < |s.tasks|
    ensures Untouched(s.tasks[x], Schedule(cfg, s, c, now).tasks[x])
  {
    hide Requeue, PickNext, Switch, TaskOk, EventsOk, Placed, SwitchedTasks, Untouched, Schedule;
    var q := s.rqs[c];
    assert CpuOk(s.tasks, q, s.events[c], c, now, ph[c]);
    if q.needResched || q.cur.None? {
      var pos := ScheduleShape(cfg, s, c, now);
      var from := PickFrom(s, c, pos);
      PickFromOk(s.tasks, q, c, now, from, pos);
      var next := if from == [] then None else Some(from[0]);
      assert next.Some? ==> next.value in from;
      SwitchedUntouched(s.tasks, Schedule(cfg, s, c, now).tasks, q.cur, next, c, now, x);
    } else {
      ScheduleNothing(cfg, s, c, now);
      assert Untouched(s.tasks[x], s.tasks[x]) by { SelfUntouched(s.tasks[x]); }
    }
  }

  lemma SelfUntouched(t: Task)
    ensures Untouched(t, t)
  {
  }

  lemma FirstPickUntouched(s: Sys, ph: seq<Phase>, c: nat, x: nat)
    requires SysOk(s, -1, ph) && WellFormed(s) && c < |s.rqs| && x < |s.tasks|
    ensures Untouched(s.tasks[x], FirstPick(s, c).tasks[x])
  {
    hide TaskOk, EventsOk, Placed, EventsInRange;
    assert CpuOk(s.tasks, s.rqs[c], s.events[c], c, -1, ph[c]);
    if s.rqs[c].queue != [] { assert QueuedOk(s.tasks[s.rqs[c].queue[0]], c, -1); }
  }

  lemma RebalanceUntouched(cfg: Config, s: Sys, now: int, ph: seq<Phase>, src: nat, dst: nat, x: nat)
    requires SysOk(s, now, ph) && WellFormed(s) && src < |s.rqs| && dst < |s.rqs| && src != dst && x < |s.tasks|
    ensures Untouched(s.tasks[x], Rebalance(cfg, s, src, dst, now).tasks[x])
  {
    hide SysOk, TaskOk, End, MoveOneTask, EventsInRange, WellFormed, Moved;
    SelfUntouched(s.tasks[x]);
    if s.rqs[src].nrRunnable - s.rqs[dst].nrRunnable > 1 {
      var y := StealFinds(s, now, ph, src, dst);
      var pos := MoveShape(cfg, s, src, dst, now, y);
      StolenKept(cfg, s, src, dst, now, y);
    }
  }

  lemma StolenKept(cfg: Config, s: Sys, src: nat, dst: nat, now: int, x: nat)
    requires WellFormed(s) && src < |s.rqs| && dst < |s.rqs| && src != dst && s.rqs[src].queue != []
    requires x == s.rqs[src].queue[|s.rqs[src].queue| - 1] && x < |s.tasks| && s.tasks[x].state.Runnable?
    ensures |MoveOneTask(cfg, s, src, dst, now).tasks| == |s.tasks|
    ensures Moved(s.tasks[x], MoveOneTask(cfg, s, src, dst, now).tasks[x])
  {
    hide DoEnqueue, AddLog, EventsInRange;
    var pos := DoEnqueueShape(cfg, Steal(s, src), x, dst, false);
  }

  /** An event touches the work of its own task only, which stays the same. */
  lemma FireUntouched(cfg: Config, s: Sys, now: int, ph: seq<Phase>, c: nat, x: nat)
    requires SysOk(s, now, ph) && WellFormed(s) && c < |s.rqs| && HasDue(s, c, now + 1) && x < |s.tasks|
    ensures var t, t' := s.tasks[x], Fire(cfg, s, c, now + 1).tasks[x];
      if s.events[c][0].task == x then t.lastCpu == c && t'.lastCpu == c && !t'.state.Starting?
      else SameCore(t, t')
  {
    hide DoEnqueue, TaskOk, End, SysOk, EventsInRange, Fire;
    DueIsNotCurrent(s, now, ph, c);
    var e := s.events[c][0];
    var t := s.tasks[e.task];
    var k := if e.kind.NewTask? then t.curPhase else t.curPhase + 1;
    if e.kind.TaskAwake? && k >= |t.phases| {
      FireFinishes(cfg, s, c, now + 1);
    } else {
      EventPhaseOk(t, e, now + 1, k);
      FireIsEnqueue(cfg, s, c, now + 1, k);
      var s1 := s.(events := s.events[c := s.events[c][1..]], tasks := s.tasks[e.task := Woken(t, k, now + 1)]);
      var pos := DoEnqueueShape(cfg, s1, e.task, c, false);
    }
  }

  lemma FireFinishes(cfg: Config, s: Sys, c: nat, step: int)
    requires WellFormed(s) && c < |s.rqs| && s.events[c] != []
    requires var e := s.events[c][0]; e.kind.TaskAwake? && s.tasks[e.task].curPhase + 1 >= |s.tasks[e.task].phases|
    ensures var e := s.events[c][0]; var t := s.tasks[e.task];
      Fire(cfg, s, c, step).tasks == s.tasks[e.task := t.(curPhase := t.curPhase + 1, state := Completed)]
      && Fire(cfg, s, c, step).rqs == s.rqs
  {
  }

  lemma EventPhaseOk(t: Task, e: Event, step: int, k: nat)
    requires TaskOk(t) && t.state == (if e.kind.NewTask? then Starting else Sleep) && End(t) == step
    requires k == (if e.kind.NewTask? then t.curPhase else t.curPhase + 1) && (e.kind.TaskAwake? ==> k < |t.phases|)
    ensures !PhaseIsIo(k)
  {
    if k < |t.phases| { WokenOk(t, step, k); }
  }

  /** Every section: a tick takes the running and the sleeping tasks of its CPU one step further, and nothing else changes
      the work of a task. */
  lemma StepLeft(cfg: Config, r: RState, st: Step, x: nat)
    requires RInv(r) && Enabled(r, st) && x < |r.s.tasks|
    ensures var r' := Apply(cfg, r, st);
      |r'.s.tasks| == |r.s.tasks| &&
      LeftIn(r', x) == LeftIn(r, x)
                       - if st.TickStep? && r.s.tasks[x].lastCpu == st.cpu && InMotion(r.s.tasks[x]) then 1 else 0
  {
    hide RInv, SysOk, WellFormed, Tick, Fire, Schedule, FirstPick, Rebalance, Stamp, LeftIn;
    RunSysOk(r);
    match st
    case TickStep(c) => TickLeftIn(cfg, r, c, x);
    case FireStep(c) => FireLeftIn(cfg, r, c, x);
    case ScheduleStep(c) => ScheduleLeftIn(cfg, r, c, x);
    case FirstPickStep(c) => FirstPickLeftIn(cfg, r, c, x);
    case BalanceTrial(c, loads) => TrialLeftIn(cfg, r, c, loads, x);
    case NextRound => NextLeftIn(cfg, r, x);
    case _ => QuietLeftIn(cfg, r, st, x);
  }

  lemma QuietLeftIn(cfg: Config, r: RState, st: Step, x: nat)
    requires Enabled(r, st) && x < |r.s.tasks| && (st.EventsOver? || st.BalanceBegin? || st.BalanceEnd?)
    ensures Apply(cfg, r, st).s.tasks == r.s.tasks && LeftIn(Apply(cfg, r, st), x) == LeftIn(r, x)
  {
    hide WellFormed, Stamp, LeftIn;
    UntouchedLeft(r, Apply(cfg, r, st), x);
  }

  lemma ScheduleLeftIn(cfg: Config, r: RState, c: nat, x: nat)
    requires RInv(r) && Enabled(r, ScheduleStep(c)) && x < |r.s.tasks|
    ensures LeftIn(Apply(cfg, r, ScheduleStep(c)), x) == LeftIn(r, x)
  {
    hide RInv, SysOk, WellFormed, Schedule, Stamp, LeftIn;
    RunSysOk(r);
    ScheduleUntouched(cfg, r.s, r.now, r.ph, c, x);
    UntouchedLeft(r, Apply(cfg, r, ScheduleStep(c)), x);
  }

  lemma FirstPickLeftIn(cfg: Config, r: RState, c: nat, x: nat)
    requires RInv(r) && Enabled(r, FirstPickStep(c)) && x < |r.s.tasks|
    ensures LeftIn(Apply(cfg, r, FirstPickStep(c)), x) == LeftIn(r, x)
  {
    hide RInv, SysOk, WellFormed, FirstPick, Stamp, LeftIn;
    RunSysOk(r);
    FirstPickUntouched(r.s, r.ph, c, x);
    UntouchedLeft(r, Apply(cfg, r, FirstPickStep(c)), x);
  }

  lemma NextLeftIn(cfg: Config, r: RState, x: nat)
    requires RInv(r) && Enabled(r, NextRound) && x < |r.s.tasks|
    ensures LeftIn(Apply(cfg, r, NextRound), x) == LeftIn(r, x)
  {
    hide SysOk, WellFormed, Left;
  }

  lemma TrialLeftIn(cfg: Config, r: RState, c: nat, loads: seq<nat>, x: nat)
    requires RInv(r) && Enabled(r, BalanceTrial(c, loads)) && x < |r.s.tasks|
    ensures LeftIn(Apply(cfg, r, BalanceTrial(c, loads)), x) == LeftIn(r, x)
  {
    hide RInv, SysOk, WellFormed, Rebalance, Stamp, LeftIn;
    RunSysOk(r);
    RemoteIsNotLocal(loads, c);
    match Choose(loads, c) {
      case PushTo(d) => RebalanceUntouched(cfg, r.s, r.now, r.ph, c, d, x);
      case PullFrom(d) => RebalanceUntouched(cfg, r.s, r.now, r.ph, d, c, x);
      case _ =>
    }
    UntouchedLeft(r, Apply(cfg, r, BalanceTrial(c, loads)), x);
  }

  lemma TickLeftIn(cfg: Config, r: RState, c: nat, x: nat)
    requires RInv(r) && Enabled(r, TickStep(c)) && x < |r.s.tasks|
    ensures var t := r.s.tasks[x];
      LeftIn(Apply(cfg, r, TickStep(c)), x) == LeftIn(r, x) - if t.lastCpu == c && InMotion(t) then 1 else 0
  {
    hide RInv, SysOk, WellFormed, Tick, Stamp, Left, TaskOk, TickedTask;
    RunSysOk(r);
    TickedTasks(cfg, r.s, r.now, r.ph, c);
    var t := r.s.tasks[x];
    if r.s.rqs[c].cur == Some(x) {
      CurrentEnd(r.s, r.now, r.ph, c);
      TickedLeft(cfg, t, c, r.now);
    } else if t.lastCpu == c {
      IdleLeft(t, r.now);
    }
  }

  lemma CurrentEnd(s: Sys, now: int, ph: seq<Phase>, c: nat)
    requires SysOk(s, now, ph) && c < |s.rqs| && ph[c].Start? && s.rqs[c].cur.Some?
    ensures s.rqs[c].cur.value < |s.tasks| && End(s.tasks[s.rqs[c].cur.value]) == now
  {
    hide TaskOk, EventsOk, QueueOk, Placed;
    assert CpuOk(s.tasks, s.rqs[c], s.events[c], c, now, ph[c]);
  }

  lemma FireLeftIn(cfg: Config, r: RState, c: nat, x: nat)
    requires RInv(r) && Enabled(r, FireStep(c)) && x < |r.s.tasks|
    ensures LeftIn(Apply(cfg, r, FireStep(c)), x) == LeftIn(r, x)
  {
    hide RInv, SysOk, WellFormed, Fire, Stamp, Left;
    RunSysOk(r);
    FireUntouched(cfg, r.s, r.now, r.ph, c, x);
    if r.s.events[c][0].task == x {
      FireLeft(cfg, r.s, r.now, r.ph, c, x);
    } else {
      UntouchedLeft(r, Apply(cfg, r, FireStep(c)), x);
    }
  }

  // ---------------------------------------------------------------- all tasks

  lemma {:induction false} SumLess(a: seq<int>, b: seq<int>, k: nat)
    requires |a| == |b| && k < |a| && a[k] < b[k] && forall i :: 0 <= i < |a| ==> a[i] <= b[i]
    ensures Sum(a) < Sum(b)
  {
    SumAtMost(a, b);
  }

  lemma StepPotential(cfg: Config, r: RState, st: Step)
    requires RInv(r) && Enabled(r, st)
    ensures Potential(Apply(cfg, r, st)) <= Potential(r)
  {
    hide RInv, Enabled, Apply, LeftIn;
    var a, b := Lefts(Apply(cfg, r, st)), Lefts(r);
    AppliedTasks(cfg, r, st);
    forall x | 0 <= x < |b| ensures a[x] <= b[x] { StepLeft(cfg, r, st, x); }
    SumAtMost(a, b);
  }

  lemma AppliedTasks(cfg: Config, r: RState, st: Step)
    requires RInv(r) && Enabled(r, st)
    ensures |Apply(cfg, r, st).s.tasks| == |r.s.tasks|
  {
    hide RInv, SysOk, WellFormed, Tick, Fire, Schedule, FirstPick, Rebalance, Stamp;
  }

  /** A tick with a task in motion uses up work. */
  lemma TickPotential(cfg: Config, r: RState, c: nat, x: nat)
    requires RInv(r) && Enabled(r, TickStep(c)) && x < |r.s.tasks| && r.s.tasks[x].lastCpu == c && InMotion(r.s.tasks[x])
    ensures Potential(Apply(cfg, r, TickStep(c))) < Potential(r)
  {
    hide RInv, Enabled, Apply, LeftIn;
    var a, b := Lefts(Apply(cfg, r, TickStep(c))), Lefts(r);
    AppliedTasks(cfg, r, TickStep(c));
    forall y | 0 <= y < |b| ensures a[y] <= b[y] && (y == x ==> a[y] < b[y]) { StepLeft(cfg, r, TickStep(c), y); }
    SumLess(a, b, x);
  }

  /** A task needs no negative work, and one in motion on a CPU that has not ticked needs some. */
  lemma LeftBounds(r: RState, x: nat)
    requires RInv(r) && x < |r.s.tasks|
    ensures r.s.tasks[x].lastCpu < |r.ph| && LeftIn(r, x) >= 0
    ensures InMotion(r.s.tasks[x]) && r.ph[r.s.tasks[x].lastCpu].Start? ==> LeftIn(r, x) >= 1
  {
    hide Tiles, Logged, QueueOk;
    var t := r.s.tasks[x];
    var c := t.lastCpu;
    assert TaskOk(t) && Placed(t, x, r.s.rqs[c], r.s.events[c]);
    assert CpuOk(r.s.tasks, r.s.rqs[c], r.s.events[c], c, r.now, r.ph[c]);
    RestPositive(t.phases, 0);
    RestPositive(t.phases, t.curPhase + 1);
    if t.state == Starting || t.state == Sleep {
      var i :| 0 <= i < |r.s.events[c]| && r.s.events[c][i].task == x;
      assert EventOk(t, r.s.events[c][i], c);
    }
  }

  lemma PotentialBounds(r: RState, x: nat)
    requires RInv(r) && x < |r.s.tasks| && InMotion(r.s.tasks[x])
    requires r.s.tasks[x].lastCpu < |r.ph| && r.ph[r.s.tasks[x].lastCpu].Start?
    ensures Potential(r) >= 1
  {
    hide RInv, LeftIn;
    var ls := Lefts(r);
    forall y | 0 <= y < |ls| ensures ls[y] >= 0 { LeftBounds(r, y); }
    LeftBounds(r, x);
    SumPositive(ls);
    assert ls[x] >= 1;
  }

  lemma PotentialNonNegative(r: RState)
    requires RInv(r)
    ensures Potential(r) >= 0
  {
    hide RInv, LeftIn;
    var ls := Lefts(r);
    forall y | 0 <= y < |ls| ensures ls[y] >= 0 { LeftBounds(r, y); }
    SumPositive(ls);
  }

  // ---------------------------------------------------------------- some CPU runs a ready task

  /** CPU w runs a task after its `schedule`, or it is on its way there with a task to run. */
  ghost predicate Serves(r: RState, w: nat) {
    && w < |r.ph| == |r.s.rqs|
    && if r.ph[w].Done? then Running(r.s.tasks, r.s.rqs[w].cur) else !r.ph[w].Start? && r.s.rqs[w].nrRunnable >= 1
  }

  /** Tasks wait for an idle CPU, pushed there after its `schedule`. */
  ghost predicate Overlooked(r: RState, d: nat) {
    d < |r.ph| == |r.s.rqs| && r.ph[d].Done? && !Running(r.s.tasks, r.s.rqs[d].cur) && r.s.rqs[d].queue != []
  }

  /** If tasks wait for an idle CPU, another CPU serves. */
  ghost predicate Staffed(r: RState) {
    (exists d :: Overlooked(r, d)) ==> exists w :: Serves(r, w)
  }

  /** A section that leaves the run queues and the running tasks of the other CPUs alone, and its own CPU either serving or
      not overlooked and with no less to run. */
  lemma StaffedFrame(r: RState, r': RState, c: nat)
    requires Staffed(r) && |r'.ph| == |r.ph| == |r.s.rqs| == |r'.s.rqs| && c < |r.ph|
    requires forall d :: 0 <= d < |r.ph| && d != c ==>
      r'.ph[d] == r.ph[d] && r'.s.rqs[d].queue == r.s.rqs[d].queue && r'.s.rqs[d].nrRunnable == r.s.rqs[d].nrRunnable
      && Running(r'.s.tasks, r'.s.rqs[d].cur) == Running(r.s.tasks, r.s.rqs[d].cur)
    requires !Overlooked(r', c) && (Serves(r, c) ==> Serves(r', c))
    ensures Staffed(r')
  {
    if d :| Overlooked(r', d) {
      assert Overlooked(r, d);
      var w :| Serves(r, w);
      assert Serves(r', w);
    }
  }

  lemma TickStaffed(cfg: Config, r: RState, c: nat)
    requires RInv(r) && Enabled(r, TickStep(c)) && Staffed(r)
    ensures Staffed(Apply(cfg, r, TickStep(c)))
  {
    hide RInv, SysOk, WellFormed, Tick, Stamp, Staffed, TaskOk, TickedTask;
    RunSysOk(r);
    TickedTasks(cfg, r.s, r.now, r.ph, c);
    var r' := Apply(cfg, r, TickStep(c));
    forall d | 0 <= d < |r.ph| && d != c
      ensures Running(r'.s.tasks, r'.s.rqs[d].cur) == Running(r.s.tasks, r.s.rqs[d].cur)
    {
      CurrentHereOk(r.s, r.now, r.ph, d);
    }
    StaffedFrame(r, r', c);
  }

  lemma FireStaffed(cfg: Config, r: RState, c: nat)
    requires RInv(r) && Enabled(r, FireStep(c)) && Staffed(r)
    ensures Staffed(Apply(cfg, r, FireStep(c)))
  {
    hide RInv, SysOk, WellFormed, Fire, Stamp, Staffed;
    RunSysOk(r);
    var r' := Apply(cfg, r, FireStep(c));
    FireElsewhere(cfg, r.s, c, r.now + 1);
    FireCounts(cfg, r.s, r.now, r.ph, c);
    forall d | 0 <= d < |r.ph| && d != c
      ensures Running(r'.s.tasks, r'.s.rqs[d].cur) == Running(r.s.tasks, r.s.rqs[d].cur)
    {
      CurrentHereOk(r.s, r.now, r.ph, d);
      if r.s.rqs[d].cur.Some? { FireUntouched(cfg, r.s, r.now, r.ph, c, r.s.rqs[d].cur.value); }
    }
    StaffedFrame(r, r', c);
  }

  lemma FireCounts(cfg: Config, s: Sys, now: int, ph: seq<Phase>, c: nat)
    requires SysOk(s, now, ph) && WellFormed(s) && c < |s.rqs| && HasDue(s, c, now + 1)
    ensures Fire(cfg, s, c, now + 1).rqs[c].nrRunnable >= s.rqs[c].nrRunnable
  {
    hide DoEnqueue, TaskOk, End, SysOk, EventsInRange, Fire;
    DueIsNotCurrent(s, now, ph, c);
    var e := s.events[c][0];
    var t := s.tasks[e.task];
    var k := if e.kind.NewTask? then t.curPhase else t.curPhase + 1;
    if e.kind.TaskAwake? && k >= |t.phases| {
      FireFinishes(cfg, s, c, now + 1);
    } else {
      EventPhaseOk(t, e, now + 1, k);
      FireIsEnqueue(cfg, s, c, now + 1, k);
      var s1 := s.(events := s.events[c := s.events[c][1..]], tasks := s.tasks[e.task := Woken(t, k, now + 1)]);
      var pos := DoEnqueueShape(cfg, s1, e.task, c, false);
    }
  }

  /** After `schedule` or a first pick a CPU serves if it has a ready task, and no task is overlooked. */
  lemma DoneServes(r: RState, c: nat)
    requires RInv(r) && c < |r.ph| && r.ph[c].Done? && (r.s.rqs[c].cur.None? ==> r.s.rqs[c].queue == [])
    ensures !Overlooked(r, c) && (r.s.rqs[c].nrRunnable >= 1 ==> Serves(r, c))
  {
    hide TaskOk, EventsOk, QueueOk, Placed, End;
    assert CpuOk(r.s.tasks, r.s.rqs[c], r.s.events[c], c, r.now, r.ph[c]);
  }

  lemma ScheduleStaffed(cfg: Config, r: RState, c: nat)
    requires RInv(r) && Enabled(r, ScheduleStep(c)) && Staffed(r) && RInv(Apply(cfg, r, ScheduleStep(c)))
    ensures Staffed(Apply(cfg, r, ScheduleStep(c)))
  {
    hide RInv, SysOk, WellFormed, Schedule, Stamp, Staffed, SwitchedTasks;
    RunSysOk(r);
    var r' := Apply(cfg, r, ScheduleStep(c));
    ScheduledElsewhere(cfg, r.s, r.now, r.ph, c);
    forall d | 0 <= d < |r.ph| && d != c
      ensures Running(r'.s.tasks, r'.s.rqs[d].cur) == Running(r.s.tasks, r.s.rqs[d].cur)
    {
      CurrentHereOk(r.s, r.now, r.ph, d);
    }
    DoneServes(r', c);
    StaffedFrame(r, r', c);
  }

  lemma ScheduledElsewhere(cfg: Config, s: Sys, now: int, ph: seq<Phase>, c: nat)
    requires SysOk(s, now, ph) && WellFormed(s) && c < |s.rqs| && EventsDone(ph[c])
    ensures var s' := Schedule(cfg, s, c, now);
      && (forall d :: 0 <= d < |s.rqs| && d != c ==> s'.rqs[d] == s.rqs[d])
      && (forall y :: 0 <= y < |s.tasks| && s.tasks[y].lastCpu < |s.rqs| && s.tasks[y].lastCpu != c ==> SameCore(s.tasks[y], s'.tasks[y]))
      && s'.rqs[c].nrRunnable == s.rqs[c].nrRunnable && (s'.rqs[c].cur.None? ==> s'.rqs[c].queue == [])
  {
    hide SysOk, WellFormed, Schedule, SwitchedTasks, TaskOk;
    var q := s.rqs[c];
    var s' := Schedule(cfg, s, c, now);
    CurrentHereOk(s, now, ph, c);
    if q.needResched || q.cur.None? {
      var pos := ScheduleShape(cfg, s, c, now);
      forall y | 0 <= y < |s.tasks| && s.tasks[y].lastCpu < |s.rqs| && s.tasks[y].lastCpu != c ensures SameCore(s.tasks[y], s'.tasks[y]) {
        SwitchedElsewhere(cfg, s, s', now, ph, c, pos, s.tasks[y].lastCpu);
      }
    } else {
      ScheduleNothing(cfg, s, c, now);
    }
  }

  lemma FirstPickStaffed(cfg: Config, r: RState, c: nat)
    requires RInv(r) && Enabled(r, FirstPickStep(c)) && Staffed(r) && RInv(Apply(cfg, r, FirstPickStep(c)))
    ensures Staffed(Apply(cfg, r, FirstPickStep(c)))
  {
    hide RInv, SysOk, WellFormed, FirstPick, Stamp, Staffed;
    RunSysOk(r);
    FirstPickBooting(r, c);
    var r' := Apply(cfg, r, FirstPickStep(c));
    FirstPickedElsewhere(r.s, r.ph, c);
    forall d | 0 <= d < |r.ph| && d != c
      ensures Running(r'.s.tasks, r'.s.rqs[d].cur) == Running(r.s.tasks, r.s.rqs[d].cur)
    {
      CurrentHereOk(r.s, r.now, r.ph, d);
    }
    DoneServes(r', c);
    StaffedFrame(r, r', c);
  }

  lemma FirstPickedElsewhere(s: Sys, ph: seq<Phase>, c: nat)
    requires SysOk(s, -1, ph) && WellFormed(s) && c < |s.rqs| && s.rqs[c].cur.None?
    ensures var s' := FirstPick(s, c);
      && (forall d :: 0 <= d < |s.rqs| && d != c ==> s'.rqs[d] == s.rqs[d])
      && (forall y :: 0 <= y < |s.tasks| && s.tasks[y].lastCpu != c ==> SameCore(s.tasks[y], s'.tasks[y]))
      && s'.rqs[c].nrRunnable == s.rqs[c].nrRunnable && (s'.rqs[c].cur.None? ==> s'.rqs[c].queue == [])
  {
    hide TaskOk, EventsOk, Placed, EventsInRange;
    assert CpuOk(s.tasks, s.rqs[c], s.events[c], c, -1, ph[c]);
    if s.rqs[c].queue != [] { assert QueuedOk(s.tasks[s.rqs[c].queue[0]], c, -1); }
  }

  /** A migration leaves both CPUs with something to run, and every running task running. */
  lemma MovedStaffed(cfg: Config, r: RState, r': RState, c: nat, src: nat, dst: nat)
    requires RInv(r) && WellFormed(r.s) && c < |r.ph| == |r.s.rqs| && r.ph[c].Balancing? && Staffed(r)
    requires src < |r.s.rqs| && dst < |r.s.rqs| && src != dst && (c == src || c == dst)
    requires r'.s == Rebalance(cfg, r.s, src, dst, r.now) && |r'.ph| == |r.ph| && r'.ph[c].Balancing?
    requires forall d :: 0 <= d < |r.ph| && d != c ==> r'.ph[d] == r.ph[d]
    ensures Staffed(r')
  {
    hide SysOk, WellFormed, Staffed, MoveOneTask, TaskOk, QueuedOk;
    RunSysOk(r);
    if r.s.rqs[src].nrRunnable - r.s.rqs[dst].nrRunnable > 1 {
      var x := StealFinds(r.s, r.now, r.ph, src, dst);
      var pos := MoveShape(cfg, r.s, src, dst, r.now, x);
      NrNonNegative(r.s, r.now, r.ph, dst);
      assert Serves(r', c);
      StaffedBy(r', c);
    } else {
      StaffedFrame(r, r', c);
    }
  }

  lemma StaffedBy(r: RState, w: nat)
    requires Serves(r, w)
    ensures Staffed(r)
  {
  }

  lemma NrNonNegative(s: Sys, now: int, ph: seq<Phase>, c: nat)
    requires SysOk(s, now, ph) && c < |s.rqs|
    ensures s.rqs[c].nrRunnable >= 0
  {
    hide TaskOk, EventsOk, QueueOk, Placed, End;
    assert CpuOk(s.tasks, s.rqs[c], s.events[c], c, now, ph[c]);
  }

  lemma TrialStaffed(cfg: Config, r: RState, c: nat, loads: seq<nat>)
    requires RInv(r) && Enabled(r, BalanceTrial(c, loads)) && Staffed(r)
    ensures Staffed(Apply(cfg, r, BalanceTrial(c, loads)))
  {
    hide RInv, SysOk, Rebalance, Stamp, Staffed;
    RunSysOk(r);
    RemoteIsNotLocal(loads, c);
    var r' := Apply(cfg, r, BalanceTrial(c, loads));
    match Choose(loads, c)
    case PushTo(d) => MovedStaffed(cfg, r, r', c, c, d);
    case PullFrom(d) => MovedStaffed(cfg, r, r', c, d, c);
    case _ => StaffedFrame(r, r', c);
  }

  lemma StepStaffed(cfg: Config, r: RState, st: Step)
    requires ConfigOk(cfg) && RInv(r) && Enabled(r, st) && Staffed(r)
    ensures Staffed(Apply(cfg, r, st))
  {
    StepKeeps(cfg, r, st);
    hide RInv, SysOk, WellFormed, Tick, Fire, Schedule, FirstPick, Rebalance, Stamp, Staffed, TasksEvolve;
    RunSysOk(r);
    match st
    case TickStep(c) => TickStaffed(cfg, r, c);
    case FireStep(c) => FireStaffed(cfg, r, c);
    case ScheduleStep(c) => ScheduleStaffed(cfg, r, c);
    case FirstPickStep(c) => FirstPickStaffed(cfg, r, c);
    case BalanceTrial(c, loads) => TrialStaffed(cfg, r, c, loads);
    case NextRound => NewRoundStaffed(Apply(cfg, r, st));
    case _ => QuietStaffed(cfg, r, st);
  }

  lemma QuietStaffed(cfg: Config, r: RState, st: Step)
    requires RInv(r) && Enabled(r, st) && Staffed(r) && (st.EventsOver? || st.BalanceBegin? || st.BalanceEnd?)
    ensures Staffed(Apply(cfg, r, st))
  {
    hide RInv, WellFormed, Stamp, Staffed;
    StaffedFrame(r, Apply(cfg, r, st), st.cpu);
  }

  lemma NewRoundStaffed(r: RState)
    requires forall c :: 0 <= c < |r.ph| ==> r.ph[c].Start?
    ensures Staffed(r)
  {
  }

  // ---------------------------------------------------------------- rounds

  /** A task in motion whose CPU has not ticked in this step yet. */
  ghost predicate Pending(r: RState, x: nat) {
    && x < |r.s.tasks| && InMotion(r.s.tasks[x])
    && r.s.tasks[x].lastCpu < |r.ph| && r.ph[r.s.tasks[x].lastCpu].Start?
  }

  lemma RebalanceMotion(cfg: Config, s: Sys, now: int, ph: seq<Phase>, src: nat, dst: nat, x: nat)
    requires SysOk(s, now, ph) && WellFormed(s) && src < |s.rqs| && dst < |s.rqs| && src != dst && x < |s.tasks|
    requires InMotion(s.tasks[x])
    ensures SameCore(s.tasks[x], Rebalance(cfg, s, src, dst, now).tasks[x])
  {
    hide SysOk, TaskOk, End, MoveOneTask, EventsInRange, WellFormed;
    if s.rqs[src].nrRunnable - s.rqs[dst].nrRunnable > 1 {
      var y := StealFinds(s, now, ph, src, dst);
      var pos := MoveShape(cfg, s, src, dst, now, y);
    }
  }

  lemma TrialMotion(cfg: Config, r: RState, c: nat, loads: seq<nat>, x: nat)
    requires RInv(r) && Enabled(r, BalanceTrial(c, loads)) && x < |r.s.tasks| && InMotion(r.s.tasks[x])
    ensures x < |Apply(cfg, r, BalanceTrial(c, loads)).s.tasks|
    ensures SameCore(r.s.tasks[x], Apply(cfg, r, BalanceTrial(c, loads)).s.tasks[x])
  {
    hide RInv, SysOk, WellFormed, Rebalance, Stamp;
    RunSysOk(r);
    RemoteIsNotLocal(loads, c);
    match Choose(loads, c)
    case PushTo(d) => RebalanceMotion(cfg, r.s, r.now, r.ph, c, d, x);
    case PullFrom(d) => RebalanceMotion(cfg, r.s, r.now, r.ph, d, c, x);
    case _ =>
  }

  lemma StartMeansOther(r: RState, st: Step, c: nat)
    requires Enabled(r, st) && c < |r.ph| && r.ph[c].Start? && st != TickStep(c)
    ensures !st.NextRound? && st.cpu != c && st.cpu < |r.ph|
  {
  }

  /** A pending task stays pending until its CPU ticks. */
  lemma StaysPending(cfg: Config, r: RState, st: Step, x: nat)
    requires RInv(r) && Enabled(r, st) && Pending(r, x) && st != TickStep(r.s.tasks[x].lastCpu)
    ensures Pending(Apply(cfg, r, st), x)
  {
    hide RInv, SysOk, WellFormed, Tick, Fire, Schedule, FirstPick, Rebalance, Stamp, TickedTask, TaskOk;
    RunSysOk(r);
    var t := r.s.tasks[x];
    StartMeansOther(r, st, t.lastCpu);
    match st
    case TickStep(c) => TickedTasks(cfg, r.s, r.now, r.ph, c);
    case FireStep(c) => FireUntouched(cfg, r.s, r.now, r.ph, c, x);
    case ScheduleStep(c) => ScheduledElsewhere(cfg, r.s, r.now, r.ph, c);
    case FirstPickStep(c) =>
      FirstPickBooting(r, c);
      FirstPickedElsewhere(r.s, r.ph, c);
    case BalanceTrial(c, loads) =>
      RemoteIsNotLocal(loads, c);
      TrialMotion(cfg, r, c, loads, x);
    case _ =>
  }

  ghost predicate AllFinished(r: RState) {
    forall x :: 0 <= x < |r.s.tasks| ==> r.s.tasks[x].state.Completed?
  }

  lemma StaysFinished(cfg: Config, r: RState, st: Step)
    requires ConfigOk(cfg) && RInv(r) && Enabled(r, st) && AllFinished(r)
    ensures AllFinished(Apply(cfg, r, st))
  {
    StepKeeps(cfg, r, st);
    hide RInv, Apply, Enabled;
    var r' := Apply(cfg, r, st);
    forall x | 0 <= x < |r'.s.tasks| ensures r'.s.tasks[x].state.Completed? {
      assert EvolvesTask(r.s.tasks[x], r'.s.tasks[x], r.now);
    }
  }

  /** When a step begins after the last arrival, some task is in motion or all have finished. */
  lemma SomeInMotion(r: RState, last: int) returns (x: nat)
    requires RInv(r) && Staffed(r) && (forall c :: 0 <= c < |r.ph| ==> r.ph[c].Done?)
    requires r.now + 1 >= last && forall y :: 0 <= y < |r.s.tasks| ==> r.s.tasks[y].arrival <= last
    ensures AllFinished(r) || (x < |r.s.tasks| && InMotion(r.s.tasks[x]) && r.s.tasks[x].lastCpu < |r.ph|)
  {
    hide TaskOk, QueueOk, EventsOk, End, CurrentOk, BalanceOk;
    x := 0;
    if y :| 0 <= y < |r.s.tasks| && !r.s.tasks[y].state.Completed? {
      var t := r.s.tasks[y];
      assert Placed(t, y, r.s.rqs[t.lastCpu], r.s.events[t.lastCpu]) && t.lastCpu < |r.s.rqs|;
      ArrivesLater(r, y);
      if InMotion(t) {
        x := y;
      } else {
        x := ServedTask(r, t.lastCpu);
      }
    }
  }

  lemma ArrivesLater(r: RState, y: nat)
    requires RInv(r) && y < |r.s.tasks| && (forall c :: 0 <= c < |r.ph| ==> r.ph[c].Done?)
    ensures r.s.tasks[y].state.Starting? ==> r.s.tasks[y].arrival > r.now + 1
  {
    hide Tiles, Logged, Work, QueueOk, CurrentOk, BalanceOk;
    var t := r.s.tasks[y];
    var c := t.lastCpu;
    assert TaskOk(t) && Placed(t, y, r.s.rqs[c], r.s.events[c]);
    assert CpuOk(r.s.tasks, r.s.rqs[c], r.s.events[c], c, r.now, r.ph[c]);
    if t.state.Starting? {
      var i :| 0 <= i < |r.s.events[c]| && r.s.events[c][i].task == y;
      assert EventOk(t, r.s.events[c][i], c);
    }
  }

  /** If a task is ready on CPU c then some CPU runs a task. */
  lemma ServedTask(r: RState, c: nat) returns (x: nat)
    requires RInv(r) && Staffed(r) && (forall d :: 0 <= d < |r.ph| ==> r.ph[d].Done?)
    requires c < |r.s.rqs| && r.s.rqs[c].queue != []
    ensures x < |r.s.tasks| && InMotion(r.s.tasks[x]) && r.s.tasks[x].lastCpu < |r.ph|
  {
    hide TaskOk, QueueOk, EventsOk, End, CurrentOk, BalanceOk, Placed;
    if Running(r.s.tasks, r.s.rqs[c].cur) {
      x := r.s.rqs[c].cur.value;
    } else {
      assert Overlooked(r, c);
      var w: nat :| Serves(r, w);
      x := r.s.rqs[w].cur.value;
    }
  }

  // ---------------------------------------------------------------- the account

  /** Once all tasks have arrived, every step uses up work until all have finished: either this step already has, or
      some CPU that has not ticked is going to. */
  ghost predicate Accounted(r: RState, last: int, bound: int) {
    && Potential(r) + last <= bound
    && (forall x :: 0 <= x < |r.s.tasks| ==> r.s.tasks[x].arrival <= last)
    && (r.now >= last ==>
          AllFinished(r) || Potential(r) + r.now + 1 <= bound || (Potential(r) + r.now <= bound && exists x :: Pending(r, x)))
  }

  lemma SameArrivals(cfg: Config, r: RState, st: Step, last: int)
    requires ConfigOk(cfg) && RInv(r) && Enabled(r, st) && forall x :: 0 <= x < |r.s.tasks| ==> r.s.tasks[x].arrival <= last
    ensures forall x :: 0 <= x < |Apply(cfg, r, st).s.tasks| ==> Apply(cfg, r, st).s.tasks[x].arrival <= last
  {
    StepKeeps(cfg, r, st);
    hide RInv, Apply, Enabled;
    var r' := Apply(cfg, r, st);
    forall x | 0 <= x < |r'.s.tasks| ensures r'.s.tasks[x].arrival <= last {
      assert EvolvesTask(r.s.tasks[x], r'.s.tasks[x], r.now);
    }
  }

  lemma StepNow(cfg: Config, r: RState, st: Step)
    requires Enabled(r, st)
    ensures Apply(cfg, r, st).now == r.now + if st.NextRound? then 1 else 0
    ensures st.NextRound? ==> Apply(cfg, r, st).s == r.s && |Apply(cfg, r, st).ph| == |r.ph|
    ensures st.NextRound? ==> forall c :: 0 <= c < |r.ph| ==> Apply(cfg, r, st).ph[c].Start?
  {
    hide WellFormed, Tick, Fire, Schedule, FirstPick, Rebalance, Stamp, Choose;
  }

  lemma StepAccounted(cfg: Config, r: RState, st: Step, last: int, bound: int)
    requires ConfigOk(cfg) && RInv(r) && Enabled(r, st) && Staffed(r) && Accounted(r, last, bound)
    ensures Accounted(Apply(cfg, r, st), last, bound)
  {
    hide RInv, Apply, Enabled, Staffed, Potential, AllFinished;
    var r' := Apply(cfg, r, st);
    StepPotential(cfg, r, st);
    SameArrivals(cfg, r, st, last);
    StepNow(cfg, r, st);
    if AllFinished(r) {
      StaysFinished(cfg, r, st);
    } else if st.NextRound? {
      NextAccounted(cfg, r, last, bound);
    } else if r.now >= last && Potential(r) + r.now + 1 > bound {
      var x: nat :| Pending(r, x);
      if st == TickStep(r.s.tasks[x].lastCpu) {
        PendingTicks(cfg, r, x);
      } else {
        StaysPending(cfg, r, st, x);
      }
    }
  }

  lemma PendingTicks(cfg: Config, r: RState, x: nat)
    requires RInv(r) && Pending(r, x) && Enabled(r, TickStep(r.s.tasks[x].lastCpu))
    ensures Potential(Apply(cfg, r, TickStep(r.s.tasks[x].lastCpu))) < Potential(r)
  {
    hide RInv, Enabled, Apply, Potential;
    TickPotential(cfg, r, r.s.tasks[x].lastCpu, x);
  }

  lemma NextAccounted(cfg: Config, r: RState, last: int, bound: int)
    requires RInv(r) && Enabled(r, NextRound) && Staffed(r) && Accounted(r, last, bound) && !AllFinished(r)
    ensures var r' := Apply(cfg, r, NextRound);
      r'.now >= last ==> Potential(r') + r'.now <= bound && exists x :: Pending(r', x)
  {
    hide RInv, Staffed, AllFinished, Potential, Apply, WellFormed;
    var r' := Apply(cfg, r, NextRound);
    StepPotential(cfg, r, NextRound);
    StepNow(cfg, r, NextRound);
    if r'.now >= last {
      var x := SomeInMotion(r, last);
      assert Pending(r', x);
    }
  }

  // ---------------------------------------------------------------- runs

  ghost predicate MakespanInv(r: RState, last: int, bound: int) {
    RInv(r) && Staffed(r) && Accounted(r, last, bound)
  }

  lemma {:induction false} RunAccounted(cfg: Config, r: RState, steps: seq<Step>, r': RState, last: int, bound: int)
    requires ConfigOk(cfg) && MakespanInv(r, last, bound) && Reaches(cfg, r, steps, r')
    ensures MakespanInv(r', last, bound)
    decreases |steps|
  {
    hide RInv, Staffed, Accounted, Apply, Enabled;
    if steps != [] {
      StepKeeps(cfg, r, steps[0]);
      StepStaffed(cfg, r, steps[0]);
      StepAccounted(cfg, r, steps[0], last, bound);
      RunAccounted(cfg, Apply(cfg, r, steps[0]), steps[1..], r', last, bound);
    }
  }

  lemma BootLeft(cfg: Config, ps: seq<Profile>, n: nat)
    requires n >= 1
    ensures Potential(Boot(cfg, ps, n)) == TotalWork(ps)
  {
    hide Arrivals, Rest;
    var r := Boot(cfg, ps, n);
    forall x | 0 <= x < |ps| ensures Lefts(r)[x] == Rest(ps[x].phases, 0) {
      assert r.s.tasks[x] == Loaded(cfg, ps[x], x, n);
    }
    assert Lefts(r) == seq(|ps|, i requires 0 <= i < |ps| => Rest(ps[i].phases, 0));
  }

  lemma BootStaffed(cfg: Config, ps: seq<Profile>, n: nat)
    requires n >= 1
    ensures Staffed(Boot(cfg, ps, n))
  {
    hide Arrivals, Loaded;
  }

  lemma AccountedEarly(r: RState, last: int, bound: int)
    requires RInv(r) && Staffed(r) && r.now < last && Potential(r) + last <= bound
    requires forall x :: 0 <= x < |r.s.tasks| ==> r.s.tasks[x].arrival <= last
    ensures MakespanInv(r, last, bound)
  {
    hide RInv, Staffed, Potential, AllFinished, Pending;
  }

  lemma BootAccounted(cfg: Config, ps: seq<Profile>, n: nat)
    requires n >= 1 && ProfilesOk(ps)
    ensures MakespanInv(Boot(cfg, ps, n), MaxArrival(ps), MaxArrival(ps) + TotalWork(ps))
  {
    hide *;
    BootInv(cfg, ps, n);
    BootStaffed(cfg, ps, n);
    BootLeft(cfg, ps, n);
    BootArrivals(cfg, ps, n);
    AccountedEarly(Boot(cfg, ps, n), MaxArrival(ps), MaxArrival(ps) + TotalWork(ps));
  }

  lemma BootArrivals(cfg: Config, ps: seq<Profile>, n: nat)
    requires n >= 1
    ensures var r := Boot(cfg, ps, n);
      r.now == -1 && |r.s.tasks| == |ps| && forall x :: 0 <= x < |r.s.tasks| ==> r.s.tasks[x].arrival <= MaxArrival(ps)
  {
    hide MaxArrival, Arrivals;
    MaxArrivalIsMax(ps);
    var r := Boot(cfg, ps, n);
    forall x | 0 <= x < |ps| ensures r.s.tasks[x].arrival <= MaxArrival(ps) {
      assert r.s.tasks[x] == Loaded(cfg, ps[x], x, n);
    }
  }

  /** Whatever is on a CPU or its event list is an unfinished task. */
  lemma UnfinishedHere(r: RState, c: nat)
    requires RInv(r) && c < |r.s.rqs|
    ensures r.s.rqs[c].queue != [] || Running(r.s.tasks, r.s.rqs[c].cur) || r.s.events[c] != [] ==> !AllFinished(r)
  {
    hide TaskOk, Placed, CurrentOk, BalanceOk, End;
    assert CpuOk(r.s.tasks, r.s.rqs[c], r.s.events[c], c, r.now, r.ph[c]);
    if r.s.rqs[c].queue != [] {
      assert QueuedOk(r.s.tasks[r.s.rqs[c].queue[0]], c, r.now);
    } else if r.s.events[c] != [] {
      assert EventOk(r.s.tasks[r.s.events[c][0].task], r.s.events[c][0], c);
    }
  }

  /** When all tasks have finished, nothing is left on any run queue, processor or event list. */
  lemma NothingLeft(r: RState)
    requires RInv(r) && AllFinished(r)
    ensures |r.s.events| == |r.s.rqs|
    ensures forall c :: 0 <= c < |r.s.rqs| ==>
      r.s.rqs[c].queue == [] && !Running(r.s.tasks, r.s.rqs[c].cur) && r.s.events[c] == []
  {
    RunSysOk(r);
    hide RInv, AllFinished, Running;
    forall c | 0 <= c < |r.s.rqs|
      ensures r.s.rqs[c].queue == [] && !Running(r.s.tasks, r.s.rqs[c].cur) && r.s.events[c] == []
    {
      UnfinishedHere(r, c);
    }
  }

  /** Bounded makespan on any number of CPUs: in every run, under every scheduling class and with any interleaving of the
      CPU threads and any stale loads, every task has completed when step max(arrival) + (sum of all phase lengths) begins,
      and nothing is left on any run queue, processor or event list. */
  lemma AllDoneInTime(cfg: Config, ps: seq<Profile>, n: nat, steps: seq<Step>, r: RState)
    requires RunFrom(cfg, ps, n, steps, r) && r.now >= MaxArrival(ps) + TotalWork(ps)
    ensures |r.s.tasks| == |ps| && |r.s.rqs| == |r.s.events| == n
    ensures forall x :: 0 <= x < |ps| ==> r.s.tasks[x].state == Completed
    ensures forall c :: 0 <= c < n ==> r.s.rqs[c].queue == [] && !Running(r.s.tasks, r.s.rqs[c].cur) && r.s.events[c] == []
  {
    hide RInv, Staffed, Reaches, Potential, TotalWork, MaxArrival, Pending, Boot;
    BootAccounted(cfg, ps, n);
    var last, bound := MaxArrival(ps), MaxArrival(ps) + TotalWork(ps);
    RunAccounted(cfg, Boot(cfg, ps, n), steps, r, last, bound);
    RunInv(cfg, ps, n, steps, r);
    PotentialNonNegative(r);
    TotalNonNegative(ps);
    if x: nat :| Pending(r, x) && Potential(r) + r.now <= bound {
      PendingNeeds(r, x);
    }
    NothingLeft(r);
  }

  lemma PendingNeeds(r: RState, x: nat)
    requires RInv(r) && Pending(r, x)
    ensures Potential(r) >= 1
  {
    hide RInv, Potential;
    PotentialBounds(r, x);
  }

  lemma TotalNonNegative(ps: seq<Profile>)
    requires ProfilesOk(ps)
    ensures TotalWork(ps) >= 0
  {
    var a := seq(|ps|, i requires 0 <= i < |ps| => Rest(ps[i].phases, 0));
    forall i | 0 <= i < |a| ensures a[i] >= 0 { RestPositive(ps[i].phases, 0); }
    SumPositive(a);
  }
}
