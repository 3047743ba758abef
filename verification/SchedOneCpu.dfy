/** A single CPU: its deterministic rounds, and a bound on when every task has completed. */
module SchedOneCpu {
  import opened Basics
  import opened SchedTypes
  import opened SchedSteps
  import opened SchedClocks
  import opened SchedInvariant
  import opened SchedKeeps
  import opened SchedBalance
  import opened SchedRuns
  import opened SchedTheorems

  /** `load_balance` with nr_cpus == 1. */
  function SoloBalance(s: Sys, now: int): (r: Sys)
    requires WellFormed(s) && |s.rqs| == 1
    ensures WellFormed(r) && |r.rqs| == 1 && |r.tasks| == |s.tasks|
  {
    if s.rqs[0].nrRunnable == 0 then SetNextLb(s, 0, now) else s
  }

  /** One turn of the loop of `sched_cpu`. */
  function Round(cfg: Config, s: Sys, now: int): (r: Sys)
    requires WellFormed(s) && |s.rqs| == 1
    ensures WellFormed(r) && |r.rqs| == 1 && |r.tasks| == |s.tasks|
  {
    Schedule(cfg, SoloBalance(FireAll(cfg, Tick(cfg, s, 0, now), 0, now + 1), now), 0, now)
  }

  /** The system after k turns, starting with step `now`. */
  function Rounds(cfg: Config, s: Sys, now: int, k: nat): (r: Sys)
    requires WellFormed(s) && |s.rqs| == 1
    ensures WellFormed(r) && |r.rqs| == 1 && |r.tasks| == |s.tasks|
  {
    if k == 0 then s else Round(cfg, Rounds(cfg, s, now, k - 1), now + k - 1)
  }

  /** The system when the loop starts: the events of step 0 have fired and a first task has been picked. */
  function Started(cfg: Config, ps: seq<Profile>): (r: Sys)
    ensures WellFormed(r) && |r.rqs| == 1 && |r.tasks| == |ps|
  {
    var s := BootSys(cfg, ps, 1);
    assert WellFormed(s);
    FirstPick(FireAll(cfg, s, 0, 0), 0)
  }

  // ---------------------------------------------------------------- work left

  /** The phases from index k on, added up. */
  function Rest(phases: seq<int>, k: nat): int
    decreases |phases| - k
  {
    if k >= |phases| then 0 else phases[k] + Rest(phases, k + 1)
  }

  /** Ticks and I/O steps that a task still needs at time `clock`. */
  function Left(t: Task, clock: int): int {
    match t.state
    case Starting => Rest(t.phases, 0)
    case Sleep => End(t) - clock + Rest(t.phases, t.curPhase + 1)
    case Completed => 0
    case _ => t.ticksLeft + Rest(t.phases, t.curPhase + 1)
  }

  function AllLeft(tasks: seq<Task>, clock: int): (r: seq<int>)
    ensures |r| == |tasks|
  {
    seq(|tasks|, x requires 0 <= x < |tasks| => Left(tasks[x], clock))
  }

  lemma {:induction false} SumAtMost(a: seq<int>, b: seq<int>)
    requires |a| == |b| && forall i :: 0 <= i < |a| ==> a[i] <= b[i]
    ensures Sum(a) <= Sum(b)
    ensures (exists i :: 0 <= i < |a| && a[i] < b[i]) ==> Sum(a) < Sum(b)
  {
    if a != [] {
      var n := |a| - 1;
      SumAtMost(a[..n], b[..n]);
      if i :| 0 <= i < |a| && a[i] < b[i] {
        if i < n { assert a[..n][i] < b[..n][i]; }
      }
    }
  }

  lemma {:induction false} SumPositive(a: seq<int>)
    requires forall i :: 0 <= i < |a| ==> a[i] >= 0
    ensures Sum(a) >= 0 && (Sum(a) == 0 ==> forall i :: 0 <= i < |a| ==> a[i] == 0)
  {
    if a != [] {
      var n := |a| - 1;
      assert forall i :: 0 <= i < n ==> a[..n][i] == a[i];
      SumPositive(a[..n]);
    }
  }

  lemma {:induction false} RestPositive(phases: seq<int>, k: nat)
    requires forall i :: 0 <= i < |phases| ==> phases[i] >= 1
    ensures Rest(phases, k) >= 0 && (k < |phases| ==> Rest(phases, k) >= 1)
    decreases |phases| - k
  {
    if k < |phases| { RestPositive(phases, k + 1); }
  }

  /** A step leaves a task with the same work. */
  predicate SameLeft(t: Task, t': Task, clock: int) {
    Left(t', clock) == Left(t, clock) && (t'.state == Starting ==> t.state == Starting) && SameProfile(t, t')
  }

  lemma SameCoreLeft(t: Task, t': Task, clock: int)
    requires SameCore(t, t')
    ensures SameLeft(t, t', clock)
  {
  }

  lemma WokenLeft(t: Task, t': Task, clock: int, k: nat)
    requires TaskOk(t) && End(t) == clock && k < |t.phases|
    requires (t.state == Starting && k == 0) || (t.state == Sleep && k == t.curPhase + 1)
    requires SameCore(Woken(t, k, clock).(onRq := true, lastCpu := t'.lastCpu), t')
    ensures SameLeft(t, t', clock)
  {
  }

  lemma FireLeft(cfg: Config, s: Sys, now: int, ph: seq<Phase>, c: nat, x: nat)
    requires SysOk(s, now, ph) && WellFormed(s) && c < |s.rqs| && HasDue(s, c, now + 1) && x < |s.tasks|
    ensures SameLeft(s.tasks[x], Fire(cfg, s, c, now + 1).tasks[x], now + 1)
  {
    hide DoEnqueue, QueueOk, Placed, Tiles, LogEnd, Logged, Work, EventsInRange, SameLeft;
    var e := s.events[c][0];
    var y := e.task;
    var t := s.tasks[y];
    assert CpuOk(s.tasks, s.rqs[c], s.events[c], c, now, ph[c]);
    assert EventOk(t, e, c) && TaskOk(t);
    var k := if e.kind.NewTask? then 0 else t.curPhase + 1;
    var s' := Fire(cfg, s, c, now + 1);
    if k < |t.phases| {
      WokenOk(t, now + 1, k);
      FireIsEnqueue(cfg, s, c, now + 1, k);
      FireLeftWoken(cfg, s, now, c, k, x);
    } else {
      var t' := t.(curPhase := t.curPhase + 1, state := Completed);
      assert s'.tasks == s.tasks[y := t'];
      FinishedLeft(t, now + 1);
      if x != y { SameCoreLeft(s.tasks[x], s'.tasks[x], now + 1); }
    }
  }

  lemma FinishedLeft(t: Task, clock: int)
    requires t.state == Sleep && End(t) == clock && t.curPhase + 1 >= |t.phases|
    ensures SameLeft(t, t.(curPhase := t.curPhase + 1, state := Completed), clock)
  {
  }

  lemma FireLeftWoken(cfg: Config, s: Sys, now: int, c: nat, k: nat, x: nat)
    requires WellFormed(s) && c < |s.rqs| && s.events[c] != [] && x < |s.tasks|
    requires var y := s.events[c][0].task; var t := s.tasks[y];
      && TaskOk(t) && End(t) == now + 1 && k < |t.phases| && !t.onRq
      && ((t.state == Starting && k == 0) || (t.state == Sleep && k == t.curPhase + 1))
    requires var y := s.events[c][0].task;
      WellFormed(s.(events := s.events[c := s.events[c][1..]], tasks := s.tasks[y := Woken(s.tasks[y], k, now + 1)]))
    ensures var y := s.events[c][0].task;
      var s1 := s.(events := s.events[c := s.events[c][1..]], tasks := s.tasks[y := Woken(s.tasks[y], k, now + 1)]);
      SameLeft(s.tasks[x], DoEnqueue(cfg, s1, y, c, false).tasks[x], now + 1)
  {
    hide DoEnqueue, TaskOk, End, SameLeft;
    var y := s.events[c][0].task;
    var s1 := s.(events := s.events[c := s.events[c][1..]], tasks := s.tasks[y := Woken(s.tasks[y], k, now + 1)]);
    var pos := DoEnqueueShape(cfg, s1, y, c, false);
    var s' := DoEnqueue(cfg, s1, y, c, false);
    if x == y {
      WokenLeft(s.tasks[x], s'.tasks[x], now + 1, k);
    } else {
      SameCoreLeft(s.tasks[x], s'.tasks[x], now + 1);
    }
  }

  /** `process_sched_events` as a whole. */
  lemma {:induction false} FireAllKeeps(cfg: Config, s: Sys, now: int, ph: seq<Phase>, c: nat)
    requires SysOk(s, now, ph) && WellFormed(s) && c < |s.rqs|
    ensures var s' := FireAll(cfg, s, c, now + 1);
      && SysOk(s', now, ph) && !HasDue(s', c, now + 1)
      && forall x :: 0 <= x < |s.tasks| ==> SameLeft(s.tasks[x], s'.tasks[x], now + 1)
    decreases |s.events[c]|
  {
    hide CpuOk, TaskOk, Placed, Left, Fire;
    if HasDue(s, c, now + 1) {
      var s1 := Fire(cfg, s, c, now + 1);
      FireKeeps(cfg, s, now, ph, c);
      FireShrinks(cfg, s, c, now + 1);
      FireAllKeeps(cfg, s1, now, ph, c);
      forall x | 0 <= x < |s.tasks| ensures SameLeft(s.tasks[x], s1.tasks[x], now + 1) {
        FireLeft(cfg, s, now, ph, c, x);
      }
    }
  }

  lemma FireShrinks(cfg: Config, s: Sys, c: nat, step: int)
    requires WellFormed(s) && c < |s.rqs| && s.events[c] != []
    ensures |Fire(cfg, s, c, step).events[c]| < |s.events[c]|
  {
  }

  // ---------------------------------------------------------------- one round

  /** The running task needs one tick less, a sleeping one has one step of I/O less to wait. */
  ghost predicate Progressed(t: Task, t': Task, now: int) {
    && Left(t', now + 1) == Left(t, now) - (if t.state == OnProc || t.state == Sleep then 1 else 0)
    && (t'.state == Starting ==> t.state == Starting)
    && SameProfile(t, t')
  }

  lemma TickedFields(cfg: Config, t: Task, c: nat, now: int)
    ensures var t' := TickedTask(cfg, t, c, now); var t1 := Charge(cfg, t, c, now);
      && SameProfile(t, t') && t1.phases == t.phases && t1.curPhase == t.curPhase && t1.ticksLeft == t.ticksLeft - 1
      && (t1.ticksLeft != 0 ==> t' == t1) && (t.ticksLeft == 1 ==> t'.curPhase == t.curPhase + 1)
  {
    hide AddLog;
  }

  lemma TickedLeft(cfg: Config, t: Task, c: nat, now: int)
    requires TaskOk(t) && t.state == OnProc && End(t) == now && t.lastCpu == c
    ensures Progressed(t, TickedTask(cfg, t, c, now), now)
  {
    TickedTaskOk(cfg, t, c, now);
    TickedFields(cfg, t, c, now);
    hide TaskOk, End, Charge, Leave, TickedTask, LeavesIntoCpuPhase;
  }

  lemma TickLeft(cfg: Config, s: Sys, now: int, ph: seq<Phase>, c: nat, x: nat)
    requires SysOk(s, now, ph) && WellFormed(s) && c < |s.rqs| && ph[c].Start? && x < |s.tasks| && |s.rqs| == 1
    ensures Progressed(s.tasks[x], Tick(cfg, s, c, now).tasks[x], now)
  {
    hide TaskOk, Charge, Leave, LeavesIntoCpuPhase, EventsInRange, InsertEvent, EventsOk, QueueOk, Progressed, End;
    var q := s.rqs[c];
    assert CpuOk(s.tasks, q, s.events[c], c, now, ph[c]);
    assert TaskOk(s.tasks[x]) && Placed(s.tasks[x], x, q, s.events[c]);
    if q.cur.Some? {
      var y := q.cur.value;
      TickedTaskOk(cfg, s.tasks[y], c, now);
      assert TaskOk(s.tasks[y]);
      TickedLeft(cfg, s.tasks[y], c, now);
      assert Tick(cfg, s, c, now).tasks == s.tasks[y := TickedTask(cfg, s.tasks[y], c, now)];
    }
    if q.cur != Some(x) { IdleLeft(s.tasks[x], now); }
  }

  lemma IdleLeft(t: Task, now: int)
    requires t.state != OnProc
    ensures Progressed(t, t, now)
  {
  }

  lemma SwitchedLeft(tasks: seq<Task>, tasks': seq<Task>, q: Rq, next: Option<nat>, c: nat, now: int, y: nat, clock: int)
    requires SwitchedTasks(tasks, tasks', q.cur, next, c, now) && y < |tasks|
    requires next.Some? ==> tasks[next.value].state == Runnable || tasks[next.value].state == OnProc
    ensures SameLeft(tasks[y], tasks'[y], clock)
  {
    hide AddLog;
  }

  lemma ScheduleLeft(cfg: Config, s: Sys, now: int, ph: seq<Phase>, c: nat, x: nat)
    requires SysOk(s, now, ph) && WellFormed(s) && c < |s.rqs| && EventsDone(ph[c]) && x < |s.tasks|
    ensures SameLeft(s.tasks[x], Schedule(cfg, s, c, now).tasks[x], now + 1)
    ensures Schedule(cfg, s, c, now).rqs[c].cur.None? ==> Schedule(cfg, s, c, now).rqs[c].queue == []
  {
    hide Requeue, PickNext, Switch, TaskOk, EventsOk, Placed, SwitchedTasks, SameLeft;
    var q := s.rqs[c];
    assert CpuOk(s.tasks, q, s.events[c], c, now, ph[c]);
    var s' := Schedule(cfg, s, c, now);
    if q.needResched || q.cur.None? {
      var pos := ScheduleShape(cfg, s, c, now);
      var from := PickFrom(s, c, pos);
      PickFromOk(s.tasks, q, c, now, from, pos);
      var next := if from == [] then None else Some(from[0]);
      assert next.Some? ==> next.value in from;
      SwitchedLeft(s.tasks, s'.tasks, q, next, c, now, x, now + 1);
    } else {
      SameCoreLeft(s.tasks[x], s'.tasks[x], now + 1);
    }
  }

  /** The CPU is idle only if no task is ready. */
  predicate WorkConserving(s: Sys)
    requires |s.rqs| == 1
  {
    s.rqs[0].cur.None? ==> s.rqs[0].queue == []
  }

  ghost predicate SoloOk(s: Sys, now: int) {
    SysOk(s, now, [Start]) && |s.rqs| == 1 && WorkConserving(s)
  }

  lemma SoloBalanceKeeps(s: Sys, now: int)
    requires SysOk(s, now, [Ticked]) && |s.rqs| == 1 && WellFormed(s) && !HasDue(s, 0, now + 1)
    ensures SysOk(SoloBalance(s, now), now, [Fired]) && SoloBalance(s, now).tasks == s.tasks
  {
    hide CpuOk, TaskOk, Placed;
    PhaseOk(s, now, [Ticked], 0, Fired);
    assert [Ticked][0 := Fired] == [Fired];
    NextLbOk(s, now, [Fired], 0, now);
  }

  /** The three sections of a round before `schedule`. */
  lemma RoundStages(cfg: Config, s: Sys, now: int) returns (s1: Sys, s2: Sys, s3: Sys)
    requires SysOk(s, now, [Start]) && WellFormed(s) && |s.rqs| == 1
    ensures s1 == Tick(cfg, s, 0, now) && WellFormed(s1) && |s1.rqs| == 1 && |s1.tasks| == |s.tasks|
    ensures s2 == FireAll(cfg, s1, 0, now + 1) && WellFormed(s2) && |s2.rqs| == 1 && |s2.tasks| == |s.tasks|
    ensures s3 == SoloBalance(s2, now) && WellFormed(s3) && |s3.rqs| == 1 && s3.tasks == s2.tasks
    ensures SysOk(s3, now, [Fired])
    ensures forall x :: 0 <= x < |s.tasks| ==> SameLeft(s1.tasks[x], s2.tasks[x], now + 1)
  {
    hide SysOk, WellFormed, Tick, FireAll, SoloBalance, SameLeft, HasDue;
    TickKeeps(cfg, s, now, [Start], 0);
    assert [Start][0 := Ticked] == [Ticked];
    s1 := Tick(cfg, s, 0, now);
    FireAllKeeps(cfg, s1, now, [Ticked], 0);
    s2 := FireAll(cfg, s1, 0, now + 1);
    SoloBalanceKeeps(s2, now);
    s3 := SoloBalance(s2, now);
  }

  lemma NextStepOk(s: Sys, now: int)
    requires SysOk(s, now, [Done]) && |s.rqs| == 1
    ensures SysOk(s, now + 1, [Start])
  {
    hide TaskOk, Placed, CpuOk;
    NextCpuOk(s.tasks, s.rqs[0], s.events[0], 0, now);
  }

  lemma ProgressedThen(t: Task, t1: Task, t2: Task, now: int)
    requires Progressed(t, t1, now) && SameLeft(t1, t2, now + 1)
    ensures Progressed(t, t2, now)
  {
    hide Left;
  }

  /** One round keeps the invariant and uses up a tick of the running task and of every sleeping one. */
  lemma RoundKeeps(cfg: Config, s: Sys, now: int)
    requires SoloOk(s, now)
    ensures WellFormed(s) && SoloOk(Round(cfg, s, now), now + 1)
    ensures forall x :: 0 <= x < |s.tasks| ==> Progressed(s.tasks[x], Round(cfg, s, now).tasks[x], now)
  {
    InvWellFormed(s, now, [Start]);
    hide SysOk, WellFormed, Tick, FireAll, SoloBalance, Schedule, Progressed, SameLeft;
    var s1, s2, s3 := RoundStages(cfg, s, now);
    ScheduleKeeps(cfg, s3, now, [Fired], 0);
    assert [Fired][0 := Done] == [Done];
    var s4 := Schedule(cfg, s3, 0, now);
    forall x | 0 <= x < |s.tasks| ensures Progressed(s.tasks[x], s4.tasks[x], now) {
      TickLeft(cfg, s, now, [Start], 0, x);
      ScheduleLeft(cfg, s3, now, [Fired], 0, x);
      ProgressedThen(s.tasks[x], s1.tasks[x], s2.tasks[x], now);
      ProgressedThen(s.tasks[x], s2.tasks[x], s4.tasks[x], now);
    }
    ScheduleIdle(cfg, s3, now, [Fired]);
    NextStepOk(s4, now);
  }

  lemma ScheduleIdle(cfg: Config, s: Sys, now: int, ph: seq<Phase>)
    requires SysOk(s, now, ph) && WellFormed(s) && |s.rqs| == 1 && EventsDone(ph[0])
    ensures WorkConserving(Schedule(cfg, s, 0, now))
  {
    hide Requeue, PickNext, Switch, TaskOk, EventsOk, Placed, SwitchedTasks, QueueOk;
    assert CpuOk(s.tasks, s.rqs[0], s.events[0], 0, now, ph[0]);
    if s.rqs[0].needResched || s.rqs[0].cur.None? {
      var pos := ScheduleShape(cfg, s, 0, now);
    }
  }

  // ---------------------------------------------------------------- the bound

  function MaxArrival(ps: seq<Profile>): nat {
    if ps == [] then 0
    else var m := MaxArrival(ps[..|ps| - 1]); if ps[|ps| - 1].arrival > m then ps[|ps| - 1].arrival else m
  }

  lemma {:induction false} MaxArrivalIsMax(ps: seq<Profile>)
    ensures forall i :: 0 <= i < |ps| ==> ps[i].arrival <= MaxArrival(ps)
  {
    if ps != [] {
      MaxArrivalIsMax(ps[..|ps| - 1]);
      assert forall i :: 0 <= i < |ps| - 1 ==> ps[i] == ps[..|ps| - 1][i];
    }
  }

  /** All phase lengths of all tasks, added up. */
  function TotalWork(ps: seq<Profile>): int {
    Sum(seq(|ps|, i requires 0 <= i < |ps| => Rest(ps[i].phases, 0)))
  }

  function WorkLeft(s: Sys, clock: int): int {
    Sum(AllLeft(s.tasks, clock))
  }

  lemma UnfinishedLeft(s: Sys, now: int, x: nat)
    requires SoloOk(s, now) && x < |s.tasks|
    ensures Left(s.tasks[x], now) >= 0
    ensures Left(s.tasks[x], now) == 0 ==> s.tasks[x].state == Completed
    ensures s.tasks[x].state == Starting ==> s.tasks[x].arrival > now
    ensures s.tasks[x].state == OnProc <==> s.rqs[0].cur == Some(x) && s.tasks[x].state == OnProc
    ensures s.tasks[x].state == Runnable ==> s.rqs[0].cur.Some? && s.rqs[0].cur.value < |s.tasks|
                                             && s.tasks[s.rqs[0].cur.value].state == OnProc
  {
    hide Tiles, Logged, QueueOk;
    var t := s.tasks[x];
    assert TaskOk(t) && Placed(t, x, s.rqs[0], s.events[0]);
    assert CpuOk(s.tasks, s.rqs[0], s.events[0], 0, now, Start);
    RestPositive(t.phases, 0);
    RestPositive(t.phases, t.curPhase + 1);
    if t.state == Starting || t.state == Sleep {
      var i :| 0 <= i < |s.events[0]| && s.events[0][i].task == x;
      assert EventOk(t, s.events[0][i], 0);
    }
  }

  /** The work left never grows, and once all tasks have arrived it shrinks in every round until none is left. */
  lemma RoundShrinks(cfg: Config, s: Sys, now: int)
    requires SoloOk(s, now)
    ensures WellFormed(s) && WorkLeft(Round(cfg, s, now), now + 1) <= WorkLeft(s, now)
    ensures (forall x :: 0 <= x < |s.tasks| ==> s.tasks[x].arrival <= now) && WorkLeft(s, now) > 0 ==>
      WorkLeft(Round(cfg, s, now), now + 1) < WorkLeft(s, now)
  {
    RoundKeeps(cfg, s, now);
    hide Round, SoloOk, Left;
    var s' := Round(cfg, s, now);
    var a, b := AllLeft(s'.tasks, now + 1), AllLeft(s.tasks, now);
    forall x | 0 <= x < |b| ensures a[x] <= b[x] {
      assert Progressed(s.tasks[x], s'.tasks[x], now);
    }
    SumAtMost(a, b);
    if (forall x :: 0 <= x < |s.tasks| ==> s.tasks[x].arrival <= now) && WorkLeft(s, now) > 0 {
      var x := SomeoneWorks(s, now);
      assert Progressed(s.tasks[x], s'.tasks[x], now);
      assert a[x] < b[x];
    }
  }

  lemma {:induction false} SumZero(a: seq<int>)
    requires forall i :: 0 <= i < |a| ==> a[i] == 0
    ensures Sum(a) == 0
  {
    if a != [] { SumZero(a[..|a| - 1]); }
  }

  lemma SomeoneWorks(s: Sys, now: int) returns (x: nat)
    requires SoloOk(s, now) && WorkLeft(s, now) > 0
    requires forall y :: 0 <= y < |s.tasks| ==> s.tasks[y].arrival <= now
    ensures x < |s.tasks| && (s.tasks[x].state == OnProc || s.tasks[x].state == Sleep)
  {
    if forall y :: 0 <= y < |s.tasks| ==> s.tasks[y].state == Completed {
      SumZero(AllLeft(s.tasks, now));
    }
    var y :| 0 <= y < |s.tasks| && s.tasks[y].state != Completed;
    UnfinishedLeft(s, now, y);
    x := if s.tasks[y].state == Runnable then s.rqs[0].cur.value else y;
  }

  lemma {:induction false} RoundsKeep(cfg: Config, s: Sys, k: nat)
    requires SoloOk(s, 0) && WellFormed(s) && |s.rqs| == 1
    ensures SoloOk(Rounds(cfg, s, 0, k), k)
    ensures WorkLeft(Rounds(cfg, s, 0, k), k) <= WorkLeft(s, 0)
    ensures forall x :: 0 <= x < |s.tasks| ==> Rounds(cfg, s, 0, k).tasks[x].arrival == s.tasks[x].arrival
  {
    hide SoloOk, Round, WorkLeft;
    if k > 0 {
      RoundsKeep(cfg, s, k - 1);
      var s1 := Rounds(cfg, s, 0, k - 1);
      RoundKeeps(cfg, s1, k - 1);
      RoundShrinks(cfg, s1, k - 1);
    }
  }

  lemma {:induction false} RoundsShrink(cfg: Config, s: Sys, from: nat, j: nat)
    requires SoloOk(s, 0) && WellFormed(s) && |s.rqs| == 1 && forall x :: 0 <= x < |s.tasks| ==> s.tasks[x].arrival <= from
    ensures WorkLeft(Rounds(cfg, s, 0, from + j), from + j) <= 0
         || WorkLeft(Rounds(cfg, s, 0, from + j), from + j) <= WorkLeft(s, 0) - j
  {
    hide SoloOk, Round, WorkLeft;
    RoundsKeep(cfg, s, from + j);
    if j > 0 {
      RoundsShrink(cfg, s, from, j - 1);
      RoundsKeep(cfg, s, from + j - 1);
      RoundShrinks(cfg, Rounds(cfg, s, 0, from + j - 1), from + j - 1);
    }
  }

  lemma BootSolo(cfg: Config, ps: seq<Profile>)
    requires ProfilesOk(ps)
    ensures var s := BootSys(cfg, ps, 1); SysOk(s, -1, [Ticked]) && WellFormed(s) && |s.rqs| == 1 && s.rqs[0].cur.None?
  {
    BootInv(cfg, ps, 1);
    hide CpuOk, TaskOk, Placed;
    assert Boot(cfg, ps, 1).ph == [Ticked];
    InvWellFormed(BootSys(cfg, ps, 1), -1, [Ticked]);
  }

  /** The states between the creation of the CPU thread and its loop. */
  lemma StartedStages(cfg: Config, ps: seq<Profile>) returns (s: Sys, s1: Sys)
    requires ProfilesOk(ps)
    ensures s == BootSys(cfg, ps, 1) && WellFormed(s) && |s.rqs| == 1 && |s.tasks| == |ps|
    ensures s1 == FireAll(cfg, s, 0, 0) && WellFormed(s1) && |s1.rqs| == 1 && |s1.tasks| == |ps|
    ensures SysOk(s1, -1, [Fired]) && s1.rqs[0].cur.None?
    ensures forall x :: 0 <= x < |ps| ==> SameLeft(s.tasks[x], s1.tasks[x], 0)
  {
    s := BootSys(cfg, ps, 1);
    BootSolo(cfg, ps);
    hide SysOk, WellFormed, BootSys, FireAll, SameLeft, HasDue;
    FireAllKeeps(cfg, s, -1, [Ticked], 0);
    FireAllCur(cfg, s, 0, 0);
    s1 := FireAll(cfg, s, 0, 0);
    PhaseOk(s1, -1, [Ticked], 0, Fired);
    assert [Ticked][0 := Fired] == [Fired];
  }

  lemma StartedOk(cfg: Config, ps: seq<Profile>)
    requires ProfilesOk(ps)
    ensures SoloOk(Started(cfg, ps), 0)
    ensures WorkLeft(Started(cfg, ps), 0) == TotalWork(ps)
    ensures forall x :: 0 <= x < |ps| ==> Started(cfg, ps).tasks[x].arrival == ps[x].arrival
  {
    hide *;
    var s, s1 := StartedStages(cfg, ps);
    StartedIs(cfg, ps);
    StartedSolo(cfg, s1);
    StartedLeft(cfg, ps, s, s1);
  }

  lemma StartedIs(cfg: Config, ps: seq<Profile>)
    ensures var s := BootSys(cfg, ps, 1); WellFormed(s) && |s.rqs| == 1
    ensures Started(cfg, ps) == FirstPick(FireAll(cfg, BootSys(cfg, ps, 1), 0, 0), 0)
  {
    hide FirstPick, FireAll;
  }

  lemma StartedSolo(cfg: Config, s1: Sys)
    requires SysOk(s1, -1, [Fired]) && WellFormed(s1) && |s1.rqs| == 1 && s1.rqs[0].cur.None?
    ensures SoloOk(FirstPick(s1, 0), 0)
  {
    hide SysOk, WellFormed, FirstPick;
    FirstPickKeeps(cfg, s1, [Fired], 0);
    assert [Fired][0 := Done] == [Done];
    FirstPickIdle(s1);
    NextStepOk(FirstPick(s1, 0), -1);
  }

  lemma StartedLeft(cfg: Config, ps: seq<Profile>, s: Sys, s1: Sys)
    requires s == BootSys(cfg, ps, 1) && WellFormed(s) && |s.rqs| == 1 && |s.tasks| == |ps|
    requires SysOk(s1, -1, [Fired]) && WellFormed(s1) && |s1.rqs| == 1 && |s1.tasks| == |ps|
    requires forall x :: 0 <= x < |ps| ==> SameLeft(s.tasks[x], s1.tasks[x], 0)
    ensures var s2 := FirstPick(s1, 0);
      WorkLeft(s2, 0) == TotalWork(ps) && |s2.tasks| == |ps| && forall x :: 0 <= x < |ps| ==> s2.tasks[x].arrival == ps[x].arrival
  {
    hide SysOk, WellFormed, FirstPick, BootSys, Left, Rest;
    FirstPickLeft(s1);
    var s2 := FirstPick(s1, 0);
    forall x | 0 <= x < |ps| ensures Left(s2.tasks[x], 0) == Rest(ps[x].phases, 0) && s2.tasks[x].arrival == ps[x].arrival {
      LoadedLeft(cfg, ps, x);
    }
    assert AllLeft(s2.tasks, 0) == seq(|ps|, i requires 0 <= i < |ps| => Rest(ps[i].phases, 0));
  }

  lemma LoadedLeft(cfg: Config, ps: seq<Profile>, x: nat)
    requires x < |ps|
    ensures var t := BootSys(cfg, ps, 1).tasks[x]; Left(t, 0) == Rest(ps[x].phases, 0) && t.arrival == ps[x].arrival
  {
  }

  lemma {:induction false} FireAllCur(cfg: Config, s: Sys, c: nat, step: int)
    requires WellFormed(s) && c < |s.rqs|
    ensures FireAll(cfg, s, c, step).rqs[c].cur == s.rqs[c].cur
    decreases |s.events[c]|
  {
    hide Fire;
    if HasDue(s, c, step) && !s.aborted {
      FireElsewhere(cfg, s, c, step);
      FireShrinks(cfg, s, c, step);
      FireAllCur(cfg, Fire(cfg, s, c, step), c, step);
    }
  }

  lemma FirstPickIdle(s: Sys)
    requires WellFormed(s) && |s.rqs| == 1
    ensures WorkConserving(FirstPick(s, 0))
  {
  }

  lemma FirstPickLeft(s: Sys)
    requires SysOk(s, -1, [Fired]) && |s.rqs| == 1 && WellFormed(s)
    ensures forall x :: 0 <= x < |s.tasks| ==> SameLeft(s.tasks[x], FirstPick(s, 0).tasks[x], 0)
  {
    hide TaskOk, Placed, EventsOk, Tiles, Work;
    assert CpuOk(s.tasks, s.rqs[0], s.events[0], 0, -1, Fired);
    if s.rqs[0].queue != [] {
      assert QueuedOk(s.tasks[s.rqs[0].queue[0]], 0, -1);
    }
  }

  /** Bounded makespan: on one CPU, under every scheduling class, every task has completed by the time
      max(arrival) + (sum of all phase lengths), and the CPU reports completion. */
  lemma BoundedMakespan(cfg: Config, ps: seq<Profile>, k: nat)
    requires ProfilesOk(ps) && k >= MaxArrival(ps) + TotalWork(ps)
    ensures var s := Rounds(cfg, Started(cfg, ps), 0, k);
      && (forall x :: 0 <= x < |ps| ==> s.tasks[x].state == Completed)
      && HasCompleted(s, 0)
  {
    hide *;
    StartedOk(cfg, ps);
    MaxArrivalIsMax(ps);
    var s0 := Started(cfg, ps);
    var from := MaxArrival(ps);
    WorkNonNegative(s0, 0);
    RoundsShrink(cfg, s0, from, k - from);
    RoundsKeep(cfg, s0, k);
    AllDoneWhenNoWork(Rounds(cfg, s0, 0, k), k);
  }

  lemma WorkNonNegative(s: Sys, now: int)
    requires SoloOk(s, now)
    ensures WorkLeft(s, now) >= 0
    ensures WorkLeft(s, now) == 0 ==> forall x :: 0 <= x < |s.tasks| ==> s.tasks[x].state == Completed
  {
    hide SoloOk, Left;
    forall x | 0 <= x < |s.tasks| ensures Left(s.tasks[x], now) >= 0 && (Left(s.tasks[x], now) == 0 ==> s.tasks[x].state == Completed) {
      UnfinishedLeft(s, now, x);
    }
    SumPositive(AllLeft(s.tasks, now));
    if WorkLeft(s, now) == 0 {
      forall x | 0 <= x < |s.tasks| ensures s.tasks[x].state == Completed {
        assert AllLeft(s.tasks, now)[x] == 0;
      }
    }
  }

  lemma NothingPending(s: Sys, now: int)
    requires SoloOk(s, now)
    ensures s.rqs[0].queue != [] || s.events[0] != [] ==> exists x :: 0 <= x < |s.tasks| && s.tasks[x].state != Completed
  {
    assert CpuOk(s.tasks, s.rqs[0], s.events[0], 0, now, Start);
    if s.rqs[0].queue != [] {
      assert QueuedOk(s.tasks[s.rqs[0].queue[0]], 0, now);
    } else if s.events[0] != [] {
      assert EventOk(s.tasks[s.events[0][0].task], s.events[0][0], 0);
    }
  }

  lemma AllDoneWhenNoWork(s: Sys, now: int)
    requires SoloOk(s, now) && WorkLeft(s, now) <= 0 && WellFormed(s)
    ensures forall x :: 0 <= x < |s.tasks| ==> s.tasks[x].state == Completed
    ensures HasCompleted(s, 0)
  {
    WorkNonNegative(s, now);
    NothingPending(s, now);
    hide TaskOk, Placed, WorkLeft, QueueOk, EventsOk;
    assert CpuOk(s.tasks, s.rqs[0], s.events[0], 0, now, Start);
  }

  /** A CPU that reports completion has no unfinished task. */
  lemma CompletedMeansFinished(s: Sys, now: int)
    requires SoloOk(s, now) && WellFormed(s) && HasCompleted(s, 0)
    ensures forall x :: 0 <= x < |s.tasks| ==> s.tasks[x].state == Completed
  {
    hide TaskOk, QueueOk, EventsOk;
    assert CpuOk(s.tasks, s.rqs[0], s.events[0], 0, now, Start);
    forall x | 0 <= x < |s.tasks| ensures s.tasks[x].state == Completed {
      assert TaskOk(s.tasks[x]) && Placed(s.tasks[x], x, s.rqs[0], s.events[0]);
    }
  }

  /** However the loop ends, if the step limit is at least the bound then every task has completed. */
  lemma LoopEnds(cfg: Config, ps: seq<Profile>, step: nat, maxSteps: nat)
    requires ProfilesOk(ps) && step <= maxSteps && maxSteps >= MaxArrival(ps) + TotalWork(ps)
    requires step < maxSteps ==> HasCompleted(Rounds(cfg, Started(cfg, ps), 0, step), 0)
    ensures var s := Rounds(cfg, Started(cfg, ps), 0, step);
      forall x :: 0 <= x < |s.tasks| ==> s.tasks[x].state == Completed
  {
    hide *;
    if step < maxSteps {
      StartedOk(cfg, ps);
      RoundsKeep(cfg, Started(cfg, ps), step);
      CompletedMeansFinished(Rounds(cfg, Started(cfg, ps), 0, step), step);
    } else {
      BoundedMakespan(cfg, ps, step);
    }
  }
}
