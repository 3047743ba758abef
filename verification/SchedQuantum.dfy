/** Time slices, in ticks: what the slice of a task counts, and when RR takes the processor away. */
module SchedQuantum {
  import opened Basics
  import opened SchedTypes
  import opened SchedSteps
  import opened SchedClocks
  import opened SchedInvariant
  import opened SchedKeeps
  import opened SchedBalance
  import opened SchedRuns
  import opened SchedTheorems
  import opened SchedSlices
  import opened SchedPreempt
  import opened SchedHistory
  import opened SchedFlags
  import opened SchedTies
  import opened SchedFifo

  /** In every run, a waiting task has a whole slice: the configured quantum under RR, and three ticks under TJFEX. */
  lemma WholeSlices(cfg: Config, ps: seq<Profile>, n: nat, steps: seq<Step>, r: RState, c: nat, i: nat)
    requires RunFrom(cfg, ps, n, steps, r) && c < n
    ensures |r.s.rqs| == n && RqInRange(r.s.rqs[c], |r.s.tasks|)
    ensures var q := r.s.rqs[c].queue; i < |q| ==>
      && (cfg.policy.Rr? ==> r.s.tasks[q[i]].slice == cfg.rrQuantum)
      && (cfg.policy.TjfEx? ==> r.s.tasks[q[i]].slice == 3)
  {
    RunInv(cfg, ps, n, steps, r);
    InvWellFormed(r.s, r.now, r.ph);
    hide RunFrom, RInv, SysOk;
    if Sliced(cfg.policy) { SliceBounds(cfg, ps, n, steps, r, c); }
  }

  // ---------------------------------------------------------------- ticks since the last enqueue

  /** Does the section enqueue task x? */
  ghost predicate Enqueues(cfg: Config, r: RState, st: Step, x: nat)
    requires Enabled(r, st)
  {
    exists e :: e in Noted(cfg, r, st) && e.task == x
  }

  /** The ticks that task x has run since it was last enqueued, after one more section. */
  ghost function UsedAfter(cfg: Config, r: RState, st: Step, x: nat, used: nat): nat
    requires Enabled(r, st)
  {
    if Enqueues(cfg, r, st, x) then 0
    else if st.TickStep? && r.s.rqs[st.cpu].cur == Some(x) then used + 1
    else used
  }

  /** ... after a run. */
  ghost function Used(cfg: Config, r: RState, steps: seq<Step>, x: nat, used: nat): nat
    decreases |steps|
  {
    if steps == [] || !Enabled(r, steps[0]) then used
    else Used(cfg, Apply(cfg, r, steps[0]), steps[1..], x, UsedAfter(cfg, r, steps[0], x, used))
  }

  /** A waiting task has a whole slice and has not run; a running one has run the ticks that its slice lacks. */
  predicate UsedOk(cfg: Config, t: Task, used: nat) {
    && (t.state.Runnable? ==> t.slice == Quantum(cfg) && used == 0)
    && (t.state.OnProc? ==> t.slice == Quantum(cfg) - used)
  }

  lemma FireUsed(cfg: Config, r: RState, c: nat, x: nat, used: nat)
    requires RInv(r) && Enabled(r, FireStep(c)) && Sliced(cfg.policy) && x < |r.s.tasks| && UsedOk(cfg, r.s.tasks[x], used)
    ensures UsedOk(cfg, Fire(cfg, r.s, c, r.now + 1).tasks[x], UsedAfter(cfg, r, FireStep(c), x, used))
  {
    hide RInv, Fire, DoEnqueue, TaskOk, End, EventsInRange, SysOk, NewEnq;
    RunSysOk(r);
    DueIsNotCurrent(r.s, r.now, r.ph, c);
    var s, now := r.s, r.now;
    var e := s.events[c][0];
    var y := e.task;
    var t := s.tasks[y];
    var k := WokenPhase(t, e);
    if k < |t.phases| {
      PhaseOfEvent(t, e);
      WokenOk(t, now + 1, k);
      FireIsEnqueue(cfg, s, c, now + 1, k);
      var s1 := s.(events := s.events[c := s.events[c][1..]], tasks := s.tasks[y := Woken(t, k, now + 1)]);
      var pos := DoEnqueueShape(cfg, s1, y, c, false);
      EnqueueSlices(cfg, s1, y, c, false);
      var enq := NewEnq(cfg, s, r.ph, c, y, s1.tasks[y]);
      NewEnqFields(cfg, s, r.ph, c, y, s1.tasks[y]);
      assert Noted(cfg, r, FireStep(c)) == [enq] && enq in [enq];
    } else {
      NewTaskHasPhase(t);
      FinishedShape(cfg, s, c, now + 1);
      FinishedState(cfg, s, c, now + 1);
    }
  }

  lemma MoveUsed(cfg: Config, s: Sys, now: int, ph: seq<Phase>, src: nat, dst: nat, x: nat, used: nat)
    requires SysOk(s, now, ph) && WellFormed(s) && src < |s.rqs| && dst < |s.rqs| == |ph| && src != dst
    requires Sliced(cfg.policy) && x < |s.tasks| && UsedOk(cfg, s.tasks[x], used)
    ensures var moved := exists e :: e in MoveNote(cfg, s, ph, src, dst) && e.task == x;
      UsedOk(cfg, Rebalance(cfg, s, src, dst, now).tasks[x], if moved then 0 else used)
  {
    hide SysOk, TaskOk, QueuedOk, DoEnqueue, EventsInRange, NewEnq, AddLog;
    var q := s.rqs[src];
    if q.nrRunnable - s.rqs[dst].nrRunnable > 1 {
      var y := StealFinds(s, now, ph, src, dst);
      var s1 := Steal(s, src);
      var pos := DoEnqueueShape(cfg, s1, y, dst, false);
      EnqueueSlices(cfg, s1, y, dst, false);
      MovedTask(s, now, ph, src, dst, y);
      var enq := NewEnq(cfg, s, ph, dst, y, s.tasks[y]);
      NewEnqFields(cfg, s, ph, dst, y, s.tasks[y]);
      assert MoveNote(cfg, s, ph, src, dst) == [enq] && enq in [enq];
    }
  }

  lemma ScheduleUsed(cfg: Config, s: Sys, now: int, ph: seq<Phase>, c: nat, x: nat, used: nat)
    requires SysOk(s, now, ph) && WellFormed(s) && c < |s.rqs| && Sliced(cfg.policy) && x < |s.tasks| && UsedOk(cfg, s.tasks[x], used)
    ensures var q := s.rqs[c];
      UsedOk(cfg, Schedule(cfg, s, c, now).tasks[x], if q.needResched && Running(s.tasks, q.cur) && q.cur == Some(x) then 0 else used)
  {
    hide SysOk, Schedule, WellFormed, AddLog, QueuePos, QueueKeys;
    var q := s.rqs[c];
    CurrentHereOk(s, now, ph, c);
    if q.needResched || q.cur.None? {
      var pos := ScheduleShape(cfg, s, c, now);
      ScheduleSliceOf(cfg, s, c, now, x);
      if PickFrom(s, c, pos) != [] { NextWaited(s, now, ph, c, pos); }
    } else {
      ScheduleNothing(cfg, s, c, now);
    }
  }

  /** The next task was waiting, if it was not running. */
  lemma NextWaited(s: Sys, now: int, ph: seq<Phase>, c: nat, pos: nat)
    requires SysOk(s, now, ph) && c < |s.rqs| && pos <= |s.rqs[c].queue| && PickFrom(s, c, pos) != []
    ensures var y := PickFrom(s, c, pos)[0]; y < |s.tasks| && (Some(y) != s.rqs[c].cur ==> s.tasks[y].state.Runnable?)
  {
    hide TaskOk, EventsOk, Placed, End;
    var q := s.rqs[c];
    assert CpuOk(s.tasks, q, s.events[c], c, now, ph[c]);
    assert q.queue != [] ==> QueuedOk(s.tasks[q.queue[0]], c, now);
  }

  lemma TickUsed(cfg: Config, s: Sys, now: int, ph: seq<Phase>, c: nat, x: nat, used: nat)
    requires SysOk(s, now, ph) && WellFormed(s) && c < |s.rqs| && ph[c].Start? && Sliced(cfg.policy)
    requires x < |s.tasks| && UsedOk(cfg, s.tasks[x], used)
    ensures UsedOk(cfg, Tick(cfg, s, c, now).tasks[x], if s.rqs[c].cur == Some(x) then used + 1 else used)
  {
    hide SysOk, TaskOk, Charge, Leave, LeavesIntoCpuPhase, Tick, WellFormed, End, Tiles;
    TickedTasks(cfg, s, now, ph, c);
    if s.rqs[c].cur == Some(x) {
      RunningEnd(s, now, ph, c);
      TickedTaskOk(cfg, s.tasks[x], c, now);
      TickedSlice(cfg, s.tasks[x], c, now);
    }
  }

  lemma TrialUsed(cfg: Config, r: RState, c: nat, loads: seq<nat>, x: nat, used: nat)
    requires RInv(r) && Enabled(r, BalanceTrial(c, loads)) && Sliced(cfg.policy) && x < |r.s.tasks| && UsedOk(cfg, r.s.tasks[x], used)
    ensures var r' := Apply(cfg, r, BalanceTrial(c, loads));
      x < |r'.s.tasks| && UsedOk(cfg, r'.s.tasks[x], UsedAfter(cfg, r, BalanceTrial(c, loads), x, used))
  {
    hide RInv, SysOk, WellFormed, Rebalance, Stamp, MoveNote, UsedOk;
    RunSysOk(r);
    RemoteIsNotLocal(loads, c);
    match Choose(loads, c)
    case PushTo(d) => MoveUsed(cfg, r.s, r.now, r.ph, c, d, x, used);
    case PullFrom(d) => MoveUsed(cfg, r.s, r.now, r.ph, d, c, x, used);
    case _ =>
  }

  lemma StepUsed(cfg: Config, r: RState, st: Step, x: nat, used: nat)
    requires RInv(r) && Enabled(r, st) && Sliced(cfg.policy) && x < |r.s.tasks| && UsedOk(cfg, r.s.tasks[x], used)
    ensures var r' := Apply(cfg, r, st); x < |r'.s.tasks| && UsedOk(cfg, r'.s.tasks[x], UsedAfter(cfg, r, st, x, used))
  {
    hide RInv, SysOk, WellFormed, Tick, Fire, Schedule, FirstPick, Rebalance, Stamp, FireNote, MoveNote, UsedOk;
    RunSysOk(r);
    match st
    case FireStep(c) => FireUsed(cfg, r, c, x, used);
    case ScheduleStep(c) =>
      ScheduleUsed(cfg, r.s, r.now, r.ph, c, x, used);
      ScheduleEnqueues(cfg, r, c, x);
    case BalanceTrial(c, loads) => TrialUsed(cfg, r, c, loads, x, used);
    case TickStep(c) => TickUsed(cfg, r.s, r.now, r.ph, c, x, used);
    case FirstPickStep(c) =>
      FirstPickBooting(r, c);
      FirstPickUsed(cfg, r.s, r.ph, c, x, used);
    case _ =>
  }

  lemma ScheduleEnqueues(cfg: Config, r: RState, c: nat, x: nat)
    requires Enabled(r, ScheduleStep(c))
    ensures var q := r.s.rqs[c];
      Enqueues(cfg, r, ScheduleStep(c), x) <==> q.needResched && Running(r.s.tasks, q.cur) && q.cur == Some(x)
  {
    hide WellFormed;
    var q := r.s.rqs[c];
    if q.needResched && Running(r.s.tasks, q.cur) {
      var e := Enq(q.cur.value, None, false, false, true);
      assert Noted(cfg, r, ScheduleStep(c)) == [e] && e in [e];
    }
  }

  lemma FirstPickUsed(cfg: Config, s: Sys, ph: seq<Phase>, c: nat, x: nat, used: nat)
    requires SysOk(s, -1, ph) && WellFormed(s) && c < |s.rqs| && x < |s.tasks| && UsedOk(cfg, s.tasks[x], used)
    ensures UsedOk(cfg, FirstPick(s, c).tasks[x], used)
  {
    hide EventsInRange, TaskOk, EventsOk, Placed, End;
    assert CpuOk(s.tasks, s.rqs[c], s.events[c], c, -1, ph[c]);
    assert s.rqs[c].queue != [] ==> QueuedOk(s.tasks[s.rqs[c].queue[0]], c, -1);
  }

  lemma {:induction false} RunUsed(cfg: Config, r: RState, steps: seq<Step>, r': RState, x: nat, used: nat)
    requires ConfigOk(cfg) && RInv(r) && Sliced(cfg.policy) && x < |r.s.tasks| && UsedOk(cfg, r.s.tasks[x], used)
    requires Reaches(cfg, r, steps, r')
    ensures x < |r'.s.tasks| && UsedOk(cfg, r'.s.tasks[x], Used(cfg, r, steps, x, used))
    decreases |steps|
  {
    hide RInv, UsedOk, Apply, Enabled, UsedAfter;
    if steps != [] {
      StepKeeps(cfg, r, steps[0]);
      StepUsed(cfg, r, steps[0], x, used);
      RunUsed(cfg, Apply(cfg, r, steps[0]), steps[1..], r', x, UsedAfter(cfg, r, steps[0], x, used));
    }
  }

  /** In every run of RR and TJFEX, with any number of CPUs: the slice of a running task is the quantum less the ticks that it
      has run since it was last enqueued, and a waiting task has not run since. */
  lemma SliceCounts(cfg: Config, ps: seq<Profile>, n: nat, steps: seq<Step>, r: RState, x: nat)
    requires RunFrom(cfg, ps, n, steps, r) && Sliced(cfg.policy) && x < |ps|
    ensures n >= 1 && |r.s.tasks| == |ps|
    ensures var t := r.s.tasks[x]; var used := Used(cfg, Boot(cfg, ps, n), steps, x, 0);
      && (t.state.OnProc? ==> t.slice + used == if cfg.policy.Rr? then cfg.rrQuantum else 3)
      && (t.state.Runnable? ==> used == 0)
  {
    RunInv(cfg, ps, n, steps, r);
    BootInv(cfg, ps, n);
    assert UsedOk(cfg, Boot(cfg, ps, n).s.tasks[x], 0);
    hide RInv, Reaches, Used;
    RunUsed(cfg, Boot(cfg, ps, n), steps, r, x, 0);
  }

  // ---------------------------------------------------------------- RR

  /** On CPU c, a reschedule has been requested exactly if the running task has used its slice. */
  ghost predicate AskedAt(s: Sys, c: nat)
    requires c < |s.rqs|
  {
    && (s.rqs[c].needResched ==> s.rqs[c].cur.Some?)
    && (Running(s.tasks, s.rqs[c].cur) ==> (s.rqs[c].needResched <==> s.tasks[s.rqs[c].cur.value].slice <= 0))
  }

  ghost predicate AskedRight(s: Sys) {
    forall c :: 0 <= c < |s.rqs| ==> AskedAt(s, c)
  }

  /** CPU d runs what it ran, if anything, with the same slice and the same request. */
  ghost predicate AskedSame(s: Sys, s': Sys, d: nat)
    requires d < |s.rqs| && d < |s'.rqs|
  {
    && s'.rqs[d].needResched == s.rqs[d].needResched && s'.rqs[d].cur == s.rqs[d].cur
    && (Running(s'.tasks, s'.rqs[d].cur) ==>
          Running(s.tasks, s.rqs[d].cur) && s'.tasks[s.rqs[d].cur.value].slice == s.tasks[s.rqs[d].cur.value].slice)
  }

  lemma AskedKept(s: Sys, s': Sys)
    requires AskedRight(s) && |s'.rqs| == |s.rqs| && forall d :: 0 <= d < |s.rqs| ==> AskedSame(s, s', d)
    ensures AskedRight(s')
  {
    forall d | 0 <= d < |s.rqs| ensures AskedAt(s', d) { assert AskedAt(s, d) && AskedSame(s, s', d); }
  }

  lemma AskedHere(s: Sys, s': Sys, c: nat)
    requires AskedRight(s) && |s'.rqs| == |s.rqs| && c < |s.rqs| && AskedAt(s', c)
    requires forall d :: 0 <= d < |s.rqs| && d != c ==> AskedSame(s, s', d)
    ensures AskedRight(s')
  {
    forall d | 0 <= d < |s.rqs| ensures AskedAt(s', d) {
      if d != c { assert AskedAt(s, d) && AskedSame(s, s', d); }
    }
  }

  lemma FireAsked(cfg: Config, r: RState, c: nat)
    requires RInv(r) && Enabled(r, FireStep(c)) && cfg.policy.Rr? && AskedRight(r.s)
    ensures AskedRight(Fire(cfg, r.s, c, r.now + 1))
  {
    hide RInv, Fire, DoEnqueue, TaskOk, End, EventsInRange, SysOk, AskedRight;
    RunSysOk(r);
    DueIsNotCurrent(r.s, r.now, r.ph, c);
    var s, now := r.s, r.now;
    var e := s.events[c][0];
    var x := e.task;
    var t := s.tasks[x];
    var k := WokenPhase(t, e);
    var s' := Fire(cfg, s, c, now + 1);
    if k < |t.phases| {
      PhaseOfEvent(t, e);
      WokenOk(t, now + 1, k);
      FireIsEnqueue(cfg, s, c, now + 1, k);
      var s1 := s.(events := s.events[c := s.events[c][1..]], tasks := s.tasks[x := Woken(t, k, now + 1)]);
      Appended(cfg, s1, x, c);
      EnqueueSlices(cfg, s1, x, c, false);
    } else {
      NewTaskHasPhase(t);
      FinishedShape(cfg, s, c, now + 1);
      FinishedState(cfg, s, c, now + 1);
    }
    forall d | 0 <= d < |s.rqs| ensures AskedSame(s, s', d) {}
    AskedKept(s, s');
  }

  lemma MoveAsked(cfg: Config, s: Sys, now: int, ph: seq<Phase>, src: nat, dst: nat)
    requires SysOk(s, now, ph) && WellFormed(s) && src < |s.rqs| && dst < |s.rqs| && src != dst
    requires cfg.policy.Rr? && AskedRight(s)
    ensures AskedRight(Rebalance(cfg, s, src, dst, now))
  {
    hide SysOk, TaskOk, QueuedOk, DoEnqueue, EventsInRange, AddLog, AskedRight;
    if s.rqs[src].nrRunnable - s.rqs[dst].nrRunnable > 1 {
      var x := StealFinds(s, now, ph, src, dst);
      MovedTask(s, now, ph, src, dst, x);
      Appended(cfg, Steal(s, src), x, dst);
      EnqueueSlices(cfg, Steal(s, src), x, dst, false);
      var s' := MoveOneTask(cfg, s, src, dst, now);
      forall d | 0 <= d < |s.rqs| ensures AskedSame(s, s', d) {}
      AskedKept(s, s');
    }
  }

  lemma SliceLeft(cfg: Config, s: Sys, ph: seq<Phase>, c: nat)
    requires SlicesOk(cfg, s, ph) && c < |s.rqs| && (ph[c].Done? || ph[c].Start?)
    ensures Running(s.tasks, s.rqs[c].cur) ==> s.tasks[s.rqs[c].cur.value].slice >= 1
  {
    assert CpuSlices(cfg, s.tasks, s.rqs[c], ph[c]);
  }

  /** After `schedule` a slice is left. */
  lemma ScheduledSlice(cfg: Config, s: Sys, now: int, ph: seq<Phase>, c: nat)
    requires SysOk(s, now, ph) && WellFormed(s) && c < |s.rqs| && EventsDone(ph[c]) && SlicesOk(cfg, s, ph)
    ensures var s' := Schedule(cfg, s, c, now); !s'.rqs[c].needResched && AskedAt(s', c)
  {
    assert |ph| == |s.rqs|;
    hide SysOk, SlicesOk, WellFormed;
    ScheduleSlices(cfg, s, now, ph, c);
    hide Reschedule;
    SliceLeft(cfg, Schedule(cfg, s, c, now), ph[c := Done], c);
  }

  lemma ScheduleAsked(cfg: Config, s: Sys, now: int, ph: seq<Phase>, c: nat)
    requires SysOk(s, now, ph) && WellFormed(s) && c < |s.rqs| && EventsDone(ph[c]) && cfg.policy.Rr?
    requires SlicesOk(cfg, s, ph) && AskedRight(s)
    ensures AskedRight(Schedule(cfg, s, c, now))
  {
    hide SysOk, Schedule, SwitchedTasks, WellFormed, PickFrom, SlicesOk, AskedRight, AskedAt;
    CurrentNotQueued(s, now, ph, c);
    var s' := Schedule(cfg, s, c, now);
    ScheduledSlice(cfg, s, now, ph, c);
    if s.rqs[c].needResched || s.rqs[c].cur.None? {
      var pos := ScheduleShape(cfg, s, c, now);
      forall d | 0 <= d < |s.rqs| && d != c ensures AskedSame(s, s', d) {
        SwitchedKept(cfg, s, s', now, ph, c, pos, d);
        OtherSlice(cfg, s, now, ph, c, d);
      }
      AskedHere(s, s', c);
    } else {
      ScheduleNothing(cfg, s, c, now);
    }
  }

  lemma OtherSlice(cfg: Config, s: Sys, now: int, ph: seq<Phase>, c: nat, d: nat)
    requires SysOk(s, now, ph) && WellFormed(s) && c < |s.rqs| && d < |s.rqs| && c != d && Sliced(cfg.policy)
    ensures var cur := s.rqs[d].cur;
      cur.Some? ==> cur.value < |s.tasks| && Schedule(cfg, s, c, now).tasks[cur.value].slice == s.tasks[cur.value].slice
  {
    hide SysOk, Schedule;
    CurrentHereOk(s, now, ph, c);
    CurrentHereOk(s, now, ph, d);
    if s.rqs[d].cur.Some? { ScheduleSliceOf(cfg, s, c, now, s.rqs[d].cur.value); }
  }

  /** A tick asks for a reschedule exactly when it uses up the slice, unless the task leaves. */
  lemma TickedAsked(cfg: Config, s: Sys, now: int, ph: seq<Phase>, c: nat)
    requires SysOk(s, now, ph) && WellFormed(s) && c < |s.rqs| && ph[c].Start? && cfg.policy.Rr?
    requires SlicesOk(cfg, s, ph) && AskedAt(s, c)
    ensures AskedAt(Tick(cfg, s, c, now), c)
  {
    hide SysOk, TaskOk, Charge, Leave, LeavesIntoCpuPhase, EventsInRange, InsertEvent, End, Tiles, SlicesOk;
    if s.rqs[c].cur.Some? {
      RunningEnd(s, now, ph, c);
      TickedTaskOk(cfg, s.tasks[s.rqs[c].cur.value], c, now);
      TickedSlice(cfg, s.tasks[s.rqs[c].cur.value], c, now);
      SliceLeft(cfg, s, ph, c);
    }
  }

  lemma TickAsked(cfg: Config, s: Sys, now: int, ph: seq<Phase>, c: nat)
    requires SysOk(s, now, ph) && WellFormed(s) && c < |s.rqs| && ph[c].Start? && cfg.policy.Rr?
    requires SlicesOk(cfg, s, ph) && AskedRight(s)
    ensures AskedRight(Tick(cfg, s, c, now))
  {
    assert AskedAt(s, c);
    hide SysOk, TaskOk, Tick, WellFormed, SlicesOk, AskedRight, AskedAt;
    TickedTasks(cfg, s, now, ph, c);
    TickedAsked(cfg, s, now, ph, c);
    var s' := Tick(cfg, s, c, now);
    forall d | 0 <= d < |s.rqs| && d != c ensures AskedSame(s, s', d) {
      CurrentHereOk(s, now, ph, c);
      CurrentHereOk(s, now, ph, d);
    }
    AskedHere(s, s', c);
  }

  lemma FirstPickAsked(cfg: Config, s: Sys, ph: seq<Phase>, c: nat)
    requires SysOk(s, -1, ph) && WellFormed(s) && c < |s.rqs| && ph[c].Fired? && s.rqs[c].cur.None? && SlicesOk(cfg, s, ph) && AskedRight(s)
    ensures AskedRight(FirstPick(s, c))
  {
    assert AskedAt(s, c) && |ph| == |s.rqs|;
    hide EventsInRange, SysOk, SlicesOk, AskedRight;
    var s' := FirstPick(s, c);
    FirstPickSlices(cfg, s, ph, c);
    SliceLeft(cfg, s', ph[c := Done], c);
    forall d | 0 <= d < |s.rqs| && d != c ensures AskedSame(s, s', d) {
      if s.rqs[c].queue != [] { HeadElsewhere(s, ph, c, d); }
    }
    AskedHere(s, s', c);
  }

  lemma NextLbAsked(s: Sys, c: nat, when: int)
    requires AskedRight(s) && c < |s.rqs|
    ensures AskedRight(SetNextLb(s, c, when))
  {
    hide AskedRight;
    var s' := SetNextLb(s, c, when);
    forall d | 0 <= d < |s.rqs| ensures AskedSame(s, s', d) {}
    AskedKept(s, s');
  }

  lemma StepAsked(cfg: Config, r: RState, st: Step)
    requires RInv(r) && Enabled(r, st) && cfg.policy.Rr? && SlicesOk(cfg, r.s, r.ph) && AskedRight(r.s)
    ensures AskedRight(Apply(cfg, r, st).s)
  {
    hide RInv, SysOk, WellFormed, SlicesOk, AskedRight, Tick, Fire, Schedule, FirstPick, Rebalance, Stamp, SetNextLb;
    RunSysOk(r);
    match st
    case FireStep(c) => FireAsked(cfg, r, c);
    case ScheduleStep(c) => ScheduleAsked(cfg, r.s, r.now, r.ph, c);
    case BalanceTrial(c, loads) =>
      RemoteIsNotLocal(loads, c);
      match Choose(loads, c) {
        case PushTo(d) => MoveAsked(cfg, r.s, r.now, r.ph, c, d);
        case PullFrom(d) => MoveAsked(cfg, r.s, r.now, r.ph, d, c);
        case _ =>
      }
    case TickStep(c) => TickAsked(cfg, r.s, r.now, r.ph, c);
    case FirstPickStep(c) =>
      FirstPickBooting(r, c);
      FirstPickAsked(cfg, r.s, r.ph, c);
    case BalanceBegin(c) => NextLbAsked(r.s, c, r.now);
    case BalanceEnd(c) => NextLbAsked(r.s, c, r.s.rqs[c].nextLb + cfg.period);
    case _ =>
  }

  lemma {:induction false} RunAsked(cfg: Config, r: RState, steps: seq<Step>, r': RState)
    requires ConfigOk(cfg) && RInv(r) && cfg.policy.Rr? && SlicesOk(cfg, r.s, r.ph) && AskedRight(r.s) && Reaches(cfg, r, steps, r')
    ensures AskedRight(r'.s)
    decreases |steps|
  {
    hide RInv, AskedRight, SlicesOk, Apply, Enabled;
    if steps != [] {
      StepKeeps(cfg, r, steps[0]);
      StepSlices(cfg, r, steps[0]);
      StepAsked(cfg, r, steps[0]);
      RunAsked(cfg, Apply(cfg, r, steps[0]), steps[1..], r');
    }
  }

  lemma RunFromAsked(cfg: Config, ps: seq<Profile>, n: nat, steps: seq<Step>, r: RState)
    requires RunFrom(cfg, ps, n, steps, r) && cfg.policy.Rr?
    ensures n >= 1 && AskedRight(r.s)
  {
    BootInv(cfg, ps, n);
    BootSlices(cfg, ps, n);
    assert AskedRight(BootSys(cfg, ps, n));
    hide RInv, AskedRight, SlicesOk, Reaches, BootSys;
    RunAsked(cfg, Boot(cfg, ps, n), steps, r);
  }

  /** In every run of RR, with any number of CPUs: `schedule` takes the processor from a task that can go on exactly when it
      has run rr_quantum ticks since it was last enqueued; then the task goes to the end of the queue and the first one runs.
      Otherwise the task goes on. */
  lemma QuantumUsed(cfg: Config, ps: seq<Profile>, n: nat, steps: seq<Step>, r: RState, c: nat)
    requires RunFrom(cfg, ps, n, steps, r) && cfg.policy.Rr? && Enabled(r, ScheduleStep(c)) && Running(r.s.tasks, r.s.rqs[c].cur)
    ensures n >= 1
    ensures var q, q' := r.s.rqs[c], Apply(cfg, r, ScheduleStep(c)).s.rqs[c];
      var used := Used(cfg, Boot(cfg, ps, n), steps, q.cur.value, 0);
      && used <= cfg.rrQuantum
      && (if used == cfg.rrQuantum then q'.cur.Some? && [q'.cur.value] + q'.queue == q.queue + [q.cur.value]
          else q'.cur == q.cur && q'.queue == q.queue)
  {
    var x := r.s.rqs[c].cur.value;
    SameTasks(cfg, ps, n, steps, r);
    SliceCounts(cfg, ps, n, steps, r, x);
    RunningSlice(cfg, ps, n, steps, r, c);
    ScheduleApplied(cfg, r, c);
    if r.s.rqs[c].needResched {
      RrRotates(cfg, ps, n, steps, r, c);
    } else {
      ScheduleNothing(cfg, r.s, c, r.now);
    }
  }

  lemma SameTasks(cfg: Config, ps: seq<Profile>, n: nat, steps: seq<Step>, r: RState)
    requires RunFrom(cfg, ps, n, steps, r)
    ensures |r.s.tasks| == |ps|
  {
    RunInv(cfg, ps, n, steps, r);
  }

  lemma RunningSlice(cfg: Config, ps: seq<Profile>, n: nat, steps: seq<Step>, r: RState, c: nat)
    requires RunFrom(cfg, ps, n, steps, r) && cfg.policy.Rr? && c < |r.s.rqs| && Running(r.s.tasks, r.s.rqs[c].cur)
    ensures 0 <= r.s.tasks[r.s.rqs[c].cur.value].slice
    ensures r.s.rqs[c].needResched <==> r.s.tasks[r.s.rqs[c].cur.value].slice == 0
  {
    RunFromAsked(cfg, ps, n, steps, r);
    assert AskedAt(r.s, c);
    hide AskedRight;
    RunFromSlices(cfg, ps, n, steps, r);
    assert CpuSlices(cfg, r.s.tasks, r.s.rqs[c], r.ph[c]);
  }

  lemma RunFromSlices(cfg: Config, ps: seq<Profile>, n: nat, steps: seq<Step>, r: RState)
    requires RunFrom(cfg, ps, n, steps, r) && Sliced(cfg.policy)
    ensures SlicesOk(cfg, r.s, r.ph)
  {
    BootInv(cfg, ps, n);
    BootSlices(cfg, ps, n);
    hide RInv, SlicesOk, Reaches, BootSys;
    RunSlices(cfg, Boot(cfg, ps, n), steps, r);
  }
}
