/** Round-robin on one CPU: how long a ready task waits. */
module SchedRoundRobin {
  import opened Basics
  import opened SchedTypes
  import opened SchedSteps
  import opened SchedClocks
  import opened SchedInvariant
  import opened SchedKeeps
  import opened SchedTheorems
  import opened SchedOneCpu
  import opened SchedSlices

  /** x is on the queue with k tasks ahead of it. */
  predicate Waiting(s: Sys, x: nat, k: nat)
    requires |s.rqs| == 1
  {
    k < |s.rqs[0].queue| && s.rqs[0].queue[k] == x
  }

  function CurSlice(s: Sys): int
    requires WellFormed(s) && |s.rqs| == 1 && s.rqs[0].cur.Some?
  {
    s.tasks[s.rqs[0].cur.value].slice
  }

  ghost predicate RrOk(cfg: Config, s: Sys, now: int) {
    cfg.policy.Rr? && |s.rqs| == 1 && SoloOk(s, now) && WellFormed(s) && SlicesOk(cfg, s, [Start])
  }

  lemma RrEnqueue(cfg: Config, s: Sys, x: nat)
    requires cfg.policy.Rr? && WellFormed(s) && |s.rqs| == 1 && x < |s.tasks| && !s.tasks[x].onRq
    ensures var s' := DoEnqueue(cfg, s, x, 0, false); var q := s.rqs[0];
      && s'.rqs[0] == q.(queue := q.queue + [x], nrRunnable := q.nrRunnable + 1)
      && forall y :: 0 <= y < |s.tasks| && y != x ==> s'.tasks[y] == s.tasks[y]
  {
    hide EventsInRange;
  }

  /** Round-robin events only append to the queue. */
  lemma RrFire(cfg: Config, s: Sys, now: int, ph: seq<Phase>)
    requires cfg.policy.Rr? && SysOk(s, now, ph) && WellFormed(s) && |s.rqs| == 1 && HasDue(s, 0, now + 1)
    ensures var s' := Fire(cfg, s, 0, now + 1);
      && s.rqs[0].queue <= s'.rqs[0].queue
      && s'.rqs[0].cur == s.rqs[0].cur && s'.rqs[0].needResched == s.rqs[0].needResched
      && (Running(s.tasks, s.rqs[0].cur) ==> CurSlice(s') == CurSlice(s) && Running(s'.tasks, s'.rqs[0].cur))
  {
    hide DoEnqueue, QueueOk, Placed, Tiles, LogEnd, Logged, Work, EventsInRange;
    var e := s.events[0][0];
    var x := e.task;
    var t := s.tasks[x];
    assert CpuOk(s.tasks, s.rqs[0], s.events[0], 0, now, ph[0]);
    assert EventOk(t, e, 0) && TaskOk(t);
    var k := if e.kind.NewTask? then 0 else t.curPhase + 1;
    if k < |t.phases| {
      WokenOk(t, now + 1, k);
      FireIsEnqueue(cfg, s, 0, now + 1, k);
      RrEnqueue(cfg, s.(events := s.events[0 := s.events[0][1..]], tasks := s.tasks[x := Woken(t, k, now + 1)]), x);
    }
  }

  lemma {:induction false} RrFireAll(cfg: Config, s: Sys, now: int, ph: seq<Phase>)
    requires cfg.policy.Rr? && SysOk(s, now, ph) && WellFormed(s) && |s.rqs| == 1 && SlicesOk(cfg, s, ph)
    ensures var s' := FireAll(cfg, s, 0, now + 1);
      && SlicesOk(cfg, s', ph)
      && s.rqs[0].queue <= s'.rqs[0].queue
      && s'.rqs[0].cur == s.rqs[0].cur && s'.rqs[0].needResched == s.rqs[0].needResched
      && (Running(s.tasks, s.rqs[0].cur) ==> CurSlice(s') == CurSlice(s) && Running(s'.tasks, s'.rqs[0].cur))
    decreases |s.events[0]|
  {
    hide Fire, SysOk, SlicesOk, Running;
    if HasDue(s, 0, now + 1) && !s.aborted {
      var s1 := Fire(cfg, s, 0, now + 1);
      FireKeeps(cfg, s, now, ph, 0);
      FireSlices(cfg, s, now, ph, 0);
      RrFire(cfg, s, now, ph);
      FireShrinks(cfg, s, 0, now + 1);
      RrFireAll(cfg, s1, now, ph);
    }
  }

  lemma RrTick(cfg: Config, s: Sys, now: int)
    requires RrOk(cfg, s, now) && s.rqs[0].cur.Some?
    ensures var s1 := Tick(cfg, s, 0, now);
      && |s1.rqs| == 1 && s1.rqs[0].queue == s.rqs[0].queue && s1.rqs[0].cur == s.rqs[0].cur
      && CurSlice(s1) == CurSlice(s) - 1 && 1 <= CurSlice(s)
      && (!s1.rqs[0].needResched ==> Running(s1.tasks, s1.rqs[0].cur))
  {
    hide TaskOk, Charge, Leave, LeavesIntoCpuPhase, EventsInRange, InsertEvent, EventsOk, QueueOk, Placed, End;
    assert CpuOk(s.tasks, s.rqs[0], s.events[0], 0, now, Start);
    assert CpuSlices(cfg, s.tasks, s.rqs[0], Start);
    var x := s.rqs[0].cur.value;
    assert TaskOk(s.tasks[x]);
    TickedTaskOk(cfg, s.tasks[x], 0, now);
    TickedSlice(cfg, s.tasks[x], 0, now);
  }

  /** With needResched set, the head of the queue runs next and every other queued task moves up one place. */
  lemma RrSchedule(cfg: Config, s: Sys, now: int, ph: seq<Phase>, x: nat, k: nat)
    requires cfg.policy.Rr? && SysOk(s, now, ph) && WellFormed(s) && |s.rqs| == 1 && EventsDone(ph[0])
    requires s.rqs[0].needResched && Waiting(s, x, k)
    ensures var s' := Schedule(cfg, s, 0, now);
      if k == 0 then s'.rqs[0].cur == Some(x) else Waiting(s', x, k - 1) && s'.rqs[0].cur.Some?
  {
    hide Requeue, PickNext, Switch, TaskOk, EventsOk, Placed, End, Schedule, EventsInRange, SwitchIn;
    assert CpuOk(s.tasks, s.rqs[0], s.events[0], 0, now, ph[0]);
    var pos := ScheduleShape(cfg, s, 0, now);
    var from := PickFrom(s, 0, pos);
    assert s.rqs[0].queue <= from;
    assert from[k] == x;
  }

  lemma RrStages(cfg: Config, s: Sys, now: int) returns (s1: Sys, s2: Sys, s3: Sys)
    requires RrOk(cfg, s, now) && s.rqs[0].cur.Some?
    ensures s1 == Tick(cfg, s, 0, now) && WellFormed(s1) && |s1.rqs| == 1
    ensures s2 == FireAll(cfg, s1, 0, now + 1) && WellFormed(s2) && |s2.rqs| == 1
    ensures s3 == SoloBalance(s2, now) && WellFormed(s3) && |s3.rqs| == 1 && s3.tasks == s2.tasks
    ensures SysOk(s3, now, [Fired]) && SlicesOk(cfg, s3, [Fired])
    ensures s.rqs[0].queue <= s3.rqs[0].queue && s3.rqs[0].cur == s.rqs[0].cur
    ensures !s3.rqs[0].needResched ==> CurSlice(s3) == CurSlice(s) - 1
    ensures 1 <= CurSlice(s)
  {
    hide SysOk, SlicesOk, WellFormed, Tick, FireAll, WorkConserving, SameLeft;
    RrTick(cfg, s, now);
    var b1, b2, b3 := RoundStages(cfg, s, now);
    s1, s2, s3 := b1, b2, b3;
    TickKeeps(cfg, s, now, [Start], 0);
    TickSlices(cfg, s, now, [Start], 0);
    assert [Start][0 := Ticked] == [Ticked];
    RrFireAll(cfg, s1, now, [Ticked]);
    SlicesPhase(cfg, s2, s3, [Ticked], 0, Fired);
    assert [Ticked][0 := Fired] == [Fired];
  }

  lemma RunningAtStart(s: Sys, now: int)
    requires SoloOk(s, now)
    ensures s.rqs[0].cur.Some? ==> Running(s.tasks, s.rqs[0].cur)
    ensures s.rqs[0].queue != [] ==> s.rqs[0].cur.Some?
  {
    assert CpuOk(s.tasks, s.rqs[0], s.events[0], 0, now, Start);
  }

  lemma CurSlicePositive(cfg: Config, s: Sys, now: int, k: nat)
    requires RrOk(cfg, s, now) && s.rqs[0].cur.Some?
    ensures 1 <= CurSlice(s) <= cfg.rrQuantum && k * cfg.rrQuantum + CurSlice(s) >= 1
    ensures k * cfg.rrQuantum + CurSlice(s) <= (k + 1) * cfg.rrQuantum
  {
    RunningAtStart(s, now);
    assert CpuSlices(cfg, s.tasks, s.rqs[0], Start);
  }

  lemma RrRoundOk(cfg: Config, s: Sys, now: int)
    requires RrOk(cfg, s, now)
    ensures RrOk(cfg, Round(cfg, s, now), now + 1)
  {
    hide SysOk, WellFormed, SlicesOk, Tick, FireAll, SoloBalance, Schedule, WorkConserving, Progressed, SameLeft;
    RoundKeeps(cfg, s, now);
    var s1, s2, s3 := RoundStages(cfg, s, now);
    TickKeeps(cfg, s, now, [Start], 0);
    TickSlices(cfg, s, now, [Start], 0);
    assert [Start][0 := Ticked] == [Ticked];
    RrFireAll(cfg, s1, now, [Ticked]);
    SoloSlices(cfg, s2, now);
    ScheduleSlices(cfg, s3, now, [Fired], 0);
    assert [Fired][0 := Done] == [Done];
    NextRoundSlices(cfg, Schedule(cfg, s3, 0, now), [Done]);
    assert seq(1, _ => Start) == [Start];
  }

  lemma SoloSlices(cfg: Config, s: Sys, now: int)
    requires SlicesOk(cfg, s, [Ticked]) && WellFormed(s) && |s.rqs| == 1
    ensures SlicesOk(cfg, SoloBalance(s, now), [Fired])
  {
    SlicesPhase(cfg, s, SoloBalance(s, now), [Ticked], 0, Fired);
    assert [Ticked][0 := Fired] == [Fired];
  }

  /** One round brings a waiting task closer to the processor, in ticks. */
  lemma RrRound(cfg: Config, s: Sys, now: int, x: nat, k: nat) returns (k': nat)
    requires RrOk(cfg, s, now) && s.rqs[0].cur.Some? && Waiting(s, x, k)
    ensures var s' := Round(cfg, s, now);
      && RrOk(cfg, s', now + 1)
      && s'.rqs[0].cur.Some?
      && (s'.rqs[0].cur == Some(x)
          || (Waiting(s', x, k') && k' * cfg.rrQuantum + CurSlice(s') < k * cfg.rrQuantum + CurSlice(s)))
  {
    RrRoundOk(cfg, s, now);
    RunningAtStart(s, now);
    hide SysOk, SlicesOk, WellFormed, Tick, FireAll, SoloBalance, Schedule, WorkConserving;
    var s1, s2, s3 := RrStages(cfg, s, now);
    assert s3.rqs[0].queue[k] == x;
    if s3.rqs[0].needResched {
      RrSchedule(cfg, s3, now, [Fired], x, k);
      k' := if k == 0 then 0 else k - 1;
      CurSlicePositive(cfg, Round(cfg, s, now), now + 1, k');
      OneTurn(cfg.rrQuantum, k);
    } else {
      ScheduleNothing(cfg, s3, 0, now);
      k' := k;
    }
  }

  lemma OneTurn(quantum: int, k: nat)
    ensures k >= 1 ==> (k - 1) * quantum + quantum == k * quantum
  {
  }

  lemma {:induction false} RrDispatch(cfg: Config, s: Sys, now: nat, x: nat, k: nat, budget: nat) returns (j: nat)
    requires RrOk(cfg, s, now) && s.rqs[0].cur.Some? && Waiting(s, x, k)
    requires k * cfg.rrQuantum + CurSlice(s) <= budget
    ensures 1 <= j <= budget && Rounds(cfg, s, now, j).rqs[0].cur == Some(x)
    decreases budget
  {
    hide SoloOk, SlicesOk, Round, Rounds, WellFormed;
    var k' := RrRound(cfg, s, now, x, k);
    CurSlicePositive(cfg, s, now, k);
    var s' := Round(cfg, s, now);
    if s'.rqs[0].cur == Some(x) {
      j := 1;
      RoundsFirst(cfg, s, now, 0);
      RoundsNone(cfg, s', now + 1);
    } else {
      var i := RrDispatch(cfg, s', now + 1, x, k', budget - 1);
      RoundsFirst(cfg, s, now, i);
      j := i + 1;
    }
  }

  lemma RoundsNone(cfg: Config, s: Sys, now: int)
    requires WellFormed(s) && |s.rqs| == 1
    ensures Rounds(cfg, s, now, 0) == s
  {
  }

  lemma {:induction false} RoundsFirst(cfg: Config, s: Sys, now: int, i: nat)
    requires WellFormed(s) && |s.rqs| == 1
    ensures Rounds(cfg, s, now, i + 1) == Rounds(cfg, Round(cfg, s, now), now + 1, i)
  {
    hide Round;
    if i > 0 { RoundsFirst(cfg, s, now, i - 1); }
  }

  lemma {:induction false} RoundsSplit(cfg: Config, s: Sys, m: nat, j: nat)
    requires WellFormed(s) && |s.rqs| == 1
    ensures Rounds(cfg, Rounds(cfg, s, 0, m), m, j) == Rounds(cfg, s, 0, m + j)
  {
    hide Round;
    if j > 0 { RoundsSplit(cfg, s, m, j - 1); }
  }

  lemma {:induction false} RrReached(cfg: Config, ps: seq<Profile>, m: nat)
    requires ProfilesOk(ps) && ConfigOk(cfg) && cfg.policy.Rr?
    ensures RrOk(cfg, Rounds(cfg, Started(cfg, ps), 0, m), m)
  {
    hide *;
    RrStarted(cfg, ps);
    if m > 0 {
      RrReached(cfg, ps, m - 1);
      RrRoundOk(cfg, Rounds(cfg, Started(cfg, ps), 0, m - 1), m - 1);
      RoundsStep(cfg, Started(cfg, ps), m);
    }
    RoundsZero(cfg, Started(cfg, ps));
  }

  lemma RoundsStep(cfg: Config, s: Sys, m: nat)
    requires WellFormed(s) && |s.rqs| == 1 && m > 0
    ensures Rounds(cfg, s, 0, m) == Round(cfg, Rounds(cfg, s, 0, m - 1), m - 1)
  {
  }

  lemma RoundsZero(cfg: Config, s: Sys)
    requires WellFormed(s) && |s.rqs| == 1
    ensures Rounds(cfg, s, 0, 0) == s
  {
  }

  lemma RrStarted(cfg: Config, ps: seq<Profile>)
    requires ProfilesOk(ps) && ConfigOk(cfg) && cfg.policy.Rr?
    ensures RrOk(cfg, Started(cfg, ps), 0)
  {
    hide SysOk, WellFormed, FireAll, FirstPick, BootSys, SlicesOk, WorkLeft, TotalWork, SameLeft;
    StartedOk(cfg, ps);
    var s, s1 := StartedStages(cfg, ps);
    BootSolo(cfg, ps);
    BootSlices(cfg, ps, 1);
    assert Boot(cfg, ps, 1).ph == [Ticked];
    RrFireAll(cfg, s, -1, [Ticked]);
    SlicesPhase(cfg, s1, s1, [Ticked], 0, Fired);
    assert [Ticked][0 := Fired] == [Fired];
    FirstPickSlices(cfg, s1, [Fired], 0);
    assert [Fired][0 := Done] == [Done];
    NextRoundSlices(cfg, FirstPick(s1, 0), [Done]);
    assert seq(1, _ => Start) == [Start];
  }

  /** The starvation bound: at any step m of a run on one CPU, a task with k tasks ahead of it on the queue is
      dispatched within (k + 1) * rr_quantum ticks. */
  lemma StarvationBound(cfg: Config, ps: seq<Profile>, m: nat, x: nat, k: nat) returns (j: nat)
    requires ProfilesOk(ps) && ConfigOk(cfg) && cfg.policy.Rr?
    requires Waiting(Rounds(cfg, Started(cfg, ps), 0, m), x, k)
    ensures 1 <= j <= (k + 1) * cfg.rrQuantum
    ensures Rounds(cfg, Started(cfg, ps), 0, m + j).rqs[0].cur == Some(x)
  {
    RrReached(cfg, ps, m);
    var s := Rounds(cfg, Started(cfg, ps), 0, m);
    RunningAtStart(s, m);
    hide Rounds, Started, SoloOk, SlicesOk;
    CurSlicePositive(cfg, s, m, k);
    j := RrDispatch(cfg, s, m, x, k, (k + 1) * cfg.rrQuantum);
    RoundsSplit(cfg, Started(cfg, ps), m, j);
  }
}
