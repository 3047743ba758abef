/** Time slices of the round-robin and quantum classes, and the starvation bound of round-robin. */
module SchedSlices {
  import opened Basics
  import opened SchedTypes
  import opened SchedSteps
  import opened SchedClocks
  import opened SchedInvariant
  import opened SchedKeeps
  import opened SchedBalance
  import opened SchedRuns
  import opened SchedTheorems
  import opened Sequences

  /** Queued tasks have a full slice; the running one has between 1 and a full slice left when a step begins and
      after `schedule`, and a used-up slice has asked for a reschedule. */
  ghost predicate CpuSlices(cfg: Config, tasks: seq<Task>, q: Rq, ph: Phase) {
    && (forall i :: 0 <= i < |q.queue| ==> q.queue[i] < |tasks| && tasks[q.queue[i]].slice == Quantum(cfg))
    && (Running(tasks, q.cur) ==>
          && 0 <= tasks[q.cur.value].slice <= Quantum(cfg)
          && (tasks[q.cur.value].slice == 0 ==> q.needResched && !ph.Start? && !ph.Done?))
  }

  ghost predicate SlicesOk(cfg: Config, s: Sys, ph: seq<Phase>) {
    && Sliced(cfg.policy) && ConfigOk(cfg) && |ph| == |s.rqs|
    && forall c :: 0 <= c < |s.rqs| ==> CpuSlices(cfg, s.tasks, s.rqs[c], ph[c])
  }

  lemma EnqueueSlices(cfg: Config, s: Sys, x: nat, c: nat, runnable: bool)
    requires WellFormed(s) && x < |s.tasks| && c < |s.rqs| && !s.tasks[x].onRq && Sliced(cfg.policy)
    ensures var r := DoEnqueue(cfg, s, x, c, runnable);
      && r.tasks[x].slice == Quantum(cfg)
      && (forall y :: 0 <= y < |s.tasks| && y != x ==> r.tasks[y].slice == s.tasks[y].slice)
  {
    hide EventsInRange, QueuePos, QueueKeys;
  }

  lemma SlicesFrame(cfg: Config, tasks: seq<Task>, tasks': seq<Task>, q: Rq, ph: Phase, x: nat)
    requires CpuSlices(cfg, tasks, q, ph) && |tasks'| == |tasks|
    requires forall y :: 0 <= y < |tasks| && y != x ==> tasks'[y].slice == tasks[y].slice && tasks'[y].state == tasks[y].state
    requires x !in q.queue && (q.cur == Some(x) ==> x < |tasks| && tasks'[x].state != OnProc)
    ensures CpuSlices(cfg, tasks', q, ph)
  {
  }

  lemma SlicesEnqueued(cfg: Config, tasks: seq<Task>, tasks': seq<Task>, q: Rq, q': Rq, ph: Phase, x: nat, pos: nat)
    requires CpuSlices(cfg, tasks, q, ph) && x < |tasks| == |tasks'| && pos <= |q.queue|
    requires forall y :: 0 <= y < |tasks| && y != x ==> tasks'[y].slice == tasks[y].slice && tasks'[y].state == tasks[y].state
    requires tasks'[x].slice == Quantum(cfg) && tasks'[x].state != OnProc
    requires q'.queue == InsertAt(q.queue, pos, x) && q'.cur == q.cur && (q.needResched ==> q'.needResched)
    ensures CpuSlices(cfg, tasks', q', ph)
  {
    var r := q'.queue;
    forall i | 0 <= i < |r| ensures r[i] < |tasks| && tasks'[r[i]].slice == Quantum(cfg) {
      if i != pos { assert r[i] == q.queue[if i < pos then i else i - 1]; }
    }
  }

  // ---------------------------------------------------------------- every section keeps the slices

  lemma TickedSlice(cfg: Config, t: Task, c: nat, now: int)
    ensures TickedTask(cfg, t, c, now).slice == t.slice - (if Sliced(cfg.policy) then 1 else 0)
    ensures Charge(cfg, t, c, now).slice == t.slice - (if Sliced(cfg.policy) then 1 else 0)
  {
    hide AddLog;
  }

  lemma NotElsewhere(s: Sys, now: int, ph: seq<Phase>, x: nat, d: nat)
    requires SysOk(s, now, ph) && x < |s.tasks| && d < |s.rqs| && s.tasks[x].lastCpu != d
    ensures x !in s.rqs[d].queue && s.rqs[d].cur != Some(x)
  {
    hide TaskOk, EventsOk, Placed;
    assert CpuOk(s.tasks, s.rqs[d], s.events[d], d, now, ph[d]);
    assert forall i :: 0 <= i < |s.rqs[d].queue| ==> QueuedOk(s.tasks[s.rqs[d].queue[i]], d, now);
  }

  lemma TickSlices(cfg: Config, s: Sys, now: int, ph: seq<Phase>, c: nat)
    requires SysOk(s, now, ph) && WellFormed(s) && c < |s.rqs| && ph[c].Start? && SlicesOk(cfg, s, ph)
    ensures SlicesOk(cfg, Tick(cfg, s, c, now), ph[c := Ticked])
  {
    hide TaskOk, Charge, Leave, LeavesIntoCpuPhase, EventsInRange, InsertEvent, EventsOk, Placed, End;
    var q := s.rqs[c];
    var s' := Tick(cfg, s, c, now);
    assert CpuOk(s.tasks, q, s.events[c], c, now, ph[c]);
    assert CpuSlices(cfg, s.tasks, q, ph[c]);
    if q.cur.Some? {
      var x := q.cur.value;
      TickedTaskOk(cfg, s.tasks[x], c, now);
      TickedSlice(cfg, s.tasks[x], c, now);
      assert s'.tasks == s.tasks[x := TickedTask(cfg, s.tasks[x], c, now)];
      assert x !in q.queue;
      assert CpuSlices(cfg, s'.tasks, s'.rqs[c], Ticked);
      forall d | 0 <= d < |s.rqs| && d != c ensures CpuSlices(cfg, s'.tasks, s'.rqs[d], ph[d]) {
        assert s'.rqs[d] == s.rqs[d];
        NotElsewhere(s, now, ph, x, d);
        assert CpuSlices(cfg, s.tasks, s.rqs[d], ph[d]);
      }
    }
  }

  /** A woken task is enqueued on c. */
  lemma WokenSlices(cfg: Config, s: Sys, s1: Sys, ph: seq<Phase>, c: nat, x: nat)
    requires WellFormed(s1) && SlicesOk(cfg, s, ph) && c < |s.rqs| && x < |s.tasks| == |s1.tasks|
    requires s1.rqs == s.rqs && s1.tasks == s.tasks[x := s1.tasks[x]] && !s1.tasks[x].onRq && s1.tasks[x].state == Runnable
    requires forall d :: 0 <= d < |s.rqs| ==> x !in s.rqs[d].queue
    ensures SlicesOk(cfg, DoEnqueue(cfg, s1, x, c, false), ph)
  {
    hide DoEnqueue, EventsInRange;
    var s' := DoEnqueue(cfg, s1, x, c, false);
    var pos := DoEnqueueShape(cfg, s1, x, c, false);
    EnqueueSlices(cfg, s1, x, c, false);
    forall d | 0 <= d < |s.rqs| ensures CpuSlices(cfg, s'.tasks, s'.rqs[d], ph[d]) {
      assert CpuSlices(cfg, s.tasks, s.rqs[d], ph[d]);
      if d == c {
        SlicesEnqueued(cfg, s.tasks, s'.tasks, s.rqs[c], s'.rqs[c], ph[c], x, pos);
      } else {
        SlicesFrame(cfg, s.tasks, s'.tasks, s.rqs[d], ph[d], x);
      }
    }
  }

  lemma FireSlices(cfg: Config, s: Sys, now: int, ph: seq<Phase>, c: nat)
    requires SysOk(s, now, ph) && WellFormed(s) && c < |s.rqs| && HasDue(s, c, now + 1) && SlicesOk(cfg, s, ph)
    ensures SlicesOk(cfg, Fire(cfg, s, c, now + 1), ph)
  {
    hide DoEnqueue, QueueOk, Placed, Tiles, LogEnd, Logged, Work, EventsInRange, CpuSlices;
    var e := s.events[c][0];
    var x := e.task;
    var t := s.tasks[x];
    assert CpuOk(s.tasks, s.rqs[c], s.events[c], c, now, ph[c]);
    assert EventOk(t, e, c) && TaskOk(t);
    forall d | 0 <= d < |s.rqs| ensures x !in s.rqs[d].queue {
      NotQueued(s, now, ph, x, d);
    }
    var k := if e.kind.NewTask? then 0 else t.curPhase + 1;
    var s' := Fire(cfg, s, c, now + 1);
    if k < |t.phases| {
      WokenOk(t, now + 1, k);
      FireIsEnqueue(cfg, s, c, now + 1, k);
      var s1 := s.(events := s.events[c := s.events[c][1..]], tasks := s.tasks[x := Woken(t, k, now + 1)]);
      WokenSlices(cfg, s, s1, ph, c, x);
    } else {
      assert s'.tasks == s.tasks[x := t.(curPhase := t.curPhase + 1, state := Completed)] && s'.rqs == s.rqs;
      forall d | 0 <= d < |s.rqs| ensures CpuSlices(cfg, s'.tasks, s'.rqs[d], ph[d]) {
        SlicesFrame(cfg, s.tasks, s'.tasks, s.rqs[d], ph[d], x);
      }
    }
  }

  lemma NotQueued(s: Sys, now: int, ph: seq<Phase>, x: nat, d: nat)
    requires SysOk(s, now, ph) && x < |s.tasks| && d < |s.rqs| && s.tasks[x].state != Runnable
    ensures x !in s.rqs[d].queue
  {
    hide TaskOk, EventsOk, Placed;
    assert CpuOk(s.tasks, s.rqs[d], s.events[d], d, now, ph[d]);
    assert forall i :: 0 <= i < |s.rqs[d].queue| ==> QueuedOk(s.tasks[s.rqs[d].queue[i]], d, now);
  }

  lemma StolenSlices(cfg: Config, s: Sys, now: int, ph: seq<Phase>, src: nat, x: nat)
    requires SysOk(s, now, ph) && WellFormed(s) && src < |s.rqs| && SlicesOk(cfg, s, ph)
    requires s.rqs[src].queue != [] && x == s.rqs[src].queue[|s.rqs[src].queue| - 1]
    ensures x < |s.tasks| && s.tasks[x].state == Runnable
    ensures var q := s.rqs[src];
      var s1 := s.(rqs := s.rqs[src := q.(queue := q.queue[..|q.queue| - 1], nrRunnable := q.nrRunnable - 1)]);
      SlicesOk(cfg, s1, ph) && forall d :: 0 <= d < |s.rqs| ==> x !in s1.rqs[d].queue
  {
    hide TaskOk, EventsOk, Placed, EventsInRange, WellFormed, End;
    var q := s.rqs[src];
    assert CpuOk(s.tasks, q, s.events[src], src, now, ph[src]);
    assert CpuSlices(cfg, s.tasks, q, ph[src]);
    assert QueuedOk(s.tasks[x], src, now);
    forall d | 0 <= d < |s.rqs| && d != src ensures x !in s.rqs[d].queue {
      NotElsewhere(s, now, ph, x, d);
    }
  }

  lemma MoveSlices(cfg: Config, s: Sys, now: int, ph: seq<Phase>, src: nat, dst: nat)
    requires SysOk(s, now, ph) && WellFormed(s) && src < |s.rqs| && dst < |s.rqs| && src != dst && SlicesOk(cfg, s, ph)
    ensures SlicesOk(cfg, Rebalance(cfg, s, src, dst, now), ph)
  {
    hide TaskOk, QueuedOk, SysOk, SlicesOk, DoEnqueue, Migrated, EventsInRange;
    if s.rqs[src].nrRunnable - s.rqs[dst].nrRunnable > 1 {
      var x := StealFinds(s, now, ph, src, dst);
      StolenSlices(cfg, s, now, ph, src, x);
      var q := s.rqs[src];
      var s0 := s.(rqs := s.rqs[src := q.(queue := q.queue[..|q.queue| - 1], nrRunnable := q.nrRunnable - 1)]);
      var s1 := s0.(tasks := s.tasks[x := s.tasks[x].(onRq := false)]);
      assert WellFormed(s1);
      WokenSlices(cfg, s0, s1, ph, dst, x);
      MigratedSlices(cfg, DoEnqueue(cfg, s1, x, dst, false), ph, x, src, now);
    }
  }

  lemma MigratedSlices(cfg: Config, s: Sys, ph: seq<Phase>, x: nat, src: nat, now: int)
    requires SlicesOk(cfg, s, ph) && x < |s.tasks|
    ensures SlicesOk(cfg, s.(tasks := s.tasks[x := Migrated(s.tasks[x], src, now)]), ph)
  {
    hide AddLog;
    var tasks' := s.tasks[x := Migrated(s.tasks[x], src, now)];
    forall d | 0 <= d < |s.rqs| ensures CpuSlices(cfg, tasks', s.rqs[d], ph[d]) {
      assert CpuSlices(cfg, s.tasks, s.rqs[d], ph[d]);
    }
  }

  /** `schedule` refills the slice of a preempted task and no other. */
  lemma ScheduleSliceOf(cfg: Config, s: Sys, c: nat, now: int, y: nat)
    requires WellFormed(s) && c < |s.rqs| && y < |s.tasks| && Sliced(cfg.policy)
    requires Running(s.tasks, s.rqs[c].cur) ==> !s.tasks[s.rqs[c].cur.value].onRq
    ensures var q := s.rqs[c];
      Schedule(cfg, s, c, now).tasks[y].slice
      == if q.needResched && Running(s.tasks, q.cur) && q.cur == Some(y) then Quantum(cfg) else s.tasks[y].slice
  {
    hide DoEnqueue, EventsInRange, AddLog;
    var q := s.rqs[c];
    if Running(s.tasks, q.cur) { EnqueueSlices(cfg, s, q.cur.value, c, true); }
  }

  lemma ScheduleSlices(cfg: Config, s: Sys, now: int, ph: seq<Phase>, c: nat)
    requires SysOk(s, now, ph) && WellFormed(s) && c < |s.rqs| && EventsDone(ph[c]) && SlicesOk(cfg, s, ph)
    ensures SlicesOk(cfg, Schedule(cfg, s, c, now), ph[c := Done])
  {
    hide Requeue, PickNext, Switch, TaskOk, EventsOk, Placed, End, Schedule, EventsInRange, SwitchIn;
    var q := s.rqs[c];
    var s' := Schedule(cfg, s, c, now);
    assert CpuOk(s.tasks, q, s.events[c], c, now, ph[c]);
    assert CpuSlices(cfg, s.tasks, q, ph[c]);
    forall y | 0 <= y < |s.tasks|
      ensures s'.tasks[y].slice == if q.needResched && Running(s.tasks, q.cur) && q.cur == Some(y) then Quantum(cfg) else s.tasks[y].slice
    {
      ScheduleSliceOf(cfg, s, c, now, y);
    }
    if q.needResched || q.cur.None? {
      var pos := ScheduleShape(cfg, s, c, now);
      SwitchedSlices(cfg, s, s', now, ph, c, pos);
    } else {
      ScheduleNothing(cfg, s, c, now);
      assert CpuSlices(cfg, s'.tasks, s'.rqs[c], Done);
    }
  }

  lemma ScheduleNothing(cfg: Config, s: Sys, c: nat, now: int)
    requires WellFormed(s) && c < |s.rqs| && !s.rqs[c].needResched && s.rqs[c].cur.Some?
    ensures Schedule(cfg, s, c, now) == s
  {
    assert s.rqs[c := s.rqs[c]] == s.rqs;
  }

  lemma SwitchedSlices(cfg: Config, s: Sys, s': Sys, now: int, ph: seq<Phase>, c: nat, pos: nat)
    requires SysOk(s, now, ph) && c < |s.rqs| && EventsDone(ph[c]) && SlicesOk(cfg, s, ph) && |s'.tasks| == |s.tasks|
    requires s.rqs[c].needResched || s.rqs[c].cur.None?
    requires SwitchedTo(s, s', c, now, pos)
    requires forall y :: 0 <= y < |s.tasks| ==>
      s'.tasks[y].slice == if s.rqs[c].needResched && Running(s.tasks, s.rqs[c].cur) && s.rqs[c].cur == Some(y)
                           then Quantum(cfg) else s.tasks[y].slice
    ensures SlicesOk(cfg, s', ph[c := Done])
  {
    hide TaskOk, EventsOk, End, SwitchIn, CpuOk, CpuSlices, PickFrom, SwitchedTasks;
    SwitchedHere(cfg, s, s', now, ph, c, pos);
    forall d | 0 <= d < |s.rqs| && d != c ensures CpuSlices(cfg, s'.tasks, s.rqs[d], ph[d]) {
      assert CpuSlices(cfg, s.tasks, s.rqs[d], ph[d]);
      SwitchedElsewhere(cfg, s, s', now, ph, c, pos, d);
      SlicesElsewhere(cfg, s.tasks, s'.tasks, s.rqs[d], d, c, ph[d], s.rqs[c].cur);
    }
  }

  lemma SlicesElsewhere(cfg: Config, tasks: seq<Task>, tasks': seq<Task>, q: Rq, d: nat, c: nat, ph: Phase, cur: Option<nat>)
    requires CpuSlices(cfg, tasks, q, ph) && |tasks'| == |tasks| && c != d
    requires forall y :: 0 <= y < |tasks| && tasks[y].lastCpu == d ==> SameCore(tasks[y], tasks'[y])
    requires forall y :: 0 <= y < |tasks| && cur != Some(y) ==> tasks'[y].slice == tasks[y].slice
    requires cur.Some? && cur.value < |tasks| ==> tasks[cur.value].lastCpu == c
    requires forall i :: 0 <= i < |q.queue| ==> q.queue[i] < |tasks| && tasks[q.queue[i]].lastCpu == d
    requires q.cur.Some? ==> q.cur.value < |tasks| && tasks[q.cur.value].lastCpu == d
    ensures CpuSlices(cfg, tasks', q, ph)
  {
  }

  lemma SwitchedHere(cfg: Config, s: Sys, s': Sys, now: int, ph: seq<Phase>, c: nat, pos: nat)
    requires SysOk(s, now, ph) && c < |s.rqs| && EventsDone(ph[c]) && SlicesOk(cfg, s, ph) && |s'.tasks| == |s.tasks|
    requires s.rqs[c].needResched || s.rqs[c].cur.None?
    requires SwitchedTo(s, s', c, now, pos)
    requires forall y :: 0 <= y < |s.tasks| ==>
      s'.tasks[y].slice == if s.rqs[c].needResched && Running(s.tasks, s.rqs[c].cur) && s.rqs[c].cur == Some(y)
                           then Quantum(cfg) else s.tasks[y].slice
    ensures CpuSlices(cfg, s'.tasks, s'.rqs[c], Done)
    ensures s.rqs[c].cur.Some? ==> s.rqs[c].cur.value < |s.tasks| && s.tasks[s.rqs[c].cur.value].lastCpu == c
  {
    hide TaskOk, EventsOk, End, SwitchIn, QueueOk, CurrentOk, SwitchedTasks;
    var q := s.rqs[c];
    var from := PickFrom(s, c, pos);
    assert CpuOk(s.tasks, q, s.events[c], c, now, ph[c]);
    FromTasks(s.tasks, q, s.events[c], c, now, ph[c], from, pos);
    FromSlices(cfg, s, s', now, ph, c, pos);
    SlicesAhead(cfg, s'.tasks, from, s'.rqs[c]);
    if q.cur.Some? { CurrentHere(s.tasks[q.cur.value], q, c, now, ph[c]); }
  }

  lemma CurrentHere(t: Task, q: Rq, c: nat, now: int, ph: Phase)
    requires CurrentOk(t, q, c, now, ph)
    ensures t.lastCpu == c
  {
  }

  /** Every task that can be picked has a whole slice. */
  lemma FromSlices(cfg: Config, s: Sys, s': Sys, now: int, ph: seq<Phase>, c: nat, pos: nat)
    requires c < |s.rqs| && c < |ph| && c < |s.events| && CpuOk(s.tasks, s.rqs[c], s.events[c], c, now, ph[c]) && |s'.tasks| == |s.tasks|
    requires CpuSlices(cfg, s.tasks, s.rqs[c], ph[c]) && pos <= |s.rqs[c].queue|
    requires s.rqs[c].needResched || s.rqs[c].cur.None?
    requires forall y :: 0 <= y < |s.tasks| ==>
      s'.tasks[y].slice == if s.rqs[c].needResched && Running(s.tasks, s.rqs[c].cur) && s.rqs[c].cur == Some(y)
                           then Quantum(cfg) else s.tasks[y].slice
    ensures forall y :: y in PickFrom(s, c, pos) ==> y < |s.tasks| && s'.tasks[y].slice == Quantum(cfg)
  {
    hide TaskOk, EventsOk, End, CurrentOk;
    var q := s.rqs[c];
    PickFromOk(s.tasks, q, c, now, PickFrom(s, c, pos), pos);
    forall y | y in q.queue ensures y < |s.tasks| && s.tasks[y].slice == Quantum(cfg) {
      var i :| 0 <= i < |q.queue| && q.queue[i] == y;
    }
  }

  lemma SlicesAhead(cfg: Config, tasks: seq<Task>, from: seq<nat>, q: Rq)
    requires Quantum(cfg) > 0 && forall y :: y in from ==> y < |tasks| && tasks[y].slice == Quantum(cfg)
    requires q.queue == (if from == [] then [] else from[1..]) && q.cur == (if from == [] then None else Some(from[0]))
    ensures CpuSlices(cfg, tasks, q, Done)
  {
    forall i | 0 <= i < |q.queue| ensures q.queue[i] in from {
      assert q.queue[i] == from[i + 1];
    }
  }

  lemma SwitchedElsewhere(cfg: Config, s: Sys, s': Sys, now: int, ph: seq<Phase>, c: nat, pos: nat, d: nat)
    requires SysOk(s, now, ph) && c < |s.rqs| && d < |s.rqs| && c != d && |s'.tasks| == |s.tasks|
    requires SwitchedTo(s, s', c, now, pos)
    ensures forall y :: 0 <= y < |s.tasks| && s.tasks[y].lastCpu == d ==> SameCore(s.tasks[y], s'.tasks[y])
    ensures forall i :: 0 <= i < |s.rqs[d].queue| ==> s.rqs[d].queue[i] < |s.tasks| && s.tasks[s.rqs[d].queue[i]].lastCpu == d
    ensures s.rqs[d].cur.Some? ==> s.rqs[d].cur.value < |s.tasks| && s.tasks[s.rqs[d].cur.value].lastCpu == d
  {
    hide TaskOk, EventsOk, End, SwitchIn;
    var q := s.rqs[c];
    var from := PickFrom(s, c, pos);
    assert CpuOk(s.tasks, q, s.events[c], c, now, ph[c]);
    assert CpuOk(s.tasks, s.rqs[d], s.events[d], d, now, ph[d]);
    assert forall i :: 0 <= i < |s.rqs[d].queue| ==> QueuedOk(s.tasks[s.rqs[d].queue[i]], d, now);
    PickFromOk(s.tasks, q, c, now, from, pos);
    assert from != [] ==> from[0] in from;
  }

  // ---------------------------------------------------------------- runs

  /** The slices do not depend on the phase beyond "a step begins" and "schedule is done". */
  lemma SlicesPhase(cfg: Config, s: Sys, s': Sys, ph: seq<Phase>, c: nat, p: Phase)
    requires SlicesOk(cfg, s, ph) && c < |s.rqs| && s'.tasks == s.tasks && |s'.rqs| == |s.rqs|
    requires forall d :: 0 <= d < |s.rqs| ==> s'.rqs[d].(nextLb := s.rqs[d].nextLb) == s.rqs[d]
    requires !p.Start? && !p.Done?
    ensures SlicesOk(cfg, s', ph[c := p])
  {
    forall d | 0 <= d < |s.rqs| ensures CpuSlices(cfg, s'.tasks, s'.rqs[d], ph[c := p][d]) {
      assert CpuSlices(cfg, s.tasks, s.rqs[d], ph[d]);
    }
  }

  lemma FirstPickSlices(cfg: Config, s: Sys, ph: seq<Phase>, c: nat)
    requires SysOk(s, -1, ph) && WellFormed(s) && c < |s.rqs| && ph[c].Fired? && s.rqs[c].cur.None? && SlicesOk(cfg, s, ph)
    ensures SlicesOk(cfg, FirstPick(s, c), ph[c := Done])
  {
    hide TaskOk, EventsOk, Placed, End, EventsInRange;
    var s' := FirstPick(s, c);
    assert CpuSlices(cfg, s.tasks, s.rqs[c], ph[c]);
    assert CpuOk(s.tasks, s.rqs[c], s.events[c], c, -1, ph[c]);
    assert CpuSlices(cfg, s'.tasks, s'.rqs[c], Done);
    forall d | 0 <= d < |s.rqs| && d != c ensures CpuSlices(cfg, s'.tasks, s'.rqs[d], ph[d]) {
      assert CpuSlices(cfg, s.tasks, s.rqs[d], ph[d]);
      if s.rqs[c].queue != [] {
        assert QueuedOk(s.tasks[s.rqs[c].queue[0]], c, -1);
        NotElsewhere(s, -1, ph, s.rqs[c].queue[0], d);
      }
    }
  }

  lemma NextRoundSlices(cfg: Config, s: Sys, ph: seq<Phase>)
    requires SlicesOk(cfg, s, ph) && forall c :: 0 <= c < |ph| ==> ph[c].Done?
    ensures SlicesOk(cfg, s, seq(|ph|, _ => Start))
  {
    forall d | 0 <= d < |s.rqs| ensures CpuSlices(cfg, s.tasks, s.rqs[d], Start) {
      assert CpuSlices(cfg, s.tasks, s.rqs[d], ph[d]);
    }
  }

  lemma StepSlices(cfg: Config, r: RState, st: Step)
    requires RInv(r) && Enabled(r, st) && SlicesOk(cfg, r.s, r.ph)
    ensures var r' := Apply(cfg, r, st); SlicesOk(cfg, r'.s, r'.ph)
  {
    hide SysOk, WellFormed, SlicesOk, Tick, Fire, Schedule, FirstPick, Rebalance, Stamp;
    SysLengths(r);
    match st
    case TickStep(c) => TickSlices(cfg, r.s, r.now, r.ph, c);
    case FireStep(c) =>
      FireSlices(cfg, r.s, r.now, r.ph, c);
      assert r.ph[c := Ticked] == r.ph;
    case FirstPickStep(c) => FirstPickSlices(cfg, r.s, r.ph, c);
    case ScheduleStep(c) => ScheduleSlices(cfg, r.s, r.now, r.ph, c);
    case EventsOver(c) => SlicesPhase(cfg, r.s, r.s, r.ph, c, Fired);
    case BalanceBegin(c) =>
      var r' := Apply(cfg, r, st);
      SlicesPhase(cfg, r.s, r'.s, r.ph, c, r'.ph[c]);
    case BalanceEnd(c) => SlicesPhase(cfg, r.s, Apply(cfg, r, st).s, r.ph, c, Balanced);
    case BalanceTrial(c, loads) => TrialSlices(cfg, r, c, loads);
    case NextRound => NextRoundSlices(cfg, r.s, r.ph);
  }

  lemma TrialSlices(cfg: Config, r: RState, c: nat, loads: seq<nat>)
    requires RInv(r) && Enabled(r, BalanceTrial(c, loads)) && SlicesOk(cfg, r.s, r.ph)
    ensures var r' := Apply(cfg, r, BalanceTrial(c, loads)); SlicesOk(cfg, r'.s, r'.ph)
  {
    hide SysOk, WellFormed, SlicesOk, Rebalance, Stamp;
    SysLengths(r);
    RemoteIsNotLocal(loads, c);
    var next := Balancing(r.ph[c].trials + 1);
    match Choose(loads, c)
    case PushTo(d) =>
      MoveSlices(cfg, r.s, r.now, r.ph, c, d);
      var s' := Rebalance(cfg, r.s, c, d, r.now);
      SlicesPhase(cfg, s', s', r.ph, c, next);
    case PullFrom(d) =>
      MoveSlices(cfg, r.s, r.now, r.ph, d, c);
      var s' := Rebalance(cfg, r.s, d, c, r.now);
      SlicesPhase(cfg, s', s', r.ph, c, next);
    case SystemBalanced => SlicesPhase(cfg, r.s, r.s, r.ph, c, Balancing(MAX_TRIALS));
    case NothingToDo => SlicesPhase(cfg, r.s, r.s, r.ph, c, next);
  }

  lemma {:induction false} RunSlices(cfg: Config, r: RState, steps: seq<Step>, r': RState)
    requires ConfigOk(cfg) && RInv(r) && SlicesOk(cfg, r.s, r.ph) && Reaches(cfg, r, steps, r')
    ensures SlicesOk(cfg, r'.s, r'.ph)
    decreases |steps|
  {
    hide RInv, Apply, Enabled, SlicesOk;
    if steps != [] {
      StepKeeps(cfg, r, steps[0]);
      StepSlices(cfg, r, steps[0]);
      RunSlices(cfg, Apply(cfg, r, steps[0]), steps[1..], r');
    }
  }

  /** In every run of a sliced class, the running task has between 1 and a full quantum left whenever a step begins
      and after every `schedule`. */
  lemma SliceBounds(cfg: Config, ps: seq<Profile>, n: nat, steps: seq<Step>, r: RState, c: nat)
    requires RunFrom(cfg, ps, n, steps, r) && Sliced(cfg.policy) && c < n
    ensures |r.s.rqs| == |r.ph| == n
    ensures (r.ph[c].Done? || r.ph[c].Start?) && Running(r.s.tasks, r.s.rqs[c].cur) ==>
      1 <= r.s.tasks[r.s.rqs[c].cur.value].slice <= Quantum(cfg)
    ensures forall i :: 0 <= i < |r.s.rqs[c].queue| ==>
      r.s.rqs[c].queue[i] < |r.s.tasks| && r.s.tasks[r.s.rqs[c].queue[i]].slice == Quantum(cfg)
  {
    RunInv(cfg, ps, n, steps, r);
    SysLengths(r);
    BootInv(cfg, ps, n);
    hide RInv, SysOk, Reaches;
    BootSlices(cfg, ps, n);
    RunSlices(cfg, Boot(cfg, ps, n), steps, r);
    assert CpuSlices(cfg, r.s.tasks, r.s.rqs[c], r.ph[c]);
  }

  lemma BootSlices(cfg: Config, ps: seq<Profile>, n: nat)
    requires n >= 1 && Sliced(cfg.policy) && ConfigOk(cfg)
    ensures SlicesOk(cfg, Boot(cfg, ps, n).s, Boot(cfg, ps, n).ph)
  {
  }
}
