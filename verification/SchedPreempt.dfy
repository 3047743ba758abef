/** The sorted classes: queues stay sorted, and preemptive SJF and PRIO never let a better task wait unnoticed. */
module SchedPreempt {
  import opened Basics
  import opened SchedTypes
  import opened SchedSteps
  import opened SchedClocks
  import opened SchedInvariant
  import opened SchedKeeps
  import opened SchedBalance
  import opened SchedRuns
  import opened SchedTheorems
  import opened SchedSlices
  import opened Sequences

  ghost predicate QueueSorted(p: Policy, tasks: seq<Task>, queue: seq<nat>) {
    && (forall i :: 0 <= i < |queue| ==> queue[i] < |tasks|)
    && Ordered(QueueKeys(p, tasks, queue), Ascending(p))
  }

  /** Either a reschedule is pending, or no task is running, or the running task's key is at most every queued key. */
  ghost predicate BestRuns(p: Policy, tasks: seq<Task>, q: Rq)
    requires forall i :: 0 <= i < |q.queue| ==> q.queue[i] < |tasks|
  {
    q.needResched || !Running(tasks, q.cur)
    || forall i :: 0 <= i < |q.queue| ==> Key(p, tasks[q.cur.value]) <= Key(p, tasks[q.queue[i]])
  }

  ghost predicate CpuSorted(cfg: Config, tasks: seq<Task>, q: Rq) {
    && QueueSorted(cfg.policy, tasks, q.queue)
    && (cfg.preemptive && Ascending(cfg.policy) ==> BestRuns(cfg.policy, tasks, q))
  }

  ghost predicate AllSorted(cfg: Config, s: Sys) {
    SortedClass(cfg.policy) && forall c :: 0 <= c < |s.rqs| ==> CpuSorted(cfg, s.tasks, s.rqs[c])
  }

  // ---------------------------------------------------------------- one CPU

  lemma SortedFrame(cfg: Config, tasks: seq<Task>, tasks': seq<Task>, q: Rq, x: nat)
    requires CpuSorted(cfg, tasks, q) && |tasks'| == |tasks|
    requires forall y :: 0 <= y < |tasks| && y != x ==> SameCore(tasks[y], tasks'[y])
    requires x !in q.queue && (q.cur == Some(x) ==> x < |tasks| && tasks'[x].state != OnProc)
    ensures CpuSorted(cfg, tasks', q)
  {
    assert forall i :: 0 <= i < |q.queue| ==> q.queue[i] != x;
    assert QueueKeys(cfg.policy, tasks', q.queue) == QueueKeys(cfg.policy, tasks, q.queue);
  }

  /** Inserting a task at the position chosen by the class. */
  lemma InsertedKeys(p: Policy, tasks: seq<Task>, tasks': seq<Task>, queue: seq<nat>, pos: nat, x: nat)
    requires x < |tasks| == |tasks'| && pos <= |queue| && x !in queue && forall i :: 0 <= i < |queue| ==> queue[i] < |tasks|
    requires forall y :: 0 <= y < |tasks| && y != x ==> SameCore(tasks[y], tasks'[y])
    ensures forall i :: 0 <= i <= |queue| ==> InsertAt(queue, pos, x)[i] < |tasks|
    ensures QueueKeys(p, tasks', InsertAt(queue, pos, x)) == InsertAt(QueueKeys(p, tasks, queue), pos, Key(p, tasks'[x]))
  {
    var r := InsertAt(queue, pos, x);
    var keys := InsertAt(QueueKeys(p, tasks, queue), pos, Key(p, tasks'[x]));
    forall i | 0 <= i < |r| ensures r[i] < |tasks| && keys[i] == Key(p, tasks'[r[i]]) {
      if i != pos {
        var k := if i < pos then i else i - 1;
        assert r[i] == queue[k] && queue[k] in queue && keys[i] == Key(p, tasks[queue[k]]);
      }
    }
  }

  lemma SortedInsert(p: Policy, tasks: seq<Task>, tasks': seq<Task>, queue: seq<nat>, t: Task, x: nat)
    requires SortedClass(p) && QueueSorted(p, tasks, queue) && x < |tasks| == |tasks'|
    requires forall y :: 0 <= y < |tasks| && y != x ==> SameCore(tasks[y], tasks'[y])
    requires x !in queue && Key(p, tasks'[x]) == Key(p, t)
    ensures var pos := QueuePos(p, QueueKeys(p, tasks, queue), t);
      pos <= |queue| && QueueSorted(p, tasks', InsertAt(queue, pos, x))
  {
    var keys := QueueKeys(p, tasks, queue);
    var pos := QueuePos(p, keys, t);
    InsertKeepsOrder(keys, Key(p, t), Ascending(p), t.insertFront);
    InsertedKeys(p, tasks, tasks', queue, pos, x);
  }

  /** The preemption test of the class notices a better task. */
  lemma EnqueueNotices(cfg: Config, s: Sys, x: nat, c: nat)
    requires WellFormed(s) && x < |s.tasks| && c < |s.rqs| && !s.tasks[x].onRq
    requires cfg.preemptive && Ascending(cfg.policy) && s.rqs[c].cur != Some(x)
    ensures var r := DoEnqueue(cfg, s, x, c, false);
      !r.rqs[c].needResched && s.rqs[c].cur.Some? ==>
        Key(cfg.policy, s.tasks[s.rqs[c].cur.value]) <= Key(cfg.policy, s.tasks[x])
  {
    hide EventsInRange, QueueKeys, QueuePos;
  }

  /** A task that is enqueued on CPU c, waking up or migrating. */
  lemma EnqueueSorted(cfg: Config, s: Sys, s1: Sys, c: nat, x: nat)
    requires WellFormed(s1) && AllSorted(cfg, s) && c < |s.rqs| && x < |s.tasks| == |s1.tasks|
    requires s1.rqs == s.rqs && s1.tasks == s.tasks[x := s1.tasks[x]] && !s1.tasks[x].onRq && s1.tasks[x].state == Runnable
    requires forall d :: 0 <= d < |s.rqs| ==> x !in s.rqs[d].queue
    ensures AllSorted(cfg, DoEnqueue(cfg, s1, x, c, false))
  {
    hide DoEnqueue, EventsInRange, CpuSorted;
    var s' := DoEnqueue(cfg, s1, x, c, false);
    var pos := DoEnqueueShape(cfg, s1, x, c, false);
    forall d | 0 <= d < |s.rqs| ensures CpuSorted(cfg, s'.tasks, s'.rqs[d]) {
      assert CpuSorted(cfg, s.tasks, s.rqs[d]);
      if d == c {
        EnqueueSortedHere(cfg, s, s1, c, x);
      } else {
        SortedFrame(cfg, s.tasks, s'.tasks, s.rqs[d], x);
      }
    }
  }

  lemma EnqueueSortedHere(cfg: Config, s: Sys, s1: Sys, c: nat, x: nat)
    requires WellFormed(s1) && SortedClass(cfg.policy) && c < |s.rqs| && x < |s.tasks| == |s1.tasks|
    requires CpuSorted(cfg, s.tasks, s.rqs[c])
    requires s1.rqs == s.rqs && s1.tasks == s.tasks[x := s1.tasks[x]] && !s1.tasks[x].onRq && s1.tasks[x].state == Runnable
    requires x !in s.rqs[c].queue
    ensures var s' := DoEnqueue(cfg, s1, x, c, false); c < |s'.rqs| && CpuSorted(cfg, s'.tasks, s'.rqs[c])
  {
    hide DoEnqueue, EventsInRange;
    var q := s.rqs[c];
    var s' := DoEnqueue(cfg, s1, x, c, false);
    var pos := DoEnqueueShape(cfg, s1, x, c, false);
    assert forall i :: 0 <= i < |q.queue| ==> q.queue[i] != x;
    assert QueueKeys(cfg.policy, s1.tasks, q.queue) == QueueKeys(cfg.policy, s.tasks, q.queue);
    SortedInsert(cfg.policy, s.tasks, s'.tasks, q.queue, s1.tasks[x], x);
    if cfg.preemptive && Ascending(cfg.policy) && !s'.rqs[c].needResched && Running(s'.tasks, q.cur) {
      EnqueueNotices(cfg, s1, x, c);
      var r := s'.rqs[c].queue;
      forall i | 0 <= i < |r| ensures Key(cfg.policy, s'.tasks[q.cur.value]) <= Key(cfg.policy, s'.tasks[r[i]]) {
        if i != pos { assert r[i] == q.queue[if i < pos then i else i - 1]; }
      }
    }
  }

  // ---------------------------------------------------------------- every section keeps the order

  lemma TickedKey(cfg: Config, t: Task, c: nat, now: int)
    ensures Key(cfg.policy, TickedTask(cfg, t, c, now)) <= Key(cfg.policy, t)
  {
    hide AddLog;
  }

  lemma TickSorted(cfg: Config, s: Sys, now: int, ph: seq<Phase>, c: nat)
    requires SysOk(s, now, ph) && WellFormed(s) && c < |s.rqs| && ph[c].Start? && AllSorted(cfg, s)
    ensures AllSorted(cfg, Tick(cfg, s, c, now))
  {
    hide TaskOk, Charge, Leave, LeavesIntoCpuPhase, EventsInRange, InsertEvent, EventsOk, Placed, End, QueueKeys, Key;
    var q := s.rqs[c];
    var s' := Tick(cfg, s, c, now);
    assert CpuOk(s.tasks, q, s.events[c], c, now, ph[c]);
    assert CpuSorted(cfg, s.tasks, q);
    if q.cur.Some? {
      var x := q.cur.value;
      TickedTaskOk(cfg, s.tasks[x], c, now);
      TickedKey(cfg, s.tasks[x], c, now);
      assert s'.tasks == s.tasks[x := TickedTask(cfg, s.tasks[x], c, now)];
      NotQueued(s, now, ph, x, c);
      TickedSorted(cfg, s.tasks, s'.tasks, q, s'.rqs[c], x);
      forall d | 0 <= d < |s.rqs| && d != c ensures CpuSorted(cfg, s'.tasks, s'.rqs[d]) {
        assert s'.rqs[d] == s.rqs[d] && CpuSorted(cfg, s.tasks, s.rqs[d]);
        NotElsewhere(s, now, ph, x, d);
        SortedFrame(cfg, s.tasks, s'.tasks, s.rqs[d], x);
      }
    }
  }

  lemma TickedSorted(cfg: Config, tasks: seq<Task>, tasks': seq<Task>, q: Rq, q': Rq, x: nat)
    requires CpuSorted(cfg, tasks, q) && x < |tasks| == |tasks'| && q.cur == Some(x) && x !in q.queue
    requires tasks' == tasks[x := tasks'[x]] && tasks[x].state == OnProc
    requires Key(cfg.policy, tasks'[x]) <= Key(cfg.policy, tasks[x])
    requires q'.queue == q.queue && q'.cur == q.cur && (q.needResched ==> q'.needResched)
    ensures CpuSorted(cfg, tasks', q')
  {
    assert forall i :: 0 <= i < |q.queue| ==> q.queue[i] != x && tasks'[q.queue[i]] == tasks[q.queue[i]];
    assert QueueKeys(cfg.policy, tasks', q.queue) == QueueKeys(cfg.policy, tasks, q.queue);
  }

  lemma FireSorted(cfg: Config, s: Sys, now: int, ph: seq<Phase>, c: nat)
    requires SysOk(s, now, ph) && WellFormed(s) && c < |s.rqs| && HasDue(s, c, now + 1) && AllSorted(cfg, s)
    ensures AllSorted(cfg, Fire(cfg, s, c, now + 1))
  {
    hide DoEnqueue, QueueOk, Placed, Tiles, LogEnd, Logged, Work, EventsInRange, CpuSorted;
    var e := s.events[c][0];
    var x := e.task;
    var t := s.tasks[x];
    assert CpuOk(s.tasks, s.rqs[c], s.events[c], c, now, ph[c]);
    assert EventOk(t, e, c) && TaskOk(t);
    forall d | 0 <= d < |s.rqs| ensures x !in s.rqs[d].queue {
      NotQueued(s, now, ph, x, d);
    }
    var k := if e.kind.NewTask? then 0 else t.curPhase + 1;
    var s' := Fire(cfg, s, c, now + 1);
    if k < |t.phases| {
      WokenOk(t, now + 1, k);
      FireIsEnqueue(cfg, s, c, now + 1, k);
      var s1 := s.(events := s.events[c := s.events[c][1..]], tasks := s.tasks[x := Woken(t, k, now + 1)]);
      EnqueueSorted(cfg, s, s1, c, x);
    } else {
      assert s'.tasks == s.tasks[x := t.(curPhase := t.curPhase + 1, state := Completed)] && s'.rqs == s.rqs;
      forall d | 0 <= d < |s.rqs| ensures CpuSorted(cfg, s'.tasks, s'.rqs[d]) {
        SortedFrame(cfg, s.tasks, s'.tasks, s.rqs[d], x);
      }
    }
  }

  lemma ShorterSorted(cfg: Config, tasks: seq<Task>, q: Rq, from: nat, to: nat, nr: int)
    requires CpuSorted(cfg, tasks, q) && from <= to <= |q.queue|
    ensures CpuSorted(cfg, tasks, q.(queue := q.queue[from..to], nrRunnable := nr))
  {
    var r := q.queue[from..to];
    assert forall i :: 0 <= i < |r| ==> r[i] == q.queue[from + i];
    assert QueueKeys(cfg.policy, tasks, r) == QueueKeys(cfg.policy, tasks, q.queue)[from..to];
  }

  lemma StolenSorted(cfg: Config, s: Sys, now: int, ph: seq<Phase>, src: nat, x: nat)
    requires SysOk(s, now, ph) && WellFormed(s) && src < |s.rqs| && AllSorted(cfg, s)
    requires s.rqs[src].queue != [] && x == s.rqs[src].queue[|s.rqs[src].queue| - 1]
    ensures x < |s.tasks| && s.tasks[x].state == Runnable
    ensures var q := s.rqs[src];
      var s1 := s.(rqs := s.rqs[src := q.(queue := q.queue[..|q.queue| - 1], nrRunnable := q.nrRunnable - 1)]);
      AllSorted(cfg, s1) && forall d :: 0 <= d < |s.rqs| ==> x !in s1.rqs[d].queue
  {
    hide TaskOk, EventsOk, Placed, EventsInRange, WellFormed, End, CpuSorted;
    var q := s.rqs[src];
    assert CpuOk(s.tasks, q, s.events[src], src, now, ph[src]);
    assert CpuSorted(cfg, s.tasks, q);
    assert QueuedOk(s.tasks[x], src, now);
    ShorterSorted(cfg, s.tasks, q, 0, |q.queue| - 1, q.nrRunnable - 1);
    assert q.queue[0..|q.queue| - 1] == q.queue[..|q.queue| - 1];
    forall d | 0 <= d < |s.rqs| && d != src ensures x !in s.rqs[d].queue {
      NotElsewhere(s, now, ph, x, d);
    }
  }

  lemma MoveSorted(cfg: Config, s: Sys, now: int, ph: seq<Phase>, src: nat, dst: nat)
    requires SysOk(s, now, ph) && WellFormed(s) && src < |s.rqs| && dst < |s.rqs| && src != dst && AllSorted(cfg, s)
    ensures AllSorted(cfg, Rebalance(cfg, s, src, dst, now))
  {
    hide TaskOk, QueuedOk, SysOk, AllSorted, DoEnqueue, Migrated, EventsInRange;
    if s.rqs[src].nrRunnable - s.rqs[dst].nrRunnable > 1 {
      var x := StealFinds(s, now, ph, src, dst);
      StolenSorted(cfg, s, now, ph, src, x);
      var q := s.rqs[src];
      var s0 := s.(rqs := s.rqs[src := q.(queue := q.queue[..|q.queue| - 1], nrRunnable := q.nrRunnable - 1)]);
      var s1 := s0.(tasks := s.tasks[x := s.tasks[x].(onRq := false)]);
      assert WellFormed(s1);
      EnqueueSorted(cfg, s0, s1, dst, x);
      MigratedSorted(cfg, DoEnqueue(cfg, s1, x, dst, false), x, src, now);
    }
  }

  lemma MigratedSorted(cfg: Config, s: Sys, x: nat, src: nat, now: int)
    requires AllSorted(cfg, s) && x < |s.tasks|
    ensures AllSorted(cfg, s.(tasks := s.tasks[x := Migrated(s.tasks[x], src, now)]))
  {
    hide AddLog;
    var tasks' := s.tasks[x := Migrated(s.tasks[x], src, now)];
    forall d | 0 <= d < |s.rqs| ensures CpuSorted(cfg, tasks', s.rqs[d]) {
      assert CpuSorted(cfg, s.tasks, s.rqs[d]);
      assert QueueKeys(cfg.policy, tasks', s.rqs[d].queue) == QueueKeys(cfg.policy, s.tasks, s.rqs[d].queue);
    }
  }

  /** Keys survive a context switch. */
  lemma SwitchedKeys(cfg: Config, tasks: seq<Task>, tasks': seq<Task>, prev: Option<nat>, next: Option<nat>, c: nat, now: int, y: nat)
    requires SwitchedTasks(tasks, tasks', prev, next, c, now) && y < |tasks|
    ensures Key(cfg.policy, tasks'[y]) == Key(cfg.policy, tasks[y])
  {
    hide AddLog;
  }

  /** The sorted queue, current included, that the next task is picked from. */
  lemma PickFromSorted(cfg: Config, s: Sys, now: int, ph: seq<Phase>, c: nat, pos: nat)
    requires SysOk(s, now, ph) && WellFormed(s) && c < |s.rqs| && AllSorted(cfg, s)
    requires pos <= |s.rqs[c].queue| && (Running(s.tasks, s.rqs[c].cur) ==> pos == ClassPos(cfg, s, s.rqs[c].cur.value, c))
    ensures QueueSorted(cfg.policy, s.tasks, PickFrom(s, c, pos))
  {
    hide TaskOk, EventsOk, Placed, End, EventsInRange;
    var q := s.rqs[c];
    assert CpuSorted(cfg, s.tasks, q);
    if Running(s.tasks, q.cur) {
      NotQueued(s, now, ph, q.cur.value, c);
      SortedInsert(cfg.policy, s.tasks, s.tasks, q.queue, s.tasks[q.cur.value], q.cur.value);
    }
  }

  lemma TailOrdered(keys: seq<int>, rest: seq<int>, ascending: bool)
    requires Ordered(keys, ascending) && keys != [] && |rest| == |keys| - 1
    requires forall i :: 0 <= i < |rest| ==> rest[i] == keys[i + 1]
    ensures Ordered(rest, ascending)
    ensures forall i :: 0 <= i < |rest| ==> if ascending then keys[0] <= rest[i] else keys[0] >= rest[i]
  {
  }

  /** The picked task is the best, and the rest of the queue is still sorted. */
  lemma PickedSorted(cfg: Config, tasks: seq<Task>, tasks': seq<Task>, from: seq<nat>, q': Rq)
    requires QueueSorted(cfg.policy, tasks, from) && |tasks'| == |tasks|
    requires forall y :: 0 <= y < |tasks| ==> Key(cfg.policy, tasks'[y]) == Key(cfg.policy, tasks[y])
    requires q'.queue == (if from == [] then [] else from[1..])
    requires q'.cur == (if from == [] then None else Some(from[0]))
    ensures CpuSorted(cfg, tasks', q')
  {
    hide Key;
    if from != [] {
      var keys := QueueKeys(cfg.policy, tasks, from);
      var r := q'.queue;
      forall i | 0 <= i < |r|
        ensures r[i] < |tasks'| && Key(cfg.policy, tasks'[r[i]]) == keys[i + 1] && keys[0] == Key(cfg.policy, tasks[from[0]])
      {
        assert r[i] == from[i + 1];
      }
      TailOrdered(keys, QueueKeys(cfg.policy, tasks', r), Ascending(cfg.policy));
    }
  }

  lemma ScheduleSorted(cfg: Config, s: Sys, now: int, ph: seq<Phase>, c: nat)
    requires SysOk(s, now, ph) && WellFormed(s) && c < |s.rqs| && EventsDone(ph[c]) && AllSorted(cfg, s)
    ensures AllSorted(cfg, Schedule(cfg, s, c, now))
  {
    hide Requeue, PickNext, Switch, TaskOk, EventsOk, Placed, End, Schedule, EventsInRange, SwitchIn, CpuSorted, QueueSorted, SwitchedTasks, Key;
    var q := s.rqs[c];
    var s' := Schedule(cfg, s, c, now);
    assert CpuOk(s.tasks, q, s.events[c], c, now, ph[c]);
    if q.needResched || q.cur.None? {
      var pos := ScheduleShape(cfg, s, c, now);
      var from := PickFrom(s, c, pos);
      PickFromSorted(cfg, s, now, ph, c, pos);
      forall y | 0 <= y < |s.tasks| ensures Key(cfg.policy, s'.tasks[y]) == Key(cfg.policy, s.tasks[y]) {
        SwitchedKeys(cfg, s.tasks, s'.tasks, q.cur, s'.rqs[c].cur, c, now, y);
      }
      PickedSorted(cfg, s.tasks, s'.tasks, from, s'.rqs[c]);
      forall d | 0 <= d < |s.rqs| && d != c ensures CpuSorted(cfg, s'.tasks, s'.rqs[d]) {
        assert CpuSorted(cfg, s.tasks, s.rqs[d]);
        SwitchedElsewhere(cfg, s, s', now, ph, c, pos, d);
        SortedElsewhere(cfg, s.tasks, s'.tasks, s.rqs[d], d);
      }
    } else {
      ScheduleNothing(cfg, s, c, now);
    }
  }

  lemma SortedElsewhere(cfg: Config, tasks: seq<Task>, tasks': seq<Task>, q: Rq, d: nat)
    requires CpuSorted(cfg, tasks, q) && |tasks'| == |tasks|
    requires forall y :: 0 <= y < |tasks| && tasks[y].lastCpu == d ==> SameCore(tasks[y], tasks'[y])
    requires forall i :: 0 <= i < |q.queue| ==> q.queue[i] < |tasks| && tasks[q.queue[i]].lastCpu == d
    requires q.cur.Some? ==> q.cur.value < |tasks| && tasks[q.cur.value].lastCpu == d
    ensures CpuSorted(cfg, tasks', q)
  {
    assert QueueKeys(cfg.policy, tasks', q.queue) == QueueKeys(cfg.policy, tasks, q.queue);
  }

  lemma FirstPickSorted(cfg: Config, s: Sys, ph: seq<Phase>, c: nat)
    requires SysOk(s, -1, ph) && WellFormed(s) && c < |s.rqs| && ph[c].Fired? && s.rqs[c].cur.None? && AllSorted(cfg, s)
    ensures AllSorted(cfg, FirstPick(s, c))
  {
    hide TaskOk, EventsOk, Placed, End, EventsInRange, CpuSorted;
    var s' := FirstPick(s, c);
    var q := s.rqs[c];
    assert CpuSorted(cfg, s.tasks, q);
    assert CpuOk(s.tasks, q, s.events[c], c, -1, ph[c]);
    assert QueueSorted(cfg.policy, s.tasks, q.queue) by { QueueOfSorted(cfg, s.tasks, q); }
    PickedSorted(cfg, s.tasks, s'.tasks, q.queue, s'.rqs[c]);
    forall d | 0 <= d < |s.rqs| && d != c ensures CpuSorted(cfg, s'.tasks, s'.rqs[d]) {
      assert CpuSorted(cfg, s.tasks, s.rqs[d]);
      if q.queue != [] {
        assert QueuedOk(s.tasks[q.queue[0]], c, -1);
        NotElsewhere(s, -1, ph, q.queue[0], d);
        SortedFrame(cfg, s.tasks, s'.tasks, s.rqs[d], q.queue[0]);
      }
    }
  }

  lemma QueueOfSorted(cfg: Config, tasks: seq<Task>, q: Rq)
    requires CpuSorted(cfg, tasks, q)
    ensures QueueSorted(cfg.policy, tasks, q.queue)
  {
  }

  // ---------------------------------------------------------------- runs

  lemma SortedNextLb(cfg: Config, s: Sys, c: nat, when: int)
    requires AllSorted(cfg, s) && c < |s.rqs|
    ensures AllSorted(cfg, SetNextLb(s, c, when))
  {
    forall d | 0 <= d < |s.rqs| ensures CpuSorted(cfg, s.tasks, SetNextLb(s, c, when).rqs[d]) {
      assert CpuSorted(cfg, s.tasks, s.rqs[d]);
    }
  }

  lemma StepSorted(cfg: Config, r: RState, st: Step)
    requires RInv(r) && Enabled(r, st) && AllSorted(cfg, r.s)
    ensures AllSorted(cfg, Apply(cfg, r, st).s)
  {
    hide SysOk, WellFormed, AllSorted, Tick, Fire, Schedule, FirstPick, Rebalance, Stamp, SetNextLb;
    SysLengths(r);
    match st
    case TickStep(c) => TickSorted(cfg, r.s, r.now, r.ph, c);
    case FireStep(c) => FireSorted(cfg, r.s, r.now, r.ph, c);
    case FirstPickStep(c) => FirstPickSorted(cfg, r.s, r.ph, c);
    case ScheduleStep(c) => ScheduleSorted(cfg, r.s, r.now, r.ph, c);
    case BalanceBegin(c) => SortedNextLb(cfg, r.s, c, r.now);
    case BalanceEnd(c) => SortedNextLb(cfg, r.s, c, r.s.rqs[c].nextLb + cfg.period);
    case BalanceTrial(c, loads) =>
      RemoteIsNotLocal(loads, c);
      match Choose(loads, c) {
        case PushTo(d) => MoveSorted(cfg, r.s, r.now, r.ph, c, d);
        case PullFrom(d) => MoveSorted(cfg, r.s, r.now, r.ph, d, c);
        case _ =>
      }
    case _ =>
  }

  lemma {:induction false} RunSorted(cfg: Config, r: RState, steps: seq<Step>, r': RState)
    requires ConfigOk(cfg) && RInv(r) && AllSorted(cfg, r.s) && Reaches(cfg, r, steps, r')
    ensures AllSorted(cfg, r'.s)
    decreases |steps|
  {
    hide RInv, Apply, Enabled, AllSorted;
    if steps != [] {
      StepKeeps(cfg, r, steps[0]);
      StepSorted(cfg, r, steps[0]);
      RunSorted(cfg, Apply(cfg, r, steps[0]), steps[1..], r');
    }
  }

  lemma BootSorted(cfg: Config, ps: seq<Profile>, n: nat)
    requires n >= 1 && SortedClass(cfg.policy)
    ensures AllSorted(cfg, BootSys(cfg, ps, n))
  {
  }

  /** In every run of a sorted class each queue is sorted by the key of the class (ascending for SJF and PRIO,
      descending for TJF and TJFEX); and when SJF or PRIO is preemptive, at every point where no lock is held, a
      running task whose CPU has no reschedule pending has a key at most that of every task on its queue. */
  lemma NoBetterTaskWaits(cfg: Config, ps: seq<Profile>, n: nat, steps: seq<Step>, r: RState, c: nat)
    requires RunFrom(cfg, ps, n, steps, r) && SortedClass(cfg.policy) && c < n
    ensures |r.s.rqs| == n && RqInRange(r.s.rqs[c], |r.s.tasks|)
    ensures var q := r.s.rqs[c];
      forall i, j :: 0 <= i < j < |q.queue| ==>
        if Ascending(cfg.policy) then Key(cfg.policy, r.s.tasks[q.queue[i]]) <= Key(cfg.policy, r.s.tasks[q.queue[j]])
        else Key(cfg.policy, r.s.tasks[q.queue[i]]) >= Key(cfg.policy, r.s.tasks[q.queue[j]])
    ensures var q := r.s.rqs[c];
      cfg.preemptive && Ascending(cfg.policy) && !q.needResched && Running(r.s.tasks, q.cur) ==>
        forall i :: 0 <= i < |q.queue| ==> Key(cfg.policy, r.s.tasks[q.cur.value]) <= Key(cfg.policy, r.s.tasks[q.queue[i]])
  {
    RunInv(cfg, ps, n, steps, r);
    BootInv(cfg, ps, n);
    InvWellFormed(r.s, r.now, r.ph);
    hide RInv, SysOk, Reaches, Key;
    BootSorted(cfg, ps, n);
    RunSorted(cfg, Boot(cfg, ps, n), steps, r);
    var q := r.s.rqs[c];
    assert CpuSorted(cfg, r.s.tasks, q);
    var keys := QueueKeys(cfg.policy, r.s.tasks, q.queue);
    assert forall i :: 0 <= i < |q.queue| ==> keys[i] == Key(cfg.policy, r.s.tasks[q.queue[i]]);
  }

  /** A task goes behind every queued task with its key if its flag is clear, and ahead of every one if it is set. */
  lemma PlaceAmongEquals(p: Policy, tasks: seq<Task>, queue: seq<nat>, t: Task, i: nat)
    requires SortedClass(p) && QueueSorted(p, tasks, queue) && i < |queue| && Key(p, tasks[queue[i]]) == Key(p, t)
    ensures QueuePos(p, QueueKeys(p, tasks, queue), t) <= i <==> t.insertFront
  {
    hide Key;
    var keys := QueueKeys(p, tasks, queue);
    assert keys[i] == Key(p, t);
    InsertKeepsOrder(keys, Key(p, t), Ascending(p), t.insertFront);
  }

  // ---------------------------------------------------------------- what `schedule` decides

  /** Key k is at least as good as key l. */
  predicate AsGood(p: Policy, k: int, l: int) {
    if Ascending(p) then k <= l else k >= l
  }

  /** No queued task is better than the current one. */
  ghost predicate BestIsCurrent(p: Policy, tasks: seq<Task>, q: Rq)
    requires RqInRange(q, |tasks|)
  {
    q.queue == []
    || (q.cur.Some? && forall i :: 0 <= i < |q.queue| ==> AsGood(p, Key(p, tasks[q.cur.value]), Key(p, tasks[q.queue[i]])))
  }

  /** The head of a sorted queue is the best of it. */
  lemma HeadIsBest(p: Policy, tasks: seq<Task>, queue: seq<nat>, k: int)
    requires QueueSorted(p, tasks, queue) && queue != []
    ensures AsGood(p, k, Key(p, tasks[queue[0]])) <==> forall i :: 0 <= i < |queue| ==> AsGood(p, k, Key(p, tasks[queue[i]]))
  {
    hide Key;
    var keys := QueueKeys(p, tasks, queue);
    forall i | 0 <= i < |queue| && AsGood(p, k, Key(p, tasks[queue[0]])) ensures AsGood(p, k, Key(p, tasks[queue[i]])) {
      assert keys[i] == Key(p, tasks[queue[i]]) && (i > 0 ==> AsGood(p, keys[0], keys[i]));
    }
  }

  /** The picked task is the best of those it was picked from. */
  lemma PickedIsBest(p: Policy, tasks: seq<Task>, tasks': seq<Task>, from: seq<nat>, q': Rq)
    requires QueueSorted(p, tasks, from) && |tasks'| == |tasks| && RqInRange(q', |tasks|)
    requires forall y :: 0 <= y < |tasks| ==> Key(p, tasks'[y]) == Key(p, tasks[y])
    requires q'.queue == (if from == [] then [] else from[1..])
    requires q'.cur == (if from == [] then None else Some(from[0]))
    ensures BestIsCurrent(p, tasks', q')
  {
    hide Key, QueueSorted;
    if from != [] {
      HeadIsBest(p, tasks, from, Key(p, tasks[from[0]]));
      forall i | 0 <= i < |q'.queue| ensures AsGood(p, Key(p, tasks'[from[0]]), Key(p, tasks'[q'.queue[i]])) {
        assert q'.queue[i] == from[i + 1];
      }
    }
  }

  lemma ScheduledBest(cfg: Config, s: Sys, now: int, ph: seq<Phase>, c: nat)
    requires SysOk(s, now, ph) && WellFormed(s) && c < |s.rqs| && EventsDone(ph[c]) && AllSorted(cfg, s)
    requires s.rqs[c].needResched || s.rqs[c].cur.None?
    ensures var s' := Schedule(cfg, s, c, now);
      RqInRange(s'.rqs[c], |s'.tasks|) && BestIsCurrent(cfg.policy, s'.tasks, s'.rqs[c])
  {
    hide TaskOk, Schedule, SysOk, AllSorted, EventsInRange, QueueSorted, SwitchedTasks, Key, BestIsCurrent, PickFrom;
    var q := s.rqs[c];
    var s' := Schedule(cfg, s, c, now);
    CurrentNotQueued(s, now, ph, c);
    var pos := ScheduleShape(cfg, s, c, now);
    PickFromSorted(cfg, s, now, ph, c, pos);
    forall y | 0 <= y < |s.tasks| ensures Key(cfg.policy, s'.tasks[y]) == Key(cfg.policy, s.tasks[y]) {
      SwitchedKeys(cfg, s.tasks, s'.tasks, q.cur, s'.rqs[c].cur, c, now, y);
    }
    PickedIsBest(cfg.policy, s.tasks, s'.tasks, PickFrom(s, c, pos), s'.rqs[c]);
  }

  lemma CurrentNotQueued(s: Sys, now: int, ph: seq<Phase>, c: nat)
    requires SysOk(s, now, ph) && c < |s.rqs|
    ensures s.rqs[c].cur.Some? ==> s.rqs[c].cur.value < |s.tasks| && !s.tasks[s.rqs[c].cur.value].onRq
    ensures s.rqs[c].cur.Some? && !s.rqs[c].needResched ==> Running(s.tasks, s.rqs[c].cur)
  {
    hide TaskOk, EventsOk, QueueOk, Placed, End;
    assert CpuOk(s.tasks, s.rqs[c], s.events[c], c, now, ph[c]);
  }

  /** In every run of a sorted class: after `schedule` no waiting task is better than the running one (shorter under SJF,
      of smaller priority under PRIO, longer under TJF and TJFEX), if and only if a reschedule had been requested, or no
      task was running, or the head of the queue was not better than the running task. */
  lemma BestRunsAfterSchedule(cfg: Config, ps: seq<Profile>, n: nat, steps: seq<Step>, r: RState, c: nat)
    requires RunFrom(cfg, ps, n, steps, r) && SortedClass(cfg.policy) && Enabled(r, ScheduleStep(c))
    ensures RqInRange(r.s.rqs[c], |r.s.tasks|)
    ensures var q := r.s.rqs[c]; var s' := Schedule(cfg, r.s, c, r.now);
      BestIsCurrent(cfg.policy, s'.tasks, s'.rqs[c])
      <==> (q.needResched || !Running(r.s.tasks, q.cur) || q.queue == []
            || AsGood(cfg.policy, Key(cfg.policy, r.s.tasks[q.cur.value]), Key(cfg.policy, r.s.tasks[q.queue[0]])))
  {
    RunInv(cfg, ps, n, steps, r);
    BootInv(cfg, ps, n);
    hide RInv, Reaches, Key, Schedule, BestIsCurrent, AsGood;
    BootSorted(cfg, ps, n);
    hide AllSorted;
    RunSorted(cfg, Boot(cfg, ps, n), steps, r);
    InvSys(r);
    hide SysOk;
    CurrentNotQueued(r.s, r.now, r.ph, c);
    var q := r.s.rqs[c];
    if q.needResched || q.cur.None? {
      ScheduledBest(cfg, r.s, r.now, r.ph, c);
    } else {
      ScheduleNothing(cfg, r.s, c, r.now);
      SortedQueue(cfg, r.s, c);
      CurrentOrHead(cfg.policy, r.s.tasks, q);
    }
  }

  lemma SortedQueue(cfg: Config, s: Sys, c: nat)
    requires AllSorted(cfg, s) && c < |s.rqs|
    ensures QueueSorted(cfg.policy, s.tasks, s.rqs[c].queue)
  {
    assert CpuSorted(cfg, s.tasks, s.rqs[c]);
  }

  lemma CurrentOrHead(p: Policy, tasks: seq<Task>, q: Rq)
    requires RqInRange(q, |tasks|) && QueueSorted(p, tasks, q.queue) && q.cur.Some?
    ensures BestIsCurrent(p, tasks, q)
      <==> (q.queue == [] || AsGood(p, Key(p, tasks[q.cur.value]), Key(p, tasks[q.queue[0]])))
  {
    hide Key, AsGood;
    if q.queue != [] { HeadIsBest(p, tasks, q.queue, Key(p, tasks[q.cur.value])); }
  }

  /** Which requests change the running task, in every run of a sorted class: when a reschedule has been requested, the
      running task goes on exactly if no task waits, or it is better than the head, or it is its equal and has the flag;
      otherwise the head runs. */
  lemma RequestOutcome(cfg: Config, ps: seq<Profile>, n: nat, steps: seq<Step>, r: RState, c: nat)
    requires RunFrom(cfg, ps, n, steps, r) && SortedClass(cfg.policy) && Enabled(r, ScheduleStep(c))
    requires r.s.rqs[c].needResched && Running(r.s.tasks, r.s.rqs[c].cur)
    ensures RqInRange(r.s.rqs[c], |r.s.tasks|)
    ensures var q := r.s.rqs[c]; var q' := Schedule(cfg, r.s, c, r.now).rqs[c];
      var t := r.s.tasks[q.cur.value];
      && (q'.cur == q.cur <==>
            q.queue == [] || !AsGood(cfg.policy, Key(cfg.policy, r.s.tasks[q.queue[0]]), Key(cfg.policy, t))
            || (Key(cfg.policy, r.s.tasks[q.queue[0]]) == Key(cfg.policy, t) && t.insertFront))
      && (q'.cur != q.cur ==> q.queue != [] && q'.cur == Some(q.queue[0]))
  {
    RunInv(cfg, ps, n, steps, r);
    hide RInv, Reaches, Schedule, SwitchedTasks, Key, AsGood;
    InvSys(r);
    hide SysOk;
    CurrentNotQueued(r.s, r.now, r.ph, c);
    var q := r.s.rqs[c];
    var x := q.cur.value;
    NotQueued(r.s, r.now, r.ph, x, c);
    var pos := ScheduleShape(cfg, r.s, c, r.now);
    ClassPosFirst(cfg.policy, r.s.tasks, q.queue, r.s.tasks[x]);
    assert PickFrom(r.s, c, pos)[0] == if pos == 0 then x else q.queue[0];
    if q.queue != [] { assert q.queue[0] in q.queue; }
  }

  /** Under TJF and TJFEX a request never brings a task to the processor that is shorter than the running one, so not the
      newcomer that preempted it; and a preempted task goes on unless the head is strictly longer. */
  lemma PreemptionKeepsLonger(cfg: Config, ps: seq<Profile>, n: nat, steps: seq<Step>, r: RState, c: nat, i: nat)
    requires RunFrom(cfg, ps, n, steps, r) && (cfg.policy.Tjf? || cfg.policy.TjfEx?) && Enabled(r, ScheduleStep(c))
    requires r.s.rqs[c].needResched && Running(r.s.tasks, r.s.rqs[c].cur) && i < |r.s.rqs[c].queue|
    ensures RqInRange(r.s.rqs[c], |r.s.tasks|)
    ensures var q := r.s.rqs[c]; var q' := Schedule(cfg, r.s, c, r.now).rqs[c];
      var t := r.s.tasks[q.cur.value];
      && (r.s.tasks[q.queue[i]].ticksLeft < t.ticksLeft ==> q'.cur != Some(q.queue[i]))
      && (t.insertFront ==> (q'.cur == q.cur <==> r.s.tasks[q.queue[0]].ticksLeft <= t.ticksLeft))
  {
    hide RunFrom, Schedule, Enabled;
    RequestOutcome(cfg, ps, n, steps, r, c);
  }

  /** When the class puts a task first. */
  lemma ClassPosFirst(p: Policy, tasks: seq<Task>, queue: seq<nat>, t: Task)
    requires SortedClass(p) && forall i :: 0 <= i < |queue| ==> queue[i] < |tasks|
    ensures QueuePos(p, QueueKeys(p, tasks, queue), t) == 0 <==>
      queue == [] || !AsGood(p, Key(p, tasks[queue[0]]), Key(p, t)) || (Key(p, tasks[queue[0]]) == Key(p, t) && t.insertFront)
  {
    hide Key, InsertPos;
    var keys := QueueKeys(p, tasks, queue);
    assert queue != [] ==> keys[0] == Key(p, tasks[queue[0]]);
  }
}
