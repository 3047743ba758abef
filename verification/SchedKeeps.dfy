/** Every lock-protected section keeps the invariant of module SchedInvariant, for every scheduling class. */
module SchedKeeps {
  import opened Basics
  import opened SchedTypes
  import opened SchedSteps
  import opened SchedClocks
  import opened SchedInvariant
  import opened Sequences

  /** The invariant after a step that touches only the CPUs in `touched`. */
  lemma Assemble(s: Sys, s': Sys, now: int, ph: seq<Phase>, ph': seq<Phase>, touched: set<nat>)
    requires SysOk(s, now, ph) && !s'.aborted
    requires |s'.tasks| == |s.tasks| && |s'.rqs| == |s'.events| == |ph'| == |s.rqs|
    requires forall d :: 0 <= d < |s.rqs| && d !in touched ==>
      s'.rqs[d] == s.rqs[d] && s'.events[d] == s.events[d] && ph'[d] == ph[d]
    requires forall x :: 0 <= x < |s.tasks| && s.tasks[x].lastCpu !in touched ==> SameCore(s.tasks[x], s'.tasks[x])
    requires forall x :: 0 <= x < |s.tasks| && s.tasks[x].lastCpu in touched ==>
      && TaskOk(s'.tasks[x])
      && s'.tasks[x].lastCpu in touched && s'.tasks[x].lastCpu < |s.rqs|
      && Placed(s'.tasks[x], x, s'.rqs[s'.tasks[x].lastCpu], s'.events[s'.tasks[x].lastCpu])
    requires forall d :: d in touched && d < |s.rqs| ==> CpuOk(s'.tasks, s'.rqs[d], s'.events[d], d, now, ph'[d])
    ensures SysOk(s', now, ph')
  {
    forall d | 0 <= d < |s.rqs| ensures CpuOk(s'.tasks, s'.rqs[d], s'.events[d], d, now, ph'[d]) {
      if d !in touched { CpuFrame(s.tasks, s'.tasks, s.rqs[d], s.events[d], d, now, ph[d]); }
    }
    forall x | 0 <= x < |s.tasks|
      ensures TaskOk(s'.tasks[x]) && s'.tasks[x].lastCpu < |s.rqs|
      ensures Placed(s'.tasks[x], x, s'.rqs[s'.tasks[x].lastCpu], s'.events[s'.tasks[x].lastCpu])
    {
      if s.tasks[x].lastCpu !in touched {
        assert SameCore(s.tasks[x], s'.tasks[x]);
        assert TaskOk(s.tasks[x]);
      }
    }
  }

  /** The position at which the active class puts task x on the queue of c. */
  function ClassPos(cfg: Config, s: Sys, x: nat, c: nat): (pos: nat)
    requires WellFormed(s) && x < |s.tasks| && c < |s.rqs|
    ensures pos <= |s.rqs[c].queue|
  {
    QueuePos(cfg.policy, QueueKeys(cfg.policy, s.tasks, s.rqs[c].queue), s.tasks[x])
  }

  /** What every class does when it enqueues a task that is on no queue. */
  lemma EnqueueShape(cfg: Config, s: Sys, x: nat, c: nat, preempted: bool) returns (pos: nat)
    requires WellFormed(s) && x < |s.tasks| && c < |s.rqs| && !s.tasks[x].onRq
    ensures pos == ClassPos(cfg, s, x, c)
    ensures var r := ClassEnqueue(cfg, s, x, c, preempted);
      && r.events == s.events && r.aborted == s.aborted
      && |r.rqs| == |s.rqs| && |r.tasks| == |s.tasks|
      && pos <= |s.rqs[c].queue|
      && r.rqs[c].(needResched := s.rqs[c].needResched)
         == s.rqs[c].(queue := InsertAt(s.rqs[c].queue, pos, x))
      && (s.rqs[c].needResched ==> r.rqs[c].needResched)
      && (forall d :: 0 <= d < |s.rqs| && d != c ==> r.rqs[d] == s.rqs[d])
      && (forall y :: 0 <= y < |s.tasks| ==> SameCore(s.tasks[y], r.tasks[y]))
  {
    pos := ClassPos(cfg, s, x, c);
  }

  lemma DoEnqueueShape(cfg: Config, s: Sys, x: nat, c: nat, runnable: bool) returns (pos: nat)
    requires WellFormed(s) && x < |s.tasks| && c < |s.rqs| && !s.tasks[x].onRq
    ensures pos == ClassPos(cfg, s, x, c)
    ensures var r := DoEnqueue(cfg, s, x, c, runnable);
      && r.events == s.events && r.aborted == s.aborted
      && |r.rqs| == |s.rqs| && |r.tasks| == |s.tasks|
      && pos <= |s.rqs[c].queue|
      && r.rqs[c].(needResched := s.rqs[c].needResched)
         == s.rqs[c].(queue := InsertAt(s.rqs[c].queue, pos, x),
                      nrRunnable := s.rqs[c].nrRunnable + (if runnable then 0 else 1))
      && (s.rqs[c].needResched ==> r.rqs[c].needResched)
      && (forall d :: 0 <= d < |s.rqs| && d != c ==> r.rqs[d] == s.rqs[d])
      && (forall y :: 0 <= y < |s.tasks| && y != x ==> SameCore(s.tasks[y], r.tasks[y]))
      && SameCore(s.tasks[x].(onRq := true, lastCpu := if runnable then s.tasks[x].lastCpu else c), r.tasks[x])
  {
    pos := EnqueueShape(cfg, s, x, c, runnable);
  }

  /** Putting a waiting task on a queue. */
  lemma QueueInsertOk(tasks: seq<Task>, tasks': seq<Task>, queue: seq<nat>, pos: nat, x: nat, c: nat, now: int)
    requires QueueOk(tasks, queue, c, now) && pos <= |queue| && x < |tasks| == |tasks'|
    requires x !in queue
    requires forall y :: 0 <= y < |tasks| && y != x && tasks[y].lastCpu == c ==> SameCore(tasks[y], tasks'[y])
    requires QueuedOk(tasks'[x], c, now)
    ensures QueueOk(tasks', InsertAt(queue, pos, x), c, now)
    ensures forall y :: y in InsertAt(queue, pos, x) <==> y == x || y in queue
  {
    InsertMembers(queue, pos, x);
    InsertKeepsNoDup(queue, pos, x);
    var r := InsertAt(queue, pos, x);
    forall i | 0 <= i < |r| ensures r[i] < |tasks'| && QueuedOk(tasks'[r[i]], c, now) {
      if r[i] != x {
        assert r[i] in queue;
        var j :| 0 <= j < |queue| && queue[j] == r[i];
        assert QueuedOk(tasks[queue[j]], c, now);
      }
    }
  }

  // ---------------------------------------------------------------- tick

  lemma InsertEventShape(evs: seq<Event>, e: Event) returns (pos: nat)
    ensures var r := InsertEvent(evs, e);
      && pos <= |evs| && |r| == |evs| + 1 && r[pos] == e
      && (forall i :: 0 <= i < |r| && i != pos ==> r[i] == evs[if i < pos then i else i - 1])
      && (forall i :: 0 <= i < |evs| ==> evs[i] == r[if i < pos then i else i + 1])
      && (Ordered(Timeouts(evs), true) ==> Ordered(Timeouts(r), true))
  {
    hide InsertPos, Ordered, Timeouts;
    pos := InsertPos(Timeouts(evs), e.timeout, true, false);
    InsertedElements(evs, e, pos);
    TimeoutsInsert(evs, e, pos);
    if Ordered(Timeouts(evs), true) { InsertKeepsOrder(Timeouts(evs), e.timeout, true, false); }
  }

  lemma InsertedElements(evs: seq<Event>, e: Event, pos: nat)
    requires pos <= |evs|
    ensures var r := InsertAt(evs, pos, e);
      && (forall i :: 0 <= i < |r| && i != pos ==> r[i] == evs[if i < pos then i else i - 1])
      && (forall i :: 0 <= i < |evs| ==> evs[i] == r[if i < pos then i else i + 1])
  {
    var r := InsertAt(evs, pos, e);
    forall i | 0 <= i < |r| && i != pos ensures r[i] == evs[if i < pos then i else i - 1] {
      if i < pos { assert r[i] == evs[..pos][i]; } else { assert r[i] == evs[pos..][i - pos - 1]; }
    }
    forall i | 0 <= i < |evs| ensures evs[i] == r[if i < pos then i else i + 1] {
      if i < pos { assert r[i] == evs[..pos][i]; } else { assert r[i + 1] == evs[pos..][i - pos]; }
    }
  }

  lemma TimeoutsInsert(evs: seq<Event>, e: Event, pos: nat)
    requires pos <= |evs|
    ensures Timeouts(InsertAt(evs, pos, e)) == InsertAt(Timeouts(evs), pos, e.timeout)
  {
    var r, times := InsertAt(evs, pos, e), InsertAt(Timeouts(evs), pos, e.timeout);
    forall i | 0 <= i < |r| ensures r[i].timeout == times[i] {
      if i > pos { assert r[i] == evs[i - 1]; }
    }
  }

  /** Inserting a task's wake-up event keeps a CPU's event list sorted, complete and free of duplicates. */
  lemma InsertEventOk(tasks: seq<Task>, tasks': seq<Task>, evs: seq<Event>, e: Event, c: nat, now: int, ph: Phase, ph': Phase)
    requires EventsOk(tasks, evs, c, now, ph) && EventsDone(ph) == EventsDone(ph')
    requires e.task < |tasks| == |tasks'|
    requires forall i :: 0 <= i < |evs| ==> evs[i].task != e.task
    requires forall y :: 0 <= y < |tasks| && y != e.task && tasks[y].lastCpu == c ==> SameCore(tasks[y], tasks'[y])
    requires EventOk(tasks'[e.task], e, c) && e.timeout > (if EventsDone(ph) then now + 1 else now)
    ensures EventsOk(tasks', InsertEvent(evs, e), c, now, ph')
  {
    var pos := InsertEventShape(evs, e);
    var r := InsertEvent(evs, e);
    forall i | 0 <= i < |r|
      ensures r[i].task < |tasks'| && EventOk(tasks'[r[i].task], r[i], c)
      ensures r[i].timeout > (if EventsDone(ph) then now + 1 else now)
      ensures i != pos ==> r[i].task != e.task
    {
      if i != pos {
        var j := if i < pos then i else i - 1;
        assert EventOk(tasks[evs[j].task], evs[j], c);
      }
    }
  }

  lemma InsertEventHas(evs: seq<Event>, e: Event, y: nat)
    ensures HasEvent(InsertEvent(evs, e), y) <==> HasEvent(evs, y) || y == e.task
  {
    var pos := InsertEventShape(evs, e);
    var r := InsertEvent(evs, e);
    if HasEvent(evs, y) {
      var i :| 0 <= i < |evs| && evs[i].task == y;
      assert r[if i < pos then i else i + 1].task == y;
    }
    if y == e.task { assert r[pos].task == y; }
  }

  /** The clocks after a tick that does not end the phase. */
  lemma ChargeOk(cfg: Config, t: Task, c: nat, now: int)
    requires TaskOk(t) && t.state == OnProc && End(t) == now && t.lastCpu == c
    ensures var t2 := Charge(cfg, t, c, now);
      && SameCore(t2, t.(userTime := t2.userTime, realTime := t2.realTime, regs := t2.regs, ticksLeft := t.ticksLeft - 1))
      && LogOk(t2) && End(t2) == now + 1
      && t2.userTime == t.userTime + 1
      && (t2.ticksLeft != 0 ==> TaskOk(t2))
  {
    hide AddLog, Tiles, Logged, LogEnd, Work;
    AddLogKeeps(t.regs, t.arrival, OnProc, c, now, 1);
  }

  /** The clocks of a task that leaves the processor: the "CPU Phase detected" branch is not taken. */
  lemma LeaveOk(t: Task, c: nat, now: int)
    requires ProfileOk(t) && LogOk(t) && End(t) == now + 1
    requires !PhaseIsIo(t.curPhase) && t.curPhase < |t.phases|
    requires t.userTime == Work(t.phases, t.curPhase + 1, false) && t.sysTime == Work(t.phases, t.curPhase, true)
    ensures !LeavesIntoCpuPhase(t)
    ensures var t' := Leave(t, c, now); var k := t.curPhase + 1;
      && TaskOk(t') && t'.lastCpu == t.lastCpu && t'.onRq == t.onRq && t'.curPhase == k
      && (if k < |t.phases| then t'.state == Sleep && End(t') == now + 1 + t.phases[k] && t.phases[k] >= 1
          else t'.state == Completed && End(t') == now + 1)
  {
    hide AddLog, Tiles, Logged, LogEnd;
    var k := t.curPhase + 1;
    if k < |t.phases| {
      AddLogKeeps(t.regs, t.arrival, Sleep, c, now + 1, t.phases[k]);
      assert Work(t.phases, k + 1, true) == Work(t.phases, k, true) + t.phases[k];
    }
  }

  /** What a tick does to the running task x and to its CPU. */
  ghost predicate TickedTo(s: Sys, s': Sys, c: nat, now: int, x: nat, evs: seq<Event>)
    requires WellFormed(s) && c < |s.rqs| && x < |s.tasks| && |s'.tasks| == |s.tasks|
    requires |s'.rqs| == |s.rqs| && |s'.events| == |s.events|
  {
    var q := s.rqs[c];
    var q' := s'.rqs[c];
    var t' := s'.tasks[x];
    && s'.aborted == s.aborted
    && q' == q.(needResched := q'.needResched, nrRunnable := q.nrRunnable - (if t'.state == OnProc then 0 else 1))
    && s'.tasks == s.tasks[x := t']
    && s'.rqs == s.rqs[c := q']
    && s'.events == s.events[c := evs]
    && TaskOk(t') && t'.lastCpu == c && t'.onRq == s.tasks[x].onRq
    && (t'.state == OnProc || ((t'.state == Sleep || t'.state == Completed) && q'.needResched))
    && (t'.state == Sleep ==> End(t') > now + 1)
    && (t'.state != Sleep ==> End(t') == now + 1)
    && evs == (if t'.state == Sleep then InsertEvent(s.events[c], Event(x, TaskAwake, End(t'))) else s.events[c])
  }

  /** The running task after a tick. */
  function TickedTask(cfg: Config, t: Task, c: nat, now: int): Task {
    var t1 := Charge(cfg, t, c, now);
    if t1.ticksLeft != 0 then t1 else Leave(t1, c, now)
  }

  lemma TickedTaskOk(cfg: Config, t: Task, c: nat, now: int)
    requires TaskOk(t) && t.state == OnProc && End(t) == now && t.lastCpu == c
    ensures var t' := TickedTask(cfg, t, c, now); var t1 := Charge(cfg, t, c, now);
      && TaskOk(t') && t'.lastCpu == c && t'.onRq == t.onRq
      && (if t1.ticksLeft != 0 then t'.state == OnProc && End(t') == now + 1
          else !LeavesIntoCpuPhase(t1) && t'.curPhase == t1.curPhase + 1 &&
               if t'.curPhase < |t1.phases|
               then t'.state == Sleep && End(t') == now + t1.phases[t'.curPhase] + 1 && t1.phases[t'.curPhase] >= 1
                    && |t'.phases| == |t1.phases|
               else t'.state == Completed && End(t') == now + 1 && |t'.phases| == |t1.phases|)
  {
    ChargeOk(cfg, t, c, now);
    if Charge(cfg, t, c, now).ticksLeft == 0 { LeaveOk(Charge(cfg, t, c, now), c, now); }
  }

  lemma TickShape(cfg: Config, s: Sys, c: nat, now: int) returns (evs: seq<Event>)
    requires WellFormed(s) && c < |s.rqs| && s.rqs[c].cur.Some?
    requires var t := s.tasks[s.rqs[c].cur.value]; TaskOk(t) && t.state == OnProc && End(t) == now && t.lastCpu == c
    ensures TickedTo(s, Tick(cfg, s, c, now), c, now, s.rqs[c].cur.value, evs)
  {
    hide TaskOk, Charge, Leave, LeavesIntoCpuPhase, EventsInRange, End, InsertEvent;
    var x := s.rqs[c].cur.value;
    var s' := Tick(cfg, s, c, now);
    evs := s'.events[c];
    TickedTaskOk(cfg, s.tasks[x], c, now);
    var t1 := Charge(cfg, s.tasks[x], c, now);
    var t' := TickedTask(cfg, s.tasks[x], c, now);
    assert s'.tasks[x] == t';
    if t1.ticksLeft != 0 || t'.curPhase >= |t1.phases| {
      assert s'.events == s.events == s.events[c := s.events[c]];
    } else {
      assert s'.events == s.events[c := InsertEvent(s.events[c], Event(x, TaskAwake, End(t')))];
    }
  }

  lemma TickKeeps(cfg: Config, s: Sys, now: int, ph: seq<Phase>, c: nat)
    requires SysOk(s, now, ph) && c < |s.rqs| && ph[c].Start?
    ensures WellFormed(s) && SysOk(Tick(cfg, s, c, now), now, ph[c := Ticked])
  {
    InvWellFormed(s, now, ph);
    assert CpuOk(s.tasks, s.rqs[c], s.events[c], c, now, ph[c]);
    if s.rqs[c].cur.Some? {
      var evs := TickShape(cfg, s, c, now);
      TickedKeeps(s, Tick(cfg, s, c, now), now, ph, c, s.rqs[c].cur.value, evs);
    } else {
      Assemble(s, s, now, ph, ph[c := Ticked], {c});
    }
  }

  lemma TickedKeeps(s: Sys, s': Sys, now: int, ph: seq<Phase>, c: nat, x: nat, evs: seq<Event>)
    requires SysOk(s, now, ph) && WellFormed(s) && c < |s.rqs| && ph[c].Start? && s.rqs[c].cur == Some(x)
    requires x < |s.tasks| && |s'.tasks| == |s.tasks| && |s'.rqs| == |s.rqs| && |s'.events| == |s.events|
    requires TickedTo(s, s', c, now, x, evs)
    ensures SysOk(s', now, ph[c := Ticked])
  {
    var q := s.rqs[c];
    assert CpuOk(s.tasks, q, s.events[c], c, now, ph[c]);
    assert x !in q.queue by { assert forall i :: 0 <= i < |q.queue| ==> QueuedOk(s.tasks[q.queue[i]], c, now); }
    TickedCpuOk(s.tasks, s'.tasks, q, s'.rqs[c], s.events[c], evs, c, now, ph[c], x);
    forall y | 0 <= y < |s.tasks| && s.tasks[y].lastCpu == c
      ensures TaskOk(s'.tasks[y]) && s'.tasks[y].lastCpu == c && Placed(s'.tasks[y], y, s'.rqs[c], s'.events[c])
    {
      assert TaskOk(s.tasks[y]) && Placed(s.tasks[y], y, q, s.events[c]);
      TickedPlaced(s, s', c, now, x, evs, y);
    }
    hide *;
    Assemble(s, s', now, ph, ph[c := Ticked], {c});
  }

  lemma TickedPlaced(s: Sys, s': Sys, c: nat, now: int, x: nat, evs: seq<Event>, y: nat)
    requires WellFormed(s) && c < |s.rqs| && x < |s.tasks| && |s'.tasks| == |s.tasks| && |s'.rqs| == |s.rqs| && |s'.events| == |s.events|
    requires TickedTo(s, s', c, now, x, evs) && y < |s.tasks| && s.tasks[y].lastCpu == c && s.rqs[c].cur == Some(x)
    requires TaskOk(s.tasks[y]) && Placed(s.tasks[y], y, s.rqs[c], s.events[c])
    ensures TaskOk(s'.tasks[y]) && s'.tasks[y].lastCpu == c && Placed(s'.tasks[y], y, s'.rqs[c], s'.events[c])
  {
    hide TaskOk, End, InsertEvent;
    InsertEventHas(s.events[c], Event(x, TaskAwake, End(s'.tasks[x])), y);
  }

  lemma TickedCpuOk(tasks: seq<Task>, tasks': seq<Task>, q: Rq, q': Rq, evs: seq<Event>, evs': seq<Event>,
                    c: nat, now: int, ph: Phase, x: nat)
    requires CpuOk(tasks, q, evs, c, now, ph) && ph.Start? && q.cur == Some(x) && x < |tasks| && x !in q.queue
    requires |tasks'| == |tasks| && tasks' == tasks[x := tasks'[x]] && tasks'[x].lastCpu == c && !tasks'[x].onRq
    requires var t' := tasks'[x];
      && (t'.state == OnProc || ((t'.state == Sleep || t'.state == Completed) && q'.needResched))
      && (t'.state == Sleep ==> End(t') > now + 1)
      && (t'.state != Sleep ==> End(t') == now + 1)
      && q' == q.(needResched := q'.needResched, nrRunnable := q.nrRunnable - (if t'.state == OnProc then 0 else 1))
      && evs' == (if t'.state == Sleep then InsertEvent(evs, Event(x, TaskAwake, End(t'))) else evs)
    ensures CpuOk(tasks', q', evs', c, now, Ticked)
  {
    TickedQueueOk(tasks, tasks', q.queue, c, now, x);
    TickedEventsOk(tasks, tasks', evs, evs', c, now, ph, x);
    hide EventsOk, QueueOk, End;
  }

  lemma TickedQueueOk(tasks: seq<Task>, tasks': seq<Task>, queue: seq<nat>, c: nat, now: int, x: nat)
    requires QueueOk(tasks, queue, c, now) && x < |tasks| == |tasks'| && x !in queue && tasks' == tasks[x := tasks'[x]]
    ensures QueueOk(tasks', queue, c, now)
  {
    hide QueuedOk;
    forall i | 0 <= i < |queue| ensures tasks'[queue[i]] == tasks[queue[i]] { assert queue[i] in queue; }
  }

  lemma TickedEventsOk(tasks: seq<Task>, tasks': seq<Task>, evs: seq<Event>, evs': seq<Event>, c: nat, now: int, ph: Phase, x: nat)
    requires EventsOk(tasks, evs, c, now, ph) && ph.Start? && x < |tasks| == |tasks'| && tasks' == tasks[x := tasks'[x]]
    requires tasks[x].state == OnProc && tasks'[x].lastCpu == c && !tasks'[x].onRq && (tasks'[x].state == Sleep ==> End(tasks'[x]) > now + 1)
    requires evs' == (if tasks'[x].state == Sleep then InsertEvent(evs, Event(x, TaskAwake, End(tasks'[x]))) else evs)
    ensures EventsOk(tasks', evs', c, now, Ticked)
  {
    hide End;
    assert forall i :: 0 <= i < |evs| ==> EventOk(tasks[evs[i].task], evs[i], c) && evs[i].task != x;
    if tasks'[x].state == Sleep {
      InsertEventOk(tasks, tasks', evs, Event(x, TaskAwake, End(tasks'[x])), c, now, ph, Ticked);
    }
  }

  // ---------------------------------------------------------------- events

  /** The clocks of a task that becomes runnable when its event fires. */
  lemma WokenOk(t: Task, step: int, k: nat)
    requires TaskOk(t) && End(t) == step && k < |t.phases|
    requires (t.state == Starting && k == 0) || (t.state == Sleep && k == t.curPhase + 1)
    ensures !PhaseIsIo(k)
    ensures var t' := t.(curPhase := k, ticksLeft := t.phases[k], lastEnqueued := step, state := Runnable);
      TaskOk(t') && End(t') == step
  {
    assert Work(t.phases, k + 1, false) == Work(t.phases, k, false) + t.phases[k];
    if t.state == Sleep {
      assert Work(t.phases, k, false) == Work(t.phases, k - 1, false);
    } else {
      assert Work(t.phases, k, false) == 0;
    }
  }

  /** The clocks of a task that completes when its last I/O phase ends. */
  lemma FinishedOk(t: Task)
    requires TaskOk(t) && t.state == Sleep && t.curPhase + 1 == |t.phases|
    ensures TaskOk(t.(curPhase := t.curPhase + 1, state := Completed))
  {
    assert Work(t.phases, |t.phases|, false) == Work(t.phases, |t.phases| - 1, false);
  }

  lemma TailEventsOk(tasks: seq<Task>, tasks': seq<Task>, evs: seq<Event>, c: nat, now: int, ph: Phase)
    requires evs != [] && EventsOk(tasks, evs, c, now, ph) && |tasks'| == |tasks|
    requires forall y :: 0 <= y < |tasks| && y != evs[0].task && tasks[y].lastCpu == c ==> SameCore(tasks[y], tasks'[y])
    ensures EventsOk(tasks', evs[1..], c, now, ph)
    ensures forall y :: y != evs[0].task ==> (HasEvent(evs[1..], y) <==> HasEvent(evs, y))
  {
    var r := evs[1..];
    assert forall i :: 0 <= i < |r| ==> r[i] == evs[i + 1];
    assert Timeouts(r) == Timeouts(evs)[1..];
    forall i | 0 <= i < |r| ensures r[i].task < |tasks| && EventOk(tasks'[r[i].task], r[i], c) {
      assert EventOk(tasks[evs[i + 1].task], evs[i + 1], c);
    }
    forall y | y != evs[0].task && HasEvent(evs, y) ensures HasEvent(r, y) {
      var i :| 0 <= i < |evs| && evs[i].task == y;
      assert r[i - 1].task == y;
    }
  }

  lemma WokenCpuOk(tasks: seq<Task>, tasks': seq<Task>, q: Rq, q': Rq, evs: seq<Event>, c: nat, now: int, ph: Phase, x: nat, pos: nat)
    requires CpuOk(tasks, q, evs, c, now, ph) && evs != [] && evs[0].task == x && evs[0].timeout == now + 1
    requires x < |tasks| == |tasks'| && pos <= |q.queue|
    requires forall y :: 0 <= y < |tasks| && y != x && tasks[y].lastCpu == c ==> SameCore(tasks[y], tasks'[y])
    requires QueuedOk(tasks'[x], c, now)
    requires q' == q.(queue := InsertAt(q.queue, pos, x), nrRunnable := q.nrRunnable + 1, needResched := q'.needResched)
    requires q.needResched ==> q'.needResched
    ensures CpuOk(tasks', q', evs[1..], c, now, ph)
    ensures forall y :: y in q'.queue <==> y == x || y in q.queue
    ensures q.cur != Some(x)
  {
    assert EventOk(tasks[x], evs[0], c);
    assert x !in q.queue by { assert forall i :: 0 <= i < |q.queue| ==> QueuedOk(tasks[q.queue[i]], c, now); }
    TailEventsOk(tasks, tasks', evs, c, now, ph);
    QueueInsertOk(tasks, tasks', q.queue, pos, x, c, now);
  }

  /** A fired event: x goes from the event list of c to its queue. */
  lemma WokenKeeps(s: Sys, s': Sys, now: int, ph: seq<Phase>, c: nat, x: nat, pos: nat)
    requires SysOk(s, now, ph) && c < |s.rqs| && s.events[c] != []
    requires s.events[c][0].task == x && s.events[c][0].timeout == now + 1
    requires x < |s.tasks| == |s'.tasks| && |s'.rqs| == |s.rqs| && pos <= |s.rqs[c].queue| && !s'.aborted
    requires s'.events == s.events[c := s.events[c][1..]]
    requires forall y :: 0 <= y < |s.tasks| && y != x ==> SameCore(s.tasks[y], s'.tasks[y])
    requires QueuedOk(s'.tasks[x], c, now) && TaskOk(s'.tasks[x])
    requires forall d :: 0 <= d < |s.rqs| && d != c ==> s'.rqs[d] == s.rqs[d]
    requires s'.rqs[c] == s.rqs[c].(queue := InsertAt(s.rqs[c].queue, pos, x), nrRunnable := s.rqs[c].nrRunnable + 1,
                                    needResched := s'.rqs[c].needResched)
    requires s.rqs[c].needResched ==> s'.rqs[c].needResched
    ensures SysOk(s', now, ph)
  {
    hide TaskOk;
    var q, evs := s.rqs[c], s.events[c];
    assert CpuOk(s.tasks, q, evs, c, now, ph[c]);
    WokenCpuOk(s.tasks, s'.tasks, q, s'.rqs[c], evs, c, now, ph[c], x, pos);
    TailEventsOk(s.tasks, s'.tasks, evs, c, now, ph[c]);
    assert EventOk(s.tasks[x], evs[0], c);
    forall y | 0 <= y < |s.tasks| && s.tasks[y].lastCpu == c
      ensures TaskOk(s'.tasks[y]) && s'.tasks[y].lastCpu == c && Placed(s'.tasks[y], y, s'.rqs[c], s'.events[c])
    {
      assert TaskOk(s.tasks[y]) && Placed(s.tasks[y], y, q, evs);
      if y != x { SameCoreTaskOk(s.tasks[y], s'.tasks[y]); }
    }
    Assemble(s, s', now, ph, ph, {c});
  }

  lemma SameCoreTaskOk(a: Task, b: Task)
    requires SameCore(a, b) && TaskOk(a)
    ensures TaskOk(b) && End(b) == End(a)
  {
  }

  /** Firing a due event keeps the invariant: the "IO Phase detected" branches are not taken. */
  lemma FireKeeps(cfg: Config, s: Sys, now: int, ph: seq<Phase>, c: nat)
    requires SysOk(s, now, ph) && c < |s.rqs| && HasDue(s, c, now + 1)
    ensures WellFormed(s) && SysOk(Fire(cfg, s, c, now + 1), now, ph)
  {
    InvWellFormed(s, now, ph);
    assert CpuOk(s.tasks, s.rqs[c], s.events[c], c, now, ph[c]);
    var e := s.events[c][0];
    var x := e.task;
    var t := s.tasks[x];
    assert EventOk(t, e, c) && TaskOk(t);
    var k := if e.kind.NewTask? then 0 else t.curPhase + 1;
    if k < |t.phases| {
      FireWakes(cfg, s, now, ph, c, k);
    } else {
      FireFinishes(cfg, s, now, ph, c);
    }
  }

  /** A task after its event has fired, before it is enqueued. */
  function Woken(t: Task, k: nat, step: int): Task {
    t.(curPhase := k, ticksLeft := PhaseLen(t, k), lastEnqueued := step, state := Runnable)
  }

  lemma FireIsEnqueue(cfg: Config, s: Sys, c: nat, step: int, k: nat)
    requires WellFormed(s) && c < |s.rqs| && s.events[c] != []
    requires var e := s.events[c][0]; var t := s.tasks[e.task];
      && k == (if e.kind.NewTask? then t.curPhase else t.curPhase + 1) && !PhaseIsIo(k)
      && (e.kind.TaskAwake? ==> k < |t.phases|)
    ensures var x := s.events[c][0].task;
      var s1 := s.(events := s.events[c := s.events[c][1..]], tasks := s.tasks[x := Woken(s.tasks[x], k, step)]);
      WellFormed(s1) && Fire(cfg, s, c, step) == DoEnqueue(cfg, s1, x, c, false)
  {
    hide DoEnqueue;
    var e := s.events[c][0];
    var x := e.task;
    if e.kind.TaskAwake? {
      var t := s.tasks[x].(curPhase := k);
      assert s.tasks[x := t][x := Woken(s.tasks[x], k, step)] == s.tasks[x := Woken(s.tasks[x], k, step)];
    }
  }

  lemma RequeuedOk(t: Task, t': Task, c: nat, now: int)
    requires TaskOk(t) && SameCore(t.(onRq := true, lastCpu := c), t')
    ensures TaskOk(t') && End(t') == End(t)
    ensures t.state == Runnable && t.lastEnqueued == End(t) <= now + 1 ==> QueuedOk(t', c, now)
  {
  }

  lemma FireWakes(cfg: Config, s: Sys, now: int, ph: seq<Phase>, c: nat, k: nat)
    requires SysOk(s, now, ph) && WellFormed(s) && c < |s.rqs| && HasDue(s, c, now + 1)
    requires var e := s.events[c][0]; var t := s.tasks[e.task];
      && EventOk(t, e, c) && TaskOk(t) && k < |t.phases|
      && k == (if e.kind.NewTask? then 0 else t.curPhase + 1)
    ensures SysOk(Fire(cfg, s, c, now + 1), now, ph)
  {
    var x := s.events[c][0].task;
    var t := s.tasks[x];
    WokenOk(t, now + 1, k);
    var t' := Woken(t, k, now + 1);
    FireIsEnqueue(cfg, s, c, now + 1, k);
    var s1 := s.(events := s.events[c := s.events[c][1..]], tasks := s.tasks[x := t']);
    FireWakesShape(cfg, s, s1, now, ph, c, x);
  }

  lemma FireWakesShape(cfg: Config, s: Sys, s1: Sys, now: int, ph: seq<Phase>, c: nat, x: nat)
    requires SysOk(s, now, ph) && WellFormed(s1) && c < |s.rqs| && HasDue(s, c, now + 1) && s.events[c][0].task == x
    requires x < |s.tasks| == |s1.tasks|
    requires s1 == s.(events := s.events[c := s.events[c][1..]], tasks := s.tasks[x := s1.tasks[x]])
    requires var t' := s1.tasks[x]; TaskOk(t') && t'.state == Runnable && t'.lastEnqueued == End(t') <= now + 1 && !t'.onRq
    ensures SysOk(DoEnqueue(cfg, s1, x, c, false), now, ph)
  {
    hide TaskOk, EventsInRange, DoEnqueue, CpuOk, Placed, QueuedOk, End;
    var pos := DoEnqueueShape(cfg, s1, x, c, false);
    var s' := DoEnqueue(cfg, s1, x, c, false);
    RequeuedOk(s1.tasks[x], s'.tasks[x], c, now);
    WokenKeeps(s, s', now, ph, c, x, pos);
  }

  lemma FireFinishes(cfg: Config, s: Sys, now: int, ph: seq<Phase>, c: nat)
    requires SysOk(s, now, ph) && WellFormed(s) && c < |s.rqs| && HasDue(s, c, now + 1)
    requires var e := s.events[c][0]; var t := s.tasks[e.task];
      EventOk(t, e, c) && TaskOk(t) && e.kind.TaskAwake? && t.curPhase + 1 >= |t.phases|
    ensures SysOk(Fire(cfg, s, c, now + 1), now, ph)
  {
    var e := s.events[c][0];
    var x := e.task;
    var s' := Fire(cfg, s, c, now + 1);
    FinishedOk(s.tasks[x]);
    var t' := s.tasks[x].(curPhase := s.tasks[x].curPhase + 1, state := Completed);
    assert s' == s.(events := s.events[c := s.events[c][1..]], tasks := s.tasks[x := t']);
    FinishedKeeps(s, s', now, ph, c, x);
  }

  lemma FinishedKeeps(s: Sys, s': Sys, now: int, ph: seq<Phase>, c: nat, x: nat)
    requires SysOk(s, now, ph) && c < |s.rqs| && HasDue(s, c, now + 1) && s.events[c][0].task == x
    requires x < |s.tasks| == |s'.tasks| && s.tasks[x].state == Sleep
    requires s' == s.(events := s.events[c := s.events[c][1..]], tasks := s.tasks[x := s'.tasks[x]])
    requires TaskOk(s'.tasks[x]) && s'.tasks[x].state == Completed && s'.tasks[x].lastCpu == s.tasks[x].lastCpu
    ensures SysOk(s', now, ph)
  {
    hide TaskOk;
    var q, evs := s.rqs[c], s.events[c];
    assert CpuOk(s.tasks, q, evs, c, now, ph[c]);
    assert EventOk(s.tasks[x], evs[0], c);
    TailEventsOk(s.tasks, s'.tasks, evs, c, now, ph[c]);
    assert forall i :: 0 <= i < |q.queue| ==> QueuedOk(s.tasks[q.queue[i]], c, now) && q.queue[i] != x;
    assert q.cur != Some(x);
    assert CpuOk(s'.tasks, q, evs[1..], c, now, ph[c]);
    forall y | 0 <= y < |s.tasks| && s.tasks[y].lastCpu == c
      ensures TaskOk(s'.tasks[y]) && s'.tasks[y].lastCpu == c && Placed(s'.tasks[y], y, s'.rqs[c], s'.events[c])
    {
      assert TaskOk(s.tasks[y]) && Placed(s.tasks[y], y, q, evs);
    }
    Assemble(s, s', now, ph, ph, {c});
  }

  // ---------------------------------------------------------------- migration

  /** The clocks of a migrated task: the time spent on the old queue is charged, up to the next step. */
  lemma MigratedOk(t: Task, t1: Task, src: nat, dst: nat, now: int)
    requires TaskOk(t) && QueuedOk(t, src, now)
    requires SameCore(t.(onRq := true, lastCpu := dst), t1)
    ensures TaskOk(Migrated(t1, src, now)) && QueuedOk(Migrated(t1, src, now), dst, now)
    ensures SameProfile(t, Migrated(t1, src, now))
  {
    hide AddLog, Tiles, Logged, LogEnd, Work;
    AddLogKeeps(t.regs, t.arrival, Runnable, src, t.lastEnqueued, now - t.lastEnqueued + 1);
  }

  /** What a migration does to the stolen task x and to the two CPUs. */
  ghost predicate MovedTo(s: Sys, s': Sys, src: nat, dst: nat, now: int, x: nat, pos: nat)
    requires src < |s.rqs| && dst < |s.rqs| && x < |s.tasks|
  {
    var q, d := s.rqs[src], s.rqs[dst];
    && |s'.tasks| == |s.tasks| && |s'.rqs| == |s.rqs|
    && q.queue != [] && x == q.queue[|q.queue| - 1] && pos <= |d.queue|
    && s'.aborted == s.aborted && s'.events == s.events
    && s'.rqs[src] == q.(queue := q.queue[..|q.queue| - 1], nrRunnable := q.nrRunnable - 1)
    && s'.rqs[dst] == d.(queue := InsertAt(d.queue, pos, x), nrRunnable := d.nrRunnable + 1,
                         needResched := s'.rqs[dst].needResched)
    && (d.needResched ==> s'.rqs[dst].needResched)
    && (forall e :: 0 <= e < |s.rqs| && e != src && e != dst ==> s'.rqs[e] == s.rqs[e])
    && (forall y :: 0 <= y < |s.tasks| && y != x ==> SameCore(s.tasks[y], s'.tasks[y]))
    && TaskOk(s'.tasks[x]) && QueuedOk(s'.tasks[x], dst, now)
    && SameProfile(s.tasks[x], s'.tasks[x])
  }

  lemma MoveShape(cfg: Config, s: Sys, src: nat, dst: nat, now: int, x: nat) returns (pos: nat)
    requires WellFormed(s) && src < |s.rqs| && dst < |s.rqs| && src != dst && s.rqs[src].queue != []
    requires x == s.rqs[src].queue[|s.rqs[src].queue| - 1] && x < |s.tasks|
    requires TaskOk(s.tasks[x]) && QueuedOk(s.tasks[x], src, now)
    ensures MovedTo(s, MoveOneTask(cfg, s, src, dst, now), src, dst, now, x, pos)
  {
    hide DoEnqueue, TaskOk, Migrated, End;
    var t := s.tasks[x];
    var q := s.rqs[src];
    var s1 := s.(tasks := s.tasks[x := t.(onRq := false)],
                 rqs := s.rqs[src := q.(queue := q.queue[..|q.queue| - 1], nrRunnable := q.nrRunnable - 1)]);
    assert WellFormed(s1);
    pos := DoEnqueueShape(cfg, s1, x, dst, false);
    MigratedOk(t, DoEnqueue(cfg, s1, x, dst, false).tasks[x], src, dst, now);
  }

  /** A queue without its last task. */
  lemma DropLastOk(tasks: seq<Task>, tasks': seq<Task>, q: Rq, evs: seq<Event>, c: nat, now: int, ph: Phase, x: nat)
    requires CpuOk(tasks, q, evs, c, now, ph) && q.queue != [] && x == q.queue[|q.queue| - 1] && |tasks'| == |tasks|
    requires forall y :: 0 <= y < |tasks| && y != x && tasks[y].lastCpu == c ==> SameCore(tasks[y], tasks'[y])
    ensures CpuOk(tasks', q.(queue := q.queue[..|q.queue| - 1], nrRunnable := q.nrRunnable - 1), evs, c, now, ph)
    ensures forall y :: y in q.queue && y != x ==> y in q.queue[..|q.queue| - 1]
  {
    assert QueuedOk(tasks[x], c, now);
    var r := q.queue[..|q.queue| - 1];
    assert forall i :: 0 <= i < |r| ==> QueuedOk(tasks[q.queue[i]], c, now) && q.queue[i] != x;
    assert forall i :: 0 <= i < |evs| ==> EventOk(tasks[evs[i].task], evs[i], c);
    assert q.cur != Some(x);
    forall y | y in q.queue && y != x ensures y in r {
      var i :| 0 <= i < |q.queue| && q.queue[i] == y;
      assert r[i] == y;
    }
  }

  lemma ArrivedOk(tasks: seq<Task>, tasks': seq<Task>, q: Rq, q': Rq, evs: seq<Event>, c: nat, now: int, ph: Phase, x: nat, pos: nat)
    requires CpuOk(tasks, q, evs, c, now, ph) && x < |tasks| == |tasks'| && pos <= |q.queue|
    requires tasks[x].state == Runnable && tasks[x].lastCpu != c
    requires forall y :: 0 <= y < |tasks| && y != x && tasks[y].lastCpu == c ==> SameCore(tasks[y], tasks'[y])
    requires QueuedOk(tasks'[x], c, now)
    requires q' == q.(queue := InsertAt(q.queue, pos, x), nrRunnable := q.nrRunnable + 1, needResched := q'.needResched)
    requires q.needResched ==> q'.needResched
    ensures CpuOk(tasks', q', evs, c, now, ph)
    ensures forall y :: y in q'.queue <==> y == x || y in q.queue
  {
    assert forall i :: 0 <= i < |q.queue| ==> QueuedOk(tasks[q.queue[i]], c, now) && q.queue[i] != x;
    assert forall i :: 0 <= i < |evs| ==> EventOk(tasks[evs[i].task], evs[i], c) && evs[i].task != x;
    assert q.cur != Some(x);
    QueueInsertOk(tasks, tasks', q.queue, pos, x, c, now);
  }

  lemma MovedKeeps(s: Sys, s': Sys, now: int, ph: seq<Phase>, src: nat, dst: nat, x: nat, pos: nat)
    requires SysOk(s, now, ph) && src < |s.rqs| && dst < |s.rqs| && src != dst && x < |s.tasks|
    requires MovedTo(s, s', src, dst, now, x, pos)
    ensures SysOk(s', now, ph)
  {
    hide TaskOk, End;
    assert CpuOk(s.tasks, s.rqs[src], s.events[src], src, now, ph[src]);
    assert CpuOk(s.tasks, s.rqs[dst], s.events[dst], dst, now, ph[dst]);
    assert QueuedOk(s.tasks[x], src, now);
    DropLastOk(s.tasks, s'.tasks, s.rqs[src], s.events[src], src, now, ph[src], x);
    ArrivedOk(s.tasks, s'.tasks, s.rqs[dst], s'.rqs[dst], s.events[dst], dst, now, ph[dst], x, pos);
    var touched := {src, dst};
    forall y | 0 <= y < |s.tasks| && s.tasks[y].lastCpu in touched
      ensures TaskOk(s'.tasks[y]) && s'.tasks[y].lastCpu in touched && s'.tasks[y].lastCpu < |s.rqs|
      ensures Placed(s'.tasks[y], y, s'.rqs[s'.tasks[y].lastCpu], s'.events[s'.tasks[y].lastCpu])
    {
      assert TaskOk(s.tasks[y]) && Placed(s.tasks[y], y, s.rqs[s.tasks[y].lastCpu], s.events[s.tasks[y].lastCpu]);
      if y != x { SameCoreTaskOk(s.tasks[y], s'.tasks[y]); }
    }
    Assemble(s, s', now, ph, ph, touched);
  }

  /** When the recheck holds there is a task to steal: `steal_task` does not return null. */
  lemma StealFinds(s: Sys, now: int, ph: seq<Phase>, src: nat, dst: nat) returns (x: nat)
    requires SysOk(s, now, ph) && src < |s.rqs| && dst < |s.rqs|
    requires s.rqs[src].nrRunnable - s.rqs[dst].nrRunnable > 1
    ensures s.rqs[src].queue != [] && x == s.rqs[src].queue[|s.rqs[src].queue| - 1]
    ensures x < |s.tasks| && TaskOk(s.tasks[x]) && QueuedOk(s.tasks[x], src, now)
  {
    hide TaskOk, EventsOk, Placed;
    assert CpuOk(s.tasks, s.rqs[src], s.events[src], src, now, ph[src]);
    assert CpuOk(s.tasks, s.rqs[dst], s.events[dst], dst, now, ph[dst]);
    x := s.rqs[src].queue[|s.rqs[src].queue| - 1];
    assert TaskOk(s.tasks[x]) && QueuedOk(s.tasks[x], src, now);
  }

  /** A migration keeps the invariant. */
  lemma RebalanceKeeps(cfg: Config, s: Sys, now: int, ph: seq<Phase>, src: nat, dst: nat)
    requires SysOk(s, now, ph) && src < |s.rqs| && dst < |s.rqs| && src != dst
    ensures WellFormed(s) && SysOk(Rebalance(cfg, s, src, dst, now), now, ph)
  {
    InvWellFormed(s, now, ph);
    hide MoveOneTask, MovedTo, CpuOk, Placed, TaskOk, QueuedOk;
    if s.rqs[src].nrRunnable - s.rqs[dst].nrRunnable > 1 {
      var x := StealFinds(s, now, ph, src, dst);
      var pos := MoveShape(cfg, s, src, dst, now, x);
      MovedKeeps(s, MoveOneTask(cfg, s, src, dst, now), now, ph, src, dst, x, pos);
    }
  }

  // ---------------------------------------------------------------- schedule

  /** The queue that the next task is picked from. */
  function PickFrom(s: Sys, c: nat, pos: nat): seq<nat>
    requires c < |s.rqs| && pos <= |s.rqs[c].queue|
  {
    var q := s.rqs[c];
    if Running(s.tasks, q.cur) then InsertAt(q.queue, pos, q.cur.value) else q.queue
  }

  /** The tasks after `schedule`, up to the class-private fields. */
  ghost predicate SwitchedTasks(tasks: seq<Task>, tasks': seq<Task>, prev: Option<nat>, next: Option<nat>, c: nat, now: int) {
    && |tasks'| == |tasks|
    && (prev.Some? ==> prev.value < |tasks|) && (next.Some? ==> next.value < |tasks|)
    && (forall y :: 0 <= y < |tasks| && prev != Some(y) && next != Some(y) ==> SameCore(tasks[y], tasks'[y]))
    && (prev.Some? && prev == next ==> SameCore(tasks[prev.value].(onRq := false), tasks'[prev.value]))
    && (prev.Some? && prev != next ==>
          SameCore(if Running(tasks, prev) then tasks[prev.value].(onRq := true, state := Runnable, lastEnqueued := now + 1)
                   else tasks[prev.value], tasks'[prev.value]))
    && (next.Some? && prev != next ==> SameCore(SwitchIn(tasks[next.value].(onRq := false), c, now), tasks'[next.value]))
  }

  /** `schedule` when a new task has to be picked: the head of the queue, current included. */
  ghost predicate SwitchedTo(s: Sys, s': Sys, c: nat, now: int, pos: nat)
    requires c < |s.rqs|
  {
    var q := s.rqs[c];
    && |s'.rqs| == |s.rqs|
    && pos <= |q.queue|
    && s'.aborted == s.aborted && s'.events == s.events
    && (forall d :: 0 <= d < |s.rqs| && d != c ==> s'.rqs[d] == s.rqs[d])
    && var from := PickFrom(s, c, pos);
       var next := if from == [] then None else Some(from[0]);
       && s'.rqs[c] == q.(queue := if from == [] then [] else from[1..], cur := next, needResched := false)
       && SwitchedTasks(s.tasks, s'.tasks, q.cur, next, c, now)
  }

  lemma RequeueShape(cfg: Config, s: Sys, c: nat) returns (pos: nat)
    requires WellFormed(s) && c < |s.rqs|
    requires Running(s.tasks, s.rqs[c].cur) ==> !s.tasks[s.rqs[c].cur.value].onRq
    ensures Running(s.tasks, s.rqs[c].cur) ==> pos == ClassPos(cfg, s, s.rqs[c].cur.value, c)
    ensures var r := Requeue(cfg, s, c); var q := s.rqs[c];
      && |r.tasks| == |s.tasks| && |r.rqs| == |s.rqs| && pos <= |q.queue|
      && r.aborted == s.aborted && r.events == s.events
      && r.rqs[c].(needResched := q.needResched) == q.(queue := PickFrom(s, c, pos))
      && (forall d :: 0 <= d < |s.rqs| && d != c ==> r.rqs[d] == s.rqs[d])
      && (forall y :: 0 <= y < |s.tasks| && !(Running(s.tasks, q.cur) && q.cur == Some(y)) ==> SameCore(s.tasks[y], r.tasks[y]))
      && (Running(s.tasks, q.cur) ==> SameCore(s.tasks[q.cur.value].(onRq := true), r.tasks[q.cur.value]))
  {
    hide DoEnqueue, EventsInRange;
    var q := s.rqs[c];
    if Running(s.tasks, q.cur) {
      pos := DoEnqueueShape(cfg, s, q.cur.value, c, true);
    } else {
      pos := 0;
    }
  }

  /** The tasks after the pick and before the context switch. */
  ghost predicate PickedTasks(tasks: seq<Task>, tasks2: seq<Task>, prev: Option<nat>, next: Option<nat>) {
    && |tasks2| == |tasks|
    && (prev.Some? ==> prev.value < |tasks|) && (next.Some? ==> next.value < |tasks|)
    && (forall y :: 0 <= y < |tasks| && prev != Some(y) && next != Some(y) ==> SameCore(tasks[y], tasks2[y]))
    && (prev.Some? && prev != next ==>
          SameCore(if Running(tasks, prev) then tasks[prev.value].(onRq := true) else tasks[prev.value], tasks2[prev.value]))
    && (next.Some? ==> SameCore(tasks[next.value].(onRq := false), tasks2[next.value]))
  }

  lemma SwitchShape(tasks: seq<Task>, tasks2: seq<Task>, prev: Option<nat>, next: Option<nat>, c: nat, now: int)
    requires PickedTasks(tasks, tasks2, prev, next)
    ensures SwitchedTasks(tasks, if prev == next then tasks2 else Switch(tasks2, prev, next, c, now), prev, next, c, now)
  {
    hide AddLog;
  }

  lemma PickShape(cfg: Config, s: Sys, c: nat) returns (pos: nat)
    requires WellFormed(s) && c < |s.rqs|
    requires s.rqs[c].cur.Some? ==> !s.tasks[s.rqs[c].cur.value].onRq
    ensures Running(s.tasks, s.rqs[c].cur) ==> pos == ClassPos(cfg, s, s.rqs[c].cur.value, c)
    ensures var s2 := PickNext(Requeue(cfg, s, c), c); var q := s.rqs[c];
      && pos <= |q.queue| && |s2.rqs| == |s.rqs|
      && s2.aborted == s.aborted && s2.events == s.events
      && (forall d :: 0 <= d < |s.rqs| && d != c ==> s2.rqs[d] == s.rqs[d])
      && var from := PickFrom(s, c, pos);
         var next := if from == [] then None else Some(from[0]);
         && s2.rqs[c].(needResched := false) == q.(queue := if from == [] then [] else from[1..], cur := next, needResched := false)
         && PickedTasks(s.tasks, s2.tasks, q.cur, next)
  {
    hide Requeue, EventsInRange, PickFrom;
    pos := RequeueShape(cfg, s, c);
    assert Requeue(cfg, s, c).rqs[c].queue == PickFrom(s, c, pos);
    assert PickFrom(s, c, pos) != [] ==> PickFrom(s, c, pos)[0] < |s.tasks|;
    PickFromRunning(s, c, pos);
  }

  lemma PickFromRunning(s: Sys, c: nat, pos: nat)
    requires c < |s.rqs| && pos <= |s.rqs[c].queue|
    ensures Running(s.tasks, s.rqs[c].cur) ==> PickFrom(s, c, pos) != []
  {
  }

  lemma ScheduleShape(cfg: Config, s: Sys, c: nat, now: int) returns (pos: nat)
    requires WellFormed(s) && c < |s.rqs| && (s.rqs[c].needResched || s.rqs[c].cur.None?)
    requires s.rqs[c].cur.Some? ==> !s.tasks[s.rqs[c].cur.value].onRq
    ensures SwitchedTo(s, Schedule(cfg, s, c, now), c, now, pos)
    ensures Running(s.tasks, s.rqs[c].cur) ==> pos == ClassPos(cfg, s, s.rqs[c].cur.value, c)
  {
    hide PickNext, Requeue, EventsInRange, PickFrom, Switch, PickedTasks, SwitchedTasks;
    pos := PickShape(cfg, s, c);
    var s2 := PickNext(Requeue(cfg, s, c), c);
    SwitchShape(s.tasks, s2.tasks, s.rqs[c].cur, s2.rqs[c].cur, c, now);
  }

  /** The clocks of the task that is switched in. */
  lemma SwitchInOk(t: Task, t': Task, c: nat, now: int)
    requires TaskOk(t) && (QueuedOk(t, c, now))
    requires SameCore(SwitchIn(t.(onRq := false), c, now), t')
    ensures TaskOk(t') && t'.state == OnProc && End(t') == now + 1 && t'.lastCpu == c && !t'.onRq
  {
    hide AddLog, Tiles, Logged, LogEnd, Work;
    AddLogKeeps(t.regs, t.arrival, Runnable, c, t.lastEnqueued, now - t.lastEnqueued + 1);
  }

  lemma SwitchOutOk(t: Task, t': Task, c: nat, now: int)
    requires TaskOk(t) && t.state == OnProc && End(t) == now + 1 && t.lastCpu == c
    requires SameCore(t.(onRq := true, state := Runnable, lastEnqueued := now + 1), t')
    ensures TaskOk(t') && QueuedOk(t', c, now)
  {
  }

  /** Every task of the CPU after the switch: its clocks, and where it is. */
  ghost predicate SwitchedTaskOk(t: Task, t': Task, y: nat, c: nat, now: int, from: seq<nat>, next: Option<nat>) {
    && TaskOk(t') && t'.lastCpu == c
    && (next == Some(y) ==> t'.state == OnProc && End(t') == now + 1 && !t'.onRq)
    && (next != Some(y) && y in from ==> QueuedOk(t', c, now))
    && (y !in from ==> SameCore(t, t'))
  }

  lemma PickFromOk(tasks: seq<Task>, q: Rq, c: nat, now: int, from: seq<nat>, pos: nat)
    requires QueueOk(tasks, q.queue, c, now) && pos <= |q.queue| && (q.cur.Some? ==> q.cur.value < |tasks|)
    requires from == if Running(tasks, q.cur) then InsertAt(q.queue, pos, q.cur.value) else q.queue
    ensures NoDup(from)
    ensures forall y :: y in from <==> y in q.queue || (Running(tasks, q.cur) && q.cur == Some(y))
    ensures forall y :: y in q.queue ==> y < |tasks| && QueuedOk(tasks[y], c, now)
    ensures forall i :: 0 <= i < |from| ==> from[i] in from
  {
    assert forall i :: 0 <= i < |q.queue| ==> QueuedOk(tasks[q.queue[i]], c, now);
    if Running(tasks, q.cur) {
      InsertMembers(q.queue, pos, q.cur.value);
      InsertKeepsNoDup(q.queue, pos, q.cur.value);
    }
  }

  lemma SwitchedEachOk(tasks: seq<Task>, tasks': seq<Task>, q: Rq, evs: seq<Event>, c: nat, now: int, ph: Phase,
                       from: seq<nat>, next: Option<nat>, pos: nat, y: nat)
    requires CpuOk(tasks, q, evs, c, now, ph) && EventsDone(ph) && pos <= |q.queue|
    requires from == if Running(tasks, q.cur) then InsertAt(q.queue, pos, q.cur.value) else q.queue
    requires next == (if from == [] then None else Some(from[0]))
    requires SwitchedTasks(tasks, tasks', q.cur, next, c, now)
    requires y < |tasks| && TaskOk(tasks[y]) && tasks[y].lastCpu == c
    ensures SwitchedTaskOk(tasks[y], tasks'[y], y, c, now, from, next)
  {
    PickFromOk(tasks, q, c, now, from, pos);
    hide AddLog, SwitchIn, QueueOk, EventsOk, TaskOk;
    var t, t' := tasks[y], tasks'[y];
    if next == Some(y) {
      if q.cur == next {
        OnProcStays(t, t', c, now);
      } else {
        SwitchInOk(t, t', c, now);
      }
    } else if q.cur == Some(y) {
      if Running(tasks, q.cur) {
        SwitchOutOk(t, t', c, now);
      } else {
        SameCoreTaskOk(t, t');
      }
    } else {
      SameCoreTaskOk(t, t');
    }
  }

  lemma OnProcStays(t: Task, t': Task, c: nat, now: int)
    requires TaskOk(t) && t.state == OnProc && End(t) == now + 1 && t.lastCpu == c && SameCore(t.(onRq := false), t')
    ensures TaskOk(t') && t'.state == OnProc && End(t') == now + 1 && t'.lastCpu == c && !t'.onRq
  {
  }

  lemma SwitchedEventsOk(tasks: seq<Task>, tasks': seq<Task>, evs: seq<Event>, c: nat, now: int, ph: Phase, from: seq<nat>)
    requires EventsOk(tasks, evs, c, now, ph) && EventsDone(ph) && |tasks'| == |tasks|
    requires forall y :: y in from ==> y < |tasks| && (tasks[y].state == Runnable || tasks[y].state == OnProc)
    requires forall y :: 0 <= y < |tasks| && tasks[y].lastCpu == c && y !in from ==> SameCore(tasks[y], tasks'[y])
    ensures EventsOk(tasks', evs, c, now, Done)
  {
    forall i | 0 <= i < |evs| ensures EventOk(tasks'[evs[i].task], evs[i], c) {
      assert EventOk(tasks[evs[i].task], evs[i], c);
      assert evs[i].task !in from;
    }
  }

  lemma SwitchedQueueOk(tasks: seq<Task>, tasks': seq<Task>, c: nat, now: int, from: seq<nat>)
    requires NoDup(from) && from != [] && |tasks'| == |tasks|
    requires forall i :: 0 <= i < |from| ==> from[i] < |tasks|
    requires forall i :: 1 <= i < |from| ==> QueuedOk(tasks'[from[i]], c, now)
    ensures QueueOk(tasks', from[1..], c, now)
  {
    var r := from[1..];
    assert forall i :: 0 <= i < |r| ==> r[i] == from[i + 1];
  }

  lemma SwitchedCpuOk(tasks: seq<Task>, tasks': seq<Task>, q: Rq, q': Rq, evs: seq<Event>, c: nat, now: int, ph: Phase,
                      from: seq<nat>, next: Option<nat>, pos: nat)
    requires CpuOk(tasks, q, evs, c, now, ph) && EventsDone(ph) && pos <= |q.queue| && |tasks'| == |tasks|
    requires from == if Running(tasks, q.cur) then InsertAt(q.queue, pos, q.cur.value) else q.queue
    requires next == (if from == [] then None else Some(from[0]))
    requires q' == q.(queue := if from == [] then [] else from[1..], cur := next, needResched := false)
    requires forall y :: 0 <= y < |tasks| && tasks[y].lastCpu == c ==>
      SwitchedTaskOk(tasks[y], tasks'[y], y, c, now, from, next)
    ensures CpuOk(tasks', q', evs, c, now, Done)
  {
    hide TaskOk, EventsOk, End, QueueOk, CurrentOk;
    FromTasks(tasks, q, evs, c, now, ph, from, pos);
    SwitchedEventsOk(tasks, tasks', evs, c, now, ph, from);
    if from == [] {
      EmptyQueueOk(tasks', c, now);
    } else {
      forall i | 1 <= i < |from| ensures QueuedOk(tasks'[from[i]], c, now) {
        assert from[i] in from && from[i] != from[0];
        assert SwitchedTaskOk(tasks[from[i]], tasks'[from[i]], from[i], c, now, from, next);
      }
      SwitchedQueueOk(tasks, tasks', c, now, from);
      assert from[0] in from;
      SwitchedCurrentOk(tasks[from[0]], tasks'[from[0]], q', c, now, from);
    }
  }

  lemma FromTasks(tasks: seq<Task>, q: Rq, evs: seq<Event>, c: nat, now: int, ph: Phase, from: seq<nat>, pos: nat)
    requires CpuOk(tasks, q, evs, c, now, ph) && EventsDone(ph) && pos <= |q.queue|
    requires from == if Running(tasks, q.cur) then InsertAt(q.queue, pos, q.cur.value) else q.queue
    ensures NoDup(from) && forall i :: 0 <= i < |from| ==> from[i] < |tasks|
    ensures forall y :: y in from ==> y < |tasks| && tasks[y].lastCpu == c && (tasks[y].state == Runnable || tasks[y].state == OnProc)
    ensures |from| == q.nrRunnable
  {
    hide EventsOk, End, TaskOk;
    PickFromOk(tasks, q, c, now, from, pos);
  }

  lemma EmptyQueueOk(tasks: seq<Task>, c: nat, now: int)
    ensures QueueOk(tasks, [], c, now)
  {
  }

  lemma SwitchedCurrentOk(t: Task, t': Task, q': Rq, c: nat, now: int, from: seq<nat>)
    requires from != [] && SwitchedTaskOk(t, t', from[0], c, now, from, Some(from[0]))
    ensures CurrentOk(t', q', c, now, Done) && t'.state == OnProc
  {
    hide TaskOk, End;
  }

  lemma SwitchedKeeps(s: Sys, s': Sys, now: int, ph: seq<Phase>, c: nat, pos: nat)
    requires SysOk(s, now, ph) && c < |s.rqs| && EventsDone(ph[c])
    requires SwitchedTo(s, s', c, now, pos)
    ensures SysOk(s', now, ph[c := Done])
  {
    hide TaskOk, SwitchedTasks, End;
    var q, evs := s.rqs[c], s.events[c];
    var from := PickFrom(s, c, pos);
    var next := if from == [] then None else Some(from[0]);
    assert CpuOk(s.tasks, q, evs, c, now, ph[c]);
    PickFromOk(s.tasks, q, c, now, from, pos);
    SwitchedFrame(s.tasks, s'.tasks, q, next, c, now);
    forall y | 0 <= y < |s.tasks| && s.tasks[y].lastCpu == c
      ensures SwitchedTaskOk(s.tasks[y], s'.tasks[y], y, c, now, from, next)
      ensures TaskOk(s'.tasks[y]) && s'.tasks[y].lastCpu == c && Placed(s'.tasks[y], y, s'.rqs[c], s'.events[c])
    {
      assert TaskOk(s.tasks[y]) && Placed(s.tasks[y], y, q, evs);
      SwitchedEachOk(s.tasks, s'.tasks, q, evs, c, now, ph[c], from, next, pos, y);
      SwitchedPlaced(s.tasks[y], s'.tasks[y], y, q, s'.rqs[c], evs, c, now, from, next);
    }
    SwitchedCpuOk(s.tasks, s'.tasks, q, s'.rqs[c], evs, c, now, ph[c], from, next, pos);
    Assemble(s, s', now, ph, ph[c := Done], {c});
  }

  lemma SwitchedPlaced(t: Task, t': Task, y: nat, q: Rq, q': Rq, evs: seq<Event>, c: nat, now: int, from: seq<nat>, next: Option<nat>)
    requires Placed(t, y, q, evs) && SwitchedTaskOk(t, t', y, c, now, from, next)
    requires (t.state == Runnable || t.state == OnProc) ==> y in from
    requires next == (if from == [] then None else Some(from[0]))
    requires q'.queue == (if from == [] then [] else from[1..]) && q'.cur == next
    ensures Placed(t', y, q', evs)
  {
    hide TaskOk;
    if y in from && next != Some(y) {
      var i :| 0 <= i < |from| && from[i] == y;
      assert q'.queue[i - 1] == y;
    }
  }

  lemma SwitchedFrame(tasks: seq<Task>, tasks': seq<Task>, q: Rq, next: Option<nat>, c: nat, now: int)
    requires SwitchedTasks(tasks, tasks', q.cur, next, c, now)
    requires q.cur.Some? ==> tasks[q.cur.value].lastCpu == c
    requires next.Some? ==> tasks[next.value].lastCpu == c
    ensures |tasks'| == |tasks|
    ensures forall x :: 0 <= x < |tasks| && tasks[x].lastCpu != c ==> SameCore(tasks[x], tasks'[x])
  {
  }

  lemma ScheduleKeeps(cfg: Config, s: Sys, now: int, ph: seq<Phase>, c: nat)
    requires SysOk(s, now, ph) && c < |s.rqs| && EventsDone(ph[c])
    ensures WellFormed(s) && SysOk(Schedule(cfg, s, c, now), now, ph[c := Done])
  {
    InvWellFormed(s, now, ph);
    hide SwitchedTo, Requeue, PickNext, Switch, TaskOk, End, QueueOk, EventsOk, Placed;
    var q := s.rqs[c];
    var s' := Schedule(cfg, s, c, now);
    assert CpuOk(s.tasks, q, s.events[c], c, now, ph[c]);
    if q.needResched || q.cur.None? {
      var pos := ScheduleShape(cfg, s, c, now);
      SwitchedKeeps(s, s', now, ph, c, pos);
    } else {
      assert s' == s by { assert s.rqs[c := q] == s.rqs; }
      assert CpuOk(s.tasks, q, s.events[c], c, now, Done) by { EventsPhase(s.tasks, s.events[c], c, now, ph[c], Done); }
      Assemble(s, s', now, ph, ph[c := Done], {c});
    }
  }

  lemma EventsPhase(tasks: seq<Task>, evs: seq<Event>, c: nat, now: int, ph: Phase, ph': Phase)
    requires EventsOk(tasks, evs, c, now, ph) && EventsDone(ph) == EventsDone(ph')
    ensures EventsOk(tasks, evs, c, now, ph')
  {
  }
}
