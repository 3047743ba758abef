/** What no section changes: task profiles, completed tasks, and the due time of load balancing. */
module SchedEvolves {
  import opened Basics
  import opened SchedTypes
  import opened SchedSteps
  import opened SchedClocks
  import opened SchedInvariant
  import opened SchedKeeps

  ghost predicate Evolves(s: Sys, s': Sys, now: int) {
    && |s'.tasks| == |s.tasks| && |s'.rqs| == |s.rqs|
    && (forall x :: 0 <= x < |s.tasks| ==> EvolvesTask(s.tasks[x], s'.tasks[x], now))
    && (forall d :: 0 <= d < |s.rqs| ==> s'.rqs[d].nextLb == s.rqs[d].nextLb)
  }

  lemma SameCoreEvolves(t: Task, t': Task, now: int)
    requires SameCore(t, t')
    ensures EvolvesTask(t, t', now)
  {
  }

  lemma TickedProfile(cfg: Config, t: Task, c: nat, now: int)
    ensures SameProfile(t, TickedTask(cfg, t, c, now))
  {
    hide AddLog;
  }

  lemma TickEvolves(cfg: Config, s: Sys, now: int, ph: seq<Phase>, c: nat)
    requires SysOk(s, now, ph) && WellFormed(s) && c < |s.rqs| && ph[c].Start?
    ensures Evolves(s, Tick(cfg, s, c, now), now)
  {
    hide TaskOk, End, Charge, Leave, LeavesIntoCpuPhase, EventsInRange, InsertEvent, EventsOk, QueueOk, Placed;
    assert CpuOk(s.tasks, s.rqs[c], s.events[c], c, now, ph[c]);
    if s.rqs[c].cur.Some? {
      var x := s.rqs[c].cur.value;
      TickedTaskOk(cfg, s.tasks[x], c, now);
      TickedProfile(cfg, s.tasks[x], c, now);
      assert Tick(cfg, s, c, now).tasks == s.tasks[x := TickedTask(cfg, s.tasks[x], c, now)];
    }
    forall y | 0 <= y < |s.tasks| && s.rqs[c].cur != Some(y)
      ensures EvolvesTask(s.tasks[y], Tick(cfg, s, c, now).tasks[y], now)
    {
      SameCoreEvolves(s.tasks[y], s.tasks[y], now);
    }
  }

  lemma EnqueueEvolves(cfg: Config, s: Sys, s1: Sys, now: int, x: nat, c: nat)
    requires WellFormed(s) && WellFormed(s1) && c < |s.rqs| && x < |s.tasks| == |s1.tasks| && s1.rqs == s.rqs
    requires s1.tasks == s.tasks[x := s1.tasks[x]] && !s1.tasks[x].onRq && s1.tasks[x].state == Runnable
    requires SameProfile(s.tasks[x], s1.tasks[x]) && s.tasks[x].state != Completed
    ensures Evolves(s, DoEnqueue(cfg, s1, x, c, false), now)
  {
    hide DoEnqueue, End;
    var pos := DoEnqueueShape(cfg, s1, x, c, false);
  }

  lemma FireEvolves(cfg: Config, s: Sys, now: int, ph: seq<Phase>, c: nat)
    requires SysOk(s, now, ph) && WellFormed(s) && c < |s.rqs| && HasDue(s, c, now + 1)
    ensures Evolves(s, Fire(cfg, s, c, now + 1), now)
  {
    hide DoEnqueue, QueueOk, Placed, Tiles, LogEnd, Logged, Work, EventsInRange;
    var e := s.events[c][0];
    var x := e.task;
    var t := s.tasks[x];
    assert CpuOk(s.tasks, s.rqs[c], s.events[c], c, now, ph[c]);
    assert EventOk(t, e, c) && TaskOk(t);
    var k := if e.kind.NewTask? then 0 else t.curPhase + 1;
    if k < |t.phases| {
      WokenOk(t, now + 1, k);
      FireIsEnqueue(cfg, s, c, now + 1, k);
      var s1 := s.(events := s.events[c := s.events[c][1..]], tasks := s.tasks[x := Woken(t, k, now + 1)]);
      EnqueueEvolves(cfg, s, s1, now, x, c);
    } else {
      var t' := t.(curPhase := t.curPhase + 1, state := Completed);
      assert Fire(cfg, s, c, now + 1).tasks == s.tasks[x := t'];
      assert EvolvesTask(t, t', now);
    }
  }

  lemma RebalanceEvolves(cfg: Config, s: Sys, now: int, ph: seq<Phase>, src: nat, dst: nat)
    requires SysOk(s, now, ph) && WellFormed(s) && src < |s.rqs| && dst < |s.rqs| && src != dst
    ensures Evolves(s, Rebalance(cfg, s, src, dst, now), now)
  {
    hide TaskOk, End, MoveOneTask, EventsInRange, CpuOk, Placed, AddLog;
    var s' := Rebalance(cfg, s, src, dst, now);
    if s.rqs[src].nrRunnable - s.rqs[dst].nrRunnable > 1 {
      var x := StealFinds(s, now, ph, src, dst);
      var pos := MoveShape(cfg, s, src, dst, now, x);
      assert forall d :: 0 <= d < |s.rqs| ==> s'.rqs[d].nextLb == s.rqs[d].nextLb;
    }
    forall y | 0 <= y < |s.tasks| ensures EvolvesTask(s.tasks[y], s'.tasks[y], now) {
      if SameCore(s.tasks[y], s'.tasks[y]) { SameCoreEvolves(s.tasks[y], s'.tasks[y], now); }
    }
  }

  lemma SwitchedEvolves(tasks: seq<Task>, tasks': seq<Task>, q: Rq, next: Option<nat>, c: nat, now: int, y: nat)
    requires SwitchedTasks(tasks, tasks', q.cur, next, c, now) && y < |tasks|
    requires next.Some? ==> tasks[next.value].state != Completed
    ensures EvolvesTask(tasks[y], tasks'[y], now)
  {
    hide AddLog;
  }

  lemma ScheduleEvolves(cfg: Config, s: Sys, now: int, ph: seq<Phase>, c: nat)
    requires SysOk(s, now, ph) && WellFormed(s) && c < |s.rqs| && EventsDone(ph[c])
    ensures Evolves(s, Schedule(cfg, s, c, now), now)
  {
    hide Requeue, PickNext, Switch, TaskOk, End, EventsOk, Placed, SwitchedTasks, EvolvesTask;
    var q := s.rqs[c];
    assert CpuOk(s.tasks, q, s.events[c], c, now, ph[c]);
    if q.needResched || q.cur.None? {
      var pos := ScheduleShape(cfg, s, c, now);
      var from := PickFrom(s, c, pos);
      PickFromOk(s.tasks, q, c, now, from, pos);
      var next := if from == [] then None else Some(from[0]);
      forall y | 0 <= y < |s.tasks| ensures EvolvesTask(s.tasks[y], Schedule(cfg, s, c, now).tasks[y], now) {
        assert next.Some? ==> next.value in from;
        SwitchedEvolves(s.tasks, Schedule(cfg, s, c, now).tasks, q, next, c, now, y);
      }
    } else {
      forall y | 0 <= y < |s.tasks| ensures EvolvesTask(s.tasks[y], s.tasks[y], now) {
        SameCoreEvolves(s.tasks[y], s.tasks[y], now);
      }
    }
  }
}
