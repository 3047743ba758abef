/** When the flag that puts a task ahead of its equals is set, in every run of a sorted class. */
module SchedFlags {
  import opened Basics
  import opened SchedTypes
  import opened SchedSteps
  import opened SchedClocks
  import opened SchedInvariant
  import opened SchedKeeps
  import opened SchedBalance
  import opened SchedRuns
  import opened SchedSlices
  import opened SchedHistory

  /** Task x in state t, on a CPU with run queue q in phase p: the flag is set exactly if x has been beaten since its last
      enqueue; unless it is doomed, a beaten task is running and about to be put back; and it is doomed exactly if one
      of the beats was late. */
  ghost predicate FlagOk(h: seq<Enq>, x: nat, t: Task, q: Rq, p: Phase) {
    && (t.insertFront <==> Beaten(h, x))
    && (Beaten(h, x) && !Doomed(t, p) ==> t.state.OnProc? && q.cur == Some(x) && q.needResched)
    && (Beaten(h, x) ==> (LateBeaten(h, x) <==> Doomed(t, p)))
    && LateSame(h, x, Again(t))
    && Spent(t)
  }

  predicate Spent(t: Task) {
    t.state.Sleep? || t.state.Completed? ==> t.ticksLeft == 0
  }

  ghost predicate FlagsOk(h: seq<Enq>, s: Sys, ph: seq<Phase>) {
    && |ph| == |s.rqs|
    && forall x :: 0 <= x < |s.tasks| ==>
         s.tasks[x].lastCpu < |s.rqs| && FlagOk(h, x, s.tasks[x], s.rqs[s.tasks[x].lastCpu], ph[s.tasks[x].lastCpu])
  }

  lemma FlagFrame(h: seq<Enq>, h': seq<Enq>, x: nat, t: Task, t': Task, q: Rq, q': Rq, p: Phase, p': Phase)
    requires FlagOk(h, x, t, q, p) && t'.insertFront == t.insertFront && Spent(t')
    requires Doomed(t', p') == Doomed(t, p) && Again(t') == Again(t)
    requires t.state.OnProc? && !Doomed(t, p) && q.cur == Some(x) && q.needResched ==>
      t'.state.OnProc? && q'.cur == Some(x) && q'.needResched
    requires Beaten(h', x) == Beaten(h, x) && LateBeaten(h', x) == LateBeaten(h, x)
    requires LateSame(h', x, Again(t)) == LateSame(h, x, Again(t))
    ensures FlagOk(h', x, t', q', p')
  {
    hide Beaten, LateBeaten, LateSame, Doomed, Again;
  }

  /** A task without the flag that has not been beaten. */
  lemma FlagClear(h: seq<Enq>, x: nat, t: Task, q: Rq, p: Phase)
    requires !Beaten(h, x) && !t.insertFront && Spent(t)
    ensures FlagOk(h, x, t, q, p)
  {
    hide Beaten, LateBeaten, LateSame, Doomed, Again;
    Unbeaten(h, x, Again(t));
  }

  /** A waiting task has not been beaten. */
  lemma WaitingClear(h: seq<Enq>, x: nat, t: Task, q: Rq, p: Phase)
    requires FlagOk(h, x, t, q, p) && (t.state.Runnable? || t.state.Starting?)
    ensures !Beaten(h, x) && !t.insertFront
  {
    hide Beaten, LateBeaten, LateSame, Again;
  }

  /** An enqueue without a victim leaves the record of the other tasks alone. */
  lemma NoVictim(h: seq<Enq>, e: Enq, x: nat)
    requires e.task != x && e.beaten != Some(x)
    ensures var h' := h + [e];
      && Beaten(h', x) == Beaten(h, x) && LateBeaten(h', x) == LateBeaten(h, x)
      && (forall again :: LateSame(h', x, again) == LateSame(h, x, again))
  {
    OneEnq(h, e, x);
  }

  // ---------------------------------------------------------------- enqueueing

  lemma EnqueueFlags(cfg: Config, s: Sys, x: nat, c: nat, runnable: bool)
    requires WellFormed(s) && x < |s.tasks| && c < |s.rqs| && !s.tasks[x].onRq && SortedClass(cfg.policy)
    requires runnable || s.rqs[c].cur != Some(x)
    ensures var r := DoEnqueue(cfg, s, x, c, runnable); var hit := !runnable && Preempts(cfg, s.tasks, s.rqs[c].cur, s.tasks[x]);
      && !r.tasks[x].insertFront
      && (forall y :: 0 <= y < |s.tasks| && y != x ==>
            r.tasks[y].insertFront == (s.tasks[y].insertFront || (hit && s.rqs[c].cur == Some(y))))
      && (hit ==> r.rqs[c].needResched)
  {
    hide EventsInRange, QueuePos, QueueKeys;
  }

  /** What an enqueue that is not made by `schedule` does to flags and requests: the newcomer x has none, and the current
      task of CPU c gets one if it is beaten. */
  ghost predicate EnqueuedTo(cfg: Config, s: Sys, s': Sys, c: nat, x: nat, t: Task)
    requires WellFormed(s) && c < |s.rqs|
  {
    var hit := Preempts(cfg, s.tasks, s.rqs[c].cur, t);
    && |s'.tasks| == |s.tasks| && |s'.rqs| == |s.rqs| && x < |s.tasks| && s.rqs[c].cur != Some(x)
    && s'.tasks[x].state.Runnable? && !s'.tasks[x].insertFront && s'.tasks[x].lastCpu < |s.rqs|
    && (forall y :: 0 <= y < |s.tasks| && y != x ==>
          SameCore(s.tasks[y], s'.tasks[y])
          && s'.tasks[y].insertFront == (s.tasks[y].insertFront || (hit && s.rqs[c].cur == Some(y))))
    && (forall d :: 0 <= d < |s.rqs| ==> s'.rqs[d].cur == s.rqs[d].cur && (s.rqs[d].needResched ==> s'.rqs[d].needResched))
    && (hit ==> s'.rqs[c].needResched)
  }

  lemma EnqueuedFlags(cfg: Config, h: seq<Enq>, s: Sys, s': Sys, now: int, ph: seq<Phase>, c: nat, x: nat, t: Task)
    requires FlagsOk(h, s, ph) && SysOk(s, now, ph) && WellFormed(s) && c < |s.rqs| && EnqueuedTo(cfg, s, s', c, x, t)
    ensures FlagsOk(h + [NewEnq(cfg, s, ph, c, x, t)], s', ph)
  {
    hide SysOk, EnqueuedTo, FlagOk, WellFormed, NewEnq, Beaten, LateBeaten, LateSame, Doomed, Again;
    EnqueuedBasics(cfg, s, s', c, x, t);
    var h' := h + [NewEnq(cfg, s, ph, c, x, t)];
    forall y | 0 <= y < |s.tasks|
      ensures s'.tasks[y].lastCpu < |s'.rqs| && FlagOk(h', y, s'.tasks[y], s'.rqs[s'.tasks[y].lastCpu], ph[s'.tasks[y].lastCpu])
    {
      if y == x {
        EnqueuedSelf(cfg, h, s, s', ph, c, x, t);
      } else {
        EnqueuedOther(cfg, h, s, s', now, ph, c, x, t, y);
      }
    }
  }

  lemma EnqueuedBasics(cfg: Config, s: Sys, s': Sys, c: nat, x: nat, t: Task)
    requires WellFormed(s) && c < |s.rqs| && EnqueuedTo(cfg, s, s', c, x, t)
    ensures |s'.tasks| == |s.tasks| && |s'.rqs| == |s.rqs| && (s.rqs[c].cur.Some? ==> s.rqs[c].cur.value < |s.tasks|)
    ensures x < |s.tasks| && s'.tasks[x].lastCpu < |s.rqs|
    ensures forall y :: 0 <= y < |s.tasks| && y != x ==> s'.tasks[y].lastCpu == s.tasks[y].lastCpu
  {
  }

  lemma EnqueuedSelf(cfg: Config, h: seq<Enq>, s: Sys, s': Sys, ph: seq<Phase>, c: nat, x: nat, t: Task)
    requires WellFormed(s) && c < |s.rqs| == |ph| && EnqueuedTo(cfg, s, s', c, x, t)
    ensures var t' := s'.tasks[x]; t'.lastCpu < |s'.rqs| && FlagOk(h + [NewEnq(cfg, s, ph, c, x, t)], x, t', s'.rqs[t'.lastCpu], ph[t'.lastCpu])
  {
    hide FlagOk;
    OneEnq(h, NewEnq(cfg, s, ph, c, x, t), x);
    var t' := s'.tasks[x];
    FlagClear(h + [NewEnq(cfg, s, ph, c, x, t)], x, t', s'.rqs[t'.lastCpu], ph[t'.lastCpu]);
  }

  lemma EnqueuedOther(cfg: Config, h: seq<Enq>, s: Sys, s': Sys, now: int, ph: seq<Phase>, c: nat, x: nat, t: Task, y: nat)
    requires FlagsOk(h, s, ph) && SysOk(s, now, ph) && WellFormed(s) && c < |s.rqs| && EnqueuedTo(cfg, s, s', c, x, t)
    requires y < |s.tasks| && y != x
    ensures var t' := s'.tasks[y]; t'.lastCpu < |s'.rqs| && FlagOk(h + [NewEnq(cfg, s, ph, c, x, t)], y, t', s'.rqs[t'.lastCpu], ph[t'.lastCpu])
  {
    var e := NewEnq(cfg, s, ph, c, x, t);
    var u, u' := s.tasks[y], s'.tasks[y];
    var d := u.lastCpu;
    if e.beaten == Some(y) {
      CurrentFacts(s, now, ph, c);
      VictimFlag(h, e, y, u, u', s.rqs[c], s'.rqs[c], ph[c]);
    } else {
      NoVictim(h, e, y);
      FlagFrame(h, h + [e], y, u, u', s.rqs[d], s'.rqs[d], ph[d], ph[d]);
    }
  }

  lemma CurrentFacts(s: Sys, now: int, ph: seq<Phase>, c: nat)
    requires SysOk(s, now, ph) && c < |s.rqs| && s.rqs[c].cur.Some?
    ensures s.rqs[c].cur.value < |s.tasks|
    ensures var t := s.tasks[s.rqs[c].cur.value];
      t.lastCpu == c && (t.state.OnProc? || t.state.Sleep? || t.state.Completed?) && TaskOk(t)
      && (!t.state.OnProc? ==> s.rqs[c].needResched && !ph[c].Start? && !ph[c].Done?)
  {
    hide TaskOk, EventsOk, QueueOk, Placed, End;
    assert CpuOk(s.tasks, s.rqs[c], s.events[c], c, now, ph[c]);
    assert TaskOk(s.tasks[s.rqs[c].cur.value]);
  }

  /** The task that has been beaten. */
  lemma VictimFlag(h: seq<Enq>, e: Enq, y: nat, u: Task, u': Task, q: Rq, q': Rq, p: Phase)
    requires FlagOk(h, y, u, q, p) && e.task != y && e.beaten == Some(y) && e.late == Doomed(u, p) && e.again == Again(u)
    requires SameCore(u, u') && u'.insertFront && (u.state.OnProc? || u.state.Sleep? || u.state.Completed?)
    requires q.cur == Some(y) && q'.cur == Some(y) && q'.needResched
    ensures FlagOk(h + [e], y, u', q', p)
  {
    hide Beaten, LateBeaten, LateSame;
    OneEnq(h, e, y);
    LateIsBeaten(h, y);
    assert Doomed(u', p) == Doomed(u, p) && Again(u') == Again(u);
  }

  // ---------------------------------------------------------------- the sections

  lemma DueIsNotCurrent(s: Sys, now: int, ph: seq<Phase>, c: nat)
    requires SysOk(s, now, ph) && c < |s.rqs| && HasDue(s, c, now + 1)
    ensures var e := s.events[c][0]; e.task < |s.tasks| && s.rqs[c].cur != Some(e.task)
    ensures var e := s.events[c][0]; var t := s.tasks[e.task];
      && TaskOk(t) && t.lastCpu == c && !t.onRq && End(t) == now + 1
      && t.state == (if e.kind.NewTask? then Starting else Sleep)
  {
    hide Placed, Tiles, Logged, Work, QueueOk;
    assert CpuOk(s.tasks, s.rqs[c], s.events[c], c, now, ph[c]);
    var e := s.events[c][0];
    assert EventOk(s.tasks[e.task], e, c) && TaskOk(s.tasks[e.task]);
  }

  lemma FireFlags(cfg: Config, h: seq<Enq>, r: RState, c: nat)
    requires RInv(r) && Enabled(r, FireStep(c)) && SortedClass(cfg.policy) && FlagsOk(h, r.s, r.ph)
    ensures FlagsOk(h + FireNote(cfg, r, c), Fire(cfg, r.s, c, r.now + 1), r.ph)
  {
    hide RInv, FlagsOk, Fire, DoEnqueue, TaskOk, End, NewEnq, EnqueuedTo;
    RunSysOk(r);
    DueIsNotCurrent(r.s, r.now, r.ph, c);
    var s, now := r.s, r.now;
    var e := s.events[c][0];
    var x := e.task;
    var t := s.tasks[x];
    var k := WokenPhase(t, e);
    if k < |t.phases| {
      PhaseOfEvent(t, e);
      WokenOk(t, now + 1, k);
      FireIsEnqueue(cfg, s, c, now + 1, k);
      var s1 := s.(events := s.events[c := s.events[c][1..]], tasks := s.tasks[x := Woken(t, k, now + 1)]);
      WokenTo(cfg, s, s1, c, x);
      EnqueuedFlags(cfg, h, s, DoEnqueue(cfg, s1, x, c, false), now, r.ph, c, x, s1.tasks[x]);
    } else {
      NewTaskHasPhase(t);
      FinishedFlags(cfg, h, s, c, now + 1, r.ph);
      assert h + FireNote(cfg, r, c) == h;
    }
  }

  lemma RunSysOk(r: RState)
    requires RInv(r)
    ensures SysOk(r.s, r.now, r.ph) && 1 <= |r.s.rqs| == |r.s.events| == |r.ph|
  {
  }

  lemma PhaseOfEvent(t: Task, e: Event)
    requires TaskOk(t) && t.state == (if e.kind.NewTask? then Starting else Sleep)
    ensures e.kind.NewTask? ==> WokenPhase(t, e) == t.curPhase == 0
  {
  }

  lemma NewTaskHasPhase(t: Task)
    requires TaskOk(t)
    ensures t.state.Starting? ==> t.curPhase < |t.phases|
  {
  }

  /** The woken task is enqueued on its CPU. */
  lemma WokenTo(cfg: Config, s: Sys, s1: Sys, c: nat, x: nat)
    requires WellFormed(s) && WellFormed(s1) && SortedClass(cfg.policy) && c < |s.rqs| && x < |s.tasks| == |s1.tasks|
    requires s1.rqs == s.rqs && s1.tasks == s.tasks[x := s1.tasks[x]]
    requires s1.tasks[x].state.Runnable? && !s1.tasks[x].onRq && s.rqs[c].cur != Some(x)
    ensures EnqueuedTo(cfg, s, DoEnqueue(cfg, s1, x, c, false), c, x, s1.tasks[x])
  {
    hide DoEnqueue, EventsInRange;
    var pos := DoEnqueueShape(cfg, s1, x, c, false);
    EnqueueFlags(cfg, s1, x, c, false);
    var s' := DoEnqueue(cfg, s1, x, c, false);
    assert Preempts(cfg, s1.tasks, s.rqs[c].cur, s1.tasks[x]) == Preempts(cfg, s.tasks, s.rqs[c].cur, s1.tasks[x]);
    assert forall d :: 0 <= d < |s.rqs| && d != c ==> s'.rqs[d] == s.rqs[d];
    assert s'.rqs[c].cur == s.rqs[c].cur;
  }

  lemma FinishedFlags(cfg: Config, h: seq<Enq>, s: Sys, c: nat, step: int, ph: seq<Phase>)
    requires WellFormed(s) && FlagsOk(h, s, ph) && c < |s.rqs| && s.events[c] != []
    requires var e := s.events[c][0]; var t := s.tasks[e.task];
      e.kind.TaskAwake? && t.state.Sleep? && t.curPhase + 1 >= |t.phases|
    ensures FlagsOk(h, Fire(cfg, s, c, step), ph)
  {
    hide FlagOk;
    var x := s.events[c][0].task;
    var t := s.tasks[x];
    var s' := Fire(cfg, s, c, step);
    assert s'.rqs == s.rqs && s'.tasks == s.tasks[x := t.(curPhase := t.curPhase + 1, state := Completed)];
    var d := t.lastCpu;
    assert d < |s.rqs| && FlagOk(h, x, t, s.rqs[d], ph[d]);
    FlagSpent(h, x, t, s.rqs[d], ph[d]);
    FlagFrame(h, h, x, t, s'.tasks[x], s.rqs[d], s.rqs[d], ph[d], ph[d]);
  }

  lemma FlagSpent(h: seq<Enq>, x: nat, t: Task, q: Rq, p: Phase)
    requires FlagOk(h, x, t, q, p)
    ensures Spent(t)
  {
  }

  lemma MoveFlags(cfg: Config, h: seq<Enq>, s: Sys, now: int, ph: seq<Phase>, src: nat, dst: nat)
    requires SysOk(s, now, ph) && WellFormed(s) && src < |s.rqs| && dst < |s.rqs| == |ph| && src != dst
    requires SortedClass(cfg.policy) && FlagsOk(h, s, ph)
    ensures FlagsOk(h + MoveNote(cfg, s, ph, src, dst), Rebalance(cfg, s, src, dst, now), ph)
  {
    hide SysOk, TaskOk, QueuedOk, FlagsOk, DoEnqueue, EventsInRange, NewEnq, EnqueuedTo, WellFormed;
    var q := s.rqs[src];
    if q.nrRunnable - s.rqs[dst].nrRunnable > 1 {
      var x := StealFinds(s, now, ph, src, dst);
      MovedTask(s, now, ph, src, dst, x);
      StealWellFormed(s, src);
      MovedEnqueued(cfg, s, src, dst, x, now);
      EnqueuedFlags(cfg, h, s, MoveOneTask(cfg, s, src, dst, now), now, ph, dst, x, s.tasks[x]);
    } else {
      assert h + MoveNote(cfg, s, ph, src, dst) == h;
    }
  }

  lemma MovedTask(s: Sys, now: int, ph: seq<Phase>, src: nat, dst: nat, x: nat)
    requires SysOk(s, now, ph) && src < |s.rqs| && dst < |s.rqs| && src != dst && x < |s.tasks| && QueuedOk(s.tasks[x], src, now)
    ensures s.rqs[dst].cur != Some(x) && s.tasks[x].state.Runnable?
  {
    hide TaskOk, EventsOk, QueueOk, Placed, End;
    NotElsewhere(s, now, ph, x, dst);
  }

  lemma StealWellFormed(s: Sys, src: nat)
    requires WellFormed(s) && src < |s.rqs| && s.rqs[src].queue != []
    ensures WellFormed(Steal(s, src))
  {
  }

  lemma MovedEnqueued(cfg: Config, s: Sys, src: nat, dst: nat, x: nat, now: int)
    requires WellFormed(s) && SortedClass(cfg.policy) && src < |s.rqs| && dst < |s.rqs| && src != dst && s.rqs[src].queue != []
    requires x == s.rqs[src].queue[|s.rqs[src].queue| - 1] && x < |s.tasks| && s.tasks[x].state.Runnable? && s.rqs[dst].cur != Some(x)
    ensures EnqueuedTo(cfg, s, MoveOneTask(cfg, s, src, dst, now), dst, x, s.tasks[x])
  {
    hide DoEnqueue, WellFormed, EnqueuedTo, Migrated, Steal;
    StealWellFormed(s, src);
    var s2 := DoEnqueue(cfg, Steal(s, src), x, dst, false);
    StolenEnqueued(cfg, s, src, dst, x);
    MigratedTo(cfg, s, s2, src, dst, x, now);
  }

  /** Charging the migration changes neither state nor flag nor CPU. */
  lemma MigratedTo(cfg: Config, s: Sys, s2: Sys, src: nat, dst: nat, x: nat, now: int)
    requires WellFormed(s) && dst < |s.rqs| && x < |s.tasks| && x < |s2.tasks| && EnqueuedTo(cfg, s, s2, dst, x, s.tasks[x])
    ensures EnqueuedTo(cfg, s, s2.(tasks := s2.tasks[x := Migrated(s2.tasks[x], src, now)]), dst, x, s.tasks[x])
  {
    hide AddLog, WellFormed;
  }

  lemma StolenEnqueued(cfg: Config, s: Sys, src: nat, dst: nat, x: nat)
    requires WellFormed(s) && SortedClass(cfg.policy) && src < |s.rqs| && dst < |s.rqs| && src != dst && s.rqs[src].queue != []
    requires x == s.rqs[src].queue[|s.rqs[src].queue| - 1] && x < |s.tasks| && s.tasks[x].state.Runnable? && s.rqs[dst].cur != Some(x)
    requires WellFormed(Steal(s, src))
    ensures EnqueuedTo(cfg, s, DoEnqueue(cfg, Steal(s, src), x, dst, false), dst, x, s.tasks[x])
  {
    hide DoEnqueue, EventsInRange, WellFormed;
    var s1 := Steal(s, src);
    var pos := DoEnqueueShape(cfg, s1, x, dst, false);
    EnqueueFlags(cfg, s1, x, dst, false);
    var s' := DoEnqueue(cfg, s1, x, dst, false);
    StealTasks(cfg, s, src, dst, x);
    assert forall d :: 0 <= d < |s.rqs| && d != dst ==> s'.rqs[d] == s1.rqs[d];
  }

  /** Stealing a task changes nothing that the preemption test looks at. */
  lemma StealTasks(cfg: Config, s: Sys, src: nat, dst: nat, x: nat)
    requires WellFormed(s) && src < |s.rqs| && dst < |s.rqs| && src != dst && s.rqs[src].queue != []
    requires x == s.rqs[src].queue[|s.rqs[src].queue| - 1] && x < |s.tasks| && s.rqs[dst].cur != Some(x)
    ensures var s1 := Steal(s, src);
      && s1.rqs[dst] == s.rqs[dst] && (s.rqs[dst].cur.Some? ==> s.rqs[dst].cur.value < |s.tasks|)
      && Preempts(cfg, s1.tasks, s.rqs[dst].cur, s1.tasks[x]) == Preempts(cfg, s.tasks, s.rqs[dst].cur, s.tasks[x])
  {
  }

  lemma TickedFlagFields(cfg: Config, t: Task, c: nat, now: int)
    requires TaskOk(t) && t.state.OnProc?
    ensures var t' := TickedTask(cfg, t, c, now);
      && t'.insertFront == t.insertFront && t'.phases == t.phases && t'.ticksLeft == t.ticksLeft - 1 >= 0
      && (t.ticksLeft > 1 ==> t'.state.OnProc? && t'.curPhase == t.curPhase)
      && (t.ticksLeft == 1 ==>
            t'.curPhase == t.curPhase + 1 && t'.state == (if t.curPhase + 1 < |t.phases| then Sleep else Completed))
  {
    hide AddLog, Tiles, Logged, Work;
  }

  lemma TickedFlag(cfg: Config, h: seq<Enq>, x: nat, t: Task, q: Rq, q': Rq, c: nat, now: int)
    requires FlagOk(h, x, t, q, Start) && TaskOk(t) && t.state.OnProc?
    requires q'.cur == q.cur && (q.needResched ==> q'.needResched)
    ensures FlagOk(h, x, TickedTask(cfg, t, c, now), q', Ticked)
  {
    hide TickedTask, TaskOk, FlagOk;
    TickedFlagFields(cfg, t, c, now);
    FlagFrame(h, h, x, t, TickedTask(cfg, t, c, now), q, q', Start, Ticked);
  }

  lemma TickFlags(cfg: Config, h: seq<Enq>, s: Sys, now: int, ph: seq<Phase>, c: nat)
    requires SysOk(s, now, ph) && WellFormed(s) && c < |s.rqs| && ph[c].Start? && FlagsOk(h, s, ph)
    ensures FlagsOk(h, Tick(cfg, s, c, now), ph[c := Ticked])
  {
    hide TaskOk, FlagOk, Charge, Leave, TickedTask, LeavesIntoCpuPhase, EventsInRange, InsertEvent, SysOk, End;
    var q := s.rqs[c];
    var s' := Tick(cfg, s, c, now);
    TickedTasks(cfg, s, now, ph, c);
    forall y | 0 <= y < |s.tasks|
      ensures s'.tasks[y].lastCpu < |s'.rqs| && FlagOk(h, y, s'.tasks[y], s'.rqs[s'.tasks[y].lastCpu], ph[c := Ticked][s'.tasks[y].lastCpu])
    {
      var t := s.tasks[y];
      var d := t.lastCpu;
      assert FlagOk(h, y, t, s.rqs[d], ph[d]);
      if q.cur == Some(y) {
        TickedFlag(cfg, h, y, t, s.rqs[c], s'.rqs[c], c, now);
      } else {
        FlagSpent(h, y, t, s.rqs[d], ph[d]);
        FlagFrame(h, h, y, t, t, s.rqs[d], s'.rqs[d], ph[d], ph[c := Ticked][d]);
      }
    }
  }

  lemma TickedTasks(cfg: Config, s: Sys, now: int, ph: seq<Phase>, c: nat)
    requires SysOk(s, now, ph) && WellFormed(s) && c < |s.rqs| && ph[c].Start?
    ensures var s' := Tick(cfg, s, c, now); var q := s.rqs[c];
      && (forall y :: 0 <= y < |s.tasks| && q.cur != Some(y) ==> s'.tasks[y] == s.tasks[y] && (s.tasks[y].lastCpu == c ==> !s.tasks[y].state.OnProc?))
      && (forall d :: 0 <= d < |s.rqs| && d != c ==> s'.rqs[d] == s.rqs[d])
      && s'.rqs[c].cur == q.cur && (q.needResched ==> s'.rqs[c].needResched)
      && (q.cur.Some? ==> var t := s.tasks[q.cur.value];
              (TaskOk(t) && t.state.OnProc? && t.lastCpu == c && s'.tasks[q.cur.value] == TickedTask(cfg, t, c, now)
               && s'.tasks[q.cur.value].lastCpu == c))
  {
    hide TaskOk, Charge, Leave, LeavesIntoCpuPhase, EventsInRange, InsertEvent, EventsOk, QueueOk, End;
    var q := s.rqs[c];
    assert CpuOk(s.tasks, q, s.events[c], c, now, ph[c]);
    forall y | 0 <= y < |s.tasks| && q.cur != Some(y) && s.tasks[y].lastCpu == c ensures !s.tasks[y].state.OnProc? {
      assert Placed(s.tasks[y], y, q, s.events[c]);
    }
    if q.cur.Some? {
      assert TaskOk(s.tasks[q.cur.value]);
      TickedTaskOk(cfg, s.tasks[q.cur.value], c, now);
    }
  }

  // ---------------------------------------------------------------- schedule and the first pick

  /** `schedule` clears the flag of the task it puts back and of no other. */
  lemma ScheduleFlagOf(cfg: Config, s: Sys, c: nat, now: int, y: nat)
    requires WellFormed(s) && c < |s.rqs| && y < |s.tasks| && SortedClass(cfg.policy)
    requires Running(s.tasks, s.rqs[c].cur) ==> !s.tasks[s.rqs[c].cur.value].onRq
    ensures var q := s.rqs[c];
      Schedule(cfg, s, c, now).tasks[y].insertFront
      == (s.tasks[y].insertFront && !(q.needResched && Running(s.tasks, q.cur) && q.cur == Some(y)))
  {
    hide Reschedule, EventsInRange;
    var q := s.rqs[c];
    if q.needResched || q.cur.None? { RescheduleFlag(cfg, s, c, now, y); }
  }

  lemma RescheduleFlag(cfg: Config, s: Sys, c: nat, now: int, y: nat)
    requires WellFormed(s) && c < |s.rqs| && y < |s.tasks| && SortedClass(cfg.policy)
    requires Running(s.tasks, s.rqs[c].cur) ==> !s.tasks[s.rqs[c].cur.value].onRq
    ensures Reschedule(cfg, s, c, now).tasks[y].insertFront
         == (s.tasks[y].insertFront && !(Running(s.tasks, s.rqs[c].cur) && s.rqs[c].cur == Some(y)))
  {
    hide DoEnqueue, EventsInRange, AddLog, PickNext, Requeue, Switch;
    RequeueFlag(cfg, s, c, y);
    var s1 := Requeue(cfg, s, c);
    PickFlag(s1, c, y);
    var s2 := PickNext(s1, c);
    SwitchFlag(s2.tasks, s.rqs[c].cur, s2.rqs[c].cur, c, now, y);
  }

  lemma RequeueFlag(cfg: Config, s: Sys, c: nat, y: nat)
    requires WellFormed(s) && c < |s.rqs| && y < |s.tasks| && SortedClass(cfg.policy)
    requires Running(s.tasks, s.rqs[c].cur) ==> !s.tasks[s.rqs[c].cur.value].onRq
    ensures Requeue(cfg, s, c).tasks[y].insertFront
         == (s.tasks[y].insertFront && !(Running(s.tasks, s.rqs[c].cur) && s.rqs[c].cur == Some(y)))
  {
    hide DoEnqueue, EventsInRange;
    if Running(s.tasks, s.rqs[c].cur) { EnqueueFlags(cfg, s, s.rqs[c].cur.value, c, true); }
  }

  lemma PickFlag(s: Sys, c: nat, y: nat)
    requires WellFormed(s) && c < |s.rqs| && y < |s.tasks|
    ensures PickNext(s, c).tasks[y].insertFront == s.tasks[y].insertFront
  {
  }

  lemma SwitchFlag(tasks: seq<Task>, prev: Option<nat>, next: Option<nat>, c: nat, now: int, y: nat)
    requires (prev.Some? ==> prev.value < |tasks|) && (next.Some? ==> next.value < |tasks|) && y < |tasks|
    ensures Switch(tasks, prev, next, c, now)[y].insertFront == tasks[y].insertFront
  {
    hide AddLog;
  }

  /** The tasks of CPU c and of the others after `schedule`. */
  lemma ScheduledTask(cfg: Config, s: Sys, now: int, ph: seq<Phase>, c: nat, y: nat)
    requires SysOk(s, now, ph) && WellFormed(s) && c < |s.rqs| && ph[c].Balanced? && SortedClass(cfg.policy) && y < |s.tasks|
    ensures var s' := Schedule(cfg, s, c, now); var q := s.rqs[c]; var t, t' := s.tasks[y], s'.tasks[y];
      && t'.lastCpu == t.lastCpu && |s'.rqs| == |s.rqs|
      && (t.lastCpu != c ==> SameCore(t, t') && s'.rqs[t.lastCpu] == s.rqs[t.lastCpu])
      && (t.lastCpu == c && t.state.OnProc? ==> q.cur == Some(y) && (t'.state.OnProc? || t'.state.Runnable?))
      && (t.state.Runnable? ==> t'.state.Runnable? || t'.state.OnProc?)
      && (t.lastCpu == c && !t.state.OnProc? && !t.state.Runnable? ==> SameCore(t, t'))
  {
    hide TaskOk, EventsOk, End, EventsInRange, Schedule, QueueOk, AddLog;
    var q := s.rqs[c];
    assert CpuOk(s.tasks, q, s.events[c], c, now, ph[c]);
    var t := s.tasks[y];
    assert t.lastCpu == c ==> Placed(t, y, q, s.events[c]);
    if q.needResched || q.cur.None? {
      var pos := ScheduleShape(cfg, s, c, now);
      SwitchedElse(cfg, s, Schedule(cfg, s, c, now), now, ph, c, pos, y);
    } else {
      ScheduleNothing(cfg, s, c, now);
    }
  }

  lemma SwitchedElse(cfg: Config, s: Sys, s': Sys, now: int, ph: seq<Phase>, c: nat, pos: nat, y: nat)
    requires SysOk(s, now, ph) && c < |s.rqs| && ph[c].Balanced? && SwitchedTo(s, s', c, now, pos) && y < |s.tasks| == |s'.tasks|
    requires s.rqs[c].needResched || s.rqs[c].cur.None?
    ensures var q := s.rqs[c]; var t, t' := s.tasks[y], s'.tasks[y];
      && t'.lastCpu == t.lastCpu && |s'.rqs| == |s.rqs|
      && (t.lastCpu != c ==> SameCore(t, t') && (t.lastCpu < |s.rqs| ==> s'.rqs[t.lastCpu] == s.rqs[t.lastCpu]))
      && (q.cur == Some(y) && t.state.OnProc? ==> t'.state.OnProc? || t'.state.Runnable?)
      && (t.state.Runnable? ==> t'.state.Runnable? || t'.state.OnProc?)
      && (!t.state.OnProc? && !t.state.Runnable? ==> SameCore(t, t'))
  {
    hide TaskOk, EventsOk, End, AddLog, QueueOk, CurrentOk;
    var q := s.rqs[c];
    var from := PickFrom(s, c, pos);
    assert CpuOk(s.tasks, q, s.events[c], c, now, ph[c]);
    FromTasks(s.tasks, q, s.events[c], c, now, ph[c], from, pos);
    if from != [] { assert from[0] in from; }
    CurrentHereOk(s, now, ph, c);
  }

  lemma CurrentHereOk(s: Sys, now: int, ph: seq<Phase>, c: nat)
    requires SysOk(s, now, ph) && c < |s.rqs|
    ensures s.rqs[c].cur.Some? ==> s.rqs[c].cur.value < |s.tasks|
    ensures s.rqs[c].cur.Some? ==>
      var t := s.tasks[s.rqs[c].cur.value]; t.lastCpu == c && !t.state.Runnable? && !t.onRq
  {
    hide TaskOk, EventsOk, End, QueueOk, Placed;
    assert CpuOk(s.tasks, s.rqs[c], s.events[c], c, now, ph[c]);
  }

  lemma ScheduleFlags(cfg: Config, h: seq<Enq>, s: Sys, now: int, ph: seq<Phase>, c: nat)
    requires SysOk(s, now, ph) && WellFormed(s) && c < |s.rqs| && ph[c].Balanced? && SortedClass(cfg.policy) && FlagsOk(h, s, ph)
    ensures FlagsOk(h + ScheduleNote(s, c), Schedule(cfg, s, c, now), ph[c := Done])
  {
    hide SysOk, WellFormed, Schedule, FlagOk;
    var s' := Schedule(cfg, s, c, now);
    var h' := h + ScheduleNote(s, c);
    forall y | 0 <= y < |s.tasks|
      ensures s'.tasks[y].lastCpu < |s'.rqs| && FlagOk(h', y, s'.tasks[y], s'.rqs[s'.tasks[y].lastCpu], ph[c := Done][s'.tasks[y].lastCpu])
    {
      ScheduledFlag(cfg, h, s, now, ph, c, y);
    }
  }

  lemma ScheduledFlag(cfg: Config, h: seq<Enq>, s: Sys, now: int, ph: seq<Phase>, c: nat, y: nat)
    requires SysOk(s, now, ph) && WellFormed(s) && c < |s.rqs| && ph[c].Balanced? && SortedClass(cfg.policy) && FlagsOk(h, s, ph)
    requires y < |s.tasks|
    ensures var s' := Schedule(cfg, s, c, now); var t' := s'.tasks[y];
      t'.lastCpu < |s'.rqs| && FlagOk(h + ScheduleNote(s, c), y, t', s'.rqs[t'.lastCpu], ph[c := Done][t'.lastCpu])
  {
    hide SysOk, WellFormed, Schedule, FlagOk, Beaten, LateBeaten, LateSame;
    var q := s.rqs[c];
    var s' := Schedule(cfg, s, c, now);
    var h' := h + ScheduleNote(s, c);
    var t, t' := s.tasks[y], s'.tasks[y];
    var d := t.lastCpu;
    CurrentHereOk(s, now, ph, c);
    ScheduleFlagOf(cfg, s, c, now, y);
    ScheduledTask(cfg, s, now, ph, c, y);
    var p' := ph[c := Done][d];
    if q.needResched && Running(s.tasks, q.cur) && q.cur == Some(y) {
      OneEnq(h, Enq(y, None, false, false, true), y);
      FlagClear(h', y, t', s'.rqs[d], p');
    } else {
      ScheduleRecord(h, s, c, y);
      if d != c || (!t.state.OnProc? && !t.state.Runnable?) {
        FlagSpent(h, y, t, s.rqs[d], ph[d]);
        FlagFrame(h, h', y, t, t', s.rqs[d], s'.rqs[d], ph[d], p');
      } else {
        UnbeatenHere(h, y, t, q, ph[c]);
        FlagClear(h', y, t', s'.rqs[d], p');
      }
    }
  }

  /** A task of this CPU that waits, or runs without a pending request, has not been beaten. */
  lemma UnbeatenHere(h: seq<Enq>, y: nat, t: Task, q: Rq, p: Phase)
    requires FlagOk(h, y, t, q, p) && p.Balanced? && (t.state.Runnable? || (t.state.OnProc? && !q.needResched))
    ensures !Beaten(h, y) && !t.insertFront
  {
    hide Beaten, LateBeaten, LateSame, Again;
  }

  lemma ScheduleRecord(h: seq<Enq>, s: Sys, c: nat, y: nat)
    requires c < |s.rqs| && !(s.rqs[c].needResched && Running(s.tasks, s.rqs[c].cur) && s.rqs[c].cur == Some(y))
    ensures var h' := h + ScheduleNote(s, c);
      && Beaten(h', y) == Beaten(h, y) && LateBeaten(h', y) == LateBeaten(h, y)
      && (forall again :: LateSame(h', y, again) == LateSame(h, y, again))
  {
    var q := s.rqs[c];
    if q.needResched && Running(s.tasks, q.cur) {
      NoVictim(h, Enq(q.cur.value, None, false, false, true), y);
    } else {
      assert h + ScheduleNote(s, c) == h;
    }
  }

  lemma FirstPickFlags(h: seq<Enq>, s: Sys, ph: seq<Phase>, c: nat)
    requires SysOk(s, -1, ph) && WellFormed(s) && c < |s.rqs| && ph[c].Fired? && s.rqs[c].cur.None? && FlagsOk(h, s, ph)
    ensures FlagsOk(h, FirstPick(s, c), ph[c := Done])
  {
    hide TaskOk, EventsOk, End, EventsInRange, FlagOk, Beaten, LateBeaten, LateSame, QueueOk;
    var q := s.rqs[c];
    var s' := FirstPick(s, c);
    assert CpuOk(s.tasks, q, s.events[c], c, -1, ph[c]);
    HeadIsQueued(s.tasks, q.queue, c, -1);
    forall y | 0 <= y < |s.tasks|
      ensures s'.tasks[y].lastCpu < |s'.rqs| && FlagOk(h, y, s'.tasks[y], s'.rqs[s'.tasks[y].lastCpu], ph[c := Done][s'.tasks[y].lastCpu])
    {
      var t := s.tasks[y];
      var d := t.lastCpu;
      assert FlagOk(h, y, t, s.rqs[d], ph[d]);
      FlagSpent(h, y, t, s.rqs[d], ph[d]);
      if q.queue != [] && y == q.queue[0] {
        assert t.state.Runnable?;
        WaitingClear(h, y, t, s.rqs[d], ph[d]);
        assert s'.tasks[y] == t.(onRq := false, state := OnProc);
        FlagClear(h, y, s'.tasks[y], s'.rqs[d], ph[c := Done][d]);
      } else {
        assert d == c ==> Placed(t, y, q, s.events[c]);
        FlagFrame(h, h, y, t, t, s.rqs[d], s'.rqs[d], ph[d], ph[c := Done][d]);
      }
    }
  }

  lemma HeadIsQueued(tasks: seq<Task>, queue: seq<nat>, c: nat, now: int)
    requires QueueOk(tasks, queue, c, now)
    ensures queue != [] ==> queue[0] < |tasks| && tasks[queue[0]].state.Runnable? && tasks[queue[0]].lastCpu == c
  {
    if queue != [] { assert QueuedOk(tasks[queue[0]], c, now); }
  }

  /** Phases between the tick and `schedule` make no difference, and neither does the next balancing time. */
  lemma PhaseFlags(h: seq<Enq>, s: Sys, s': Sys, ph: seq<Phase>, c: nat, p: Phase)
    requires FlagsOk(h, s, ph) && c < |s.rqs| && s'.tasks == s.tasks && |s'.rqs| == |s.rqs|
    requires forall d :: 0 <= d < |s.rqs| ==> s'.rqs[d].(nextLb := s.rqs[d].nextLb) == s.rqs[d]
    requires !ph[c].Start? && !ph[c].Done? && !p.Start? && !p.Done?
    ensures FlagsOk(h, s', ph[c := p])
  {
    hide FlagOk;
    forall y | 0 <= y < |s.tasks|
      ensures FlagOk(h, y, s'.tasks[y], s'.rqs[s'.tasks[y].lastCpu], ph[c := p][s'.tasks[y].lastCpu])
    {
      var t := s.tasks[y];
      var d := t.lastCpu;
      FlagSpent(h, y, t, s.rqs[d], ph[d]);
      FlagFrame(h, h, y, t, t, s.rqs[d], s'.rqs[d], ph[d], ph[c := p][d]);
    }
  }

  lemma NextRoundFlags(h: seq<Enq>, s: Sys, ph: seq<Phase>)
    requires FlagsOk(h, s, ph) && forall c :: 0 <= c < |ph| ==> ph[c].Done?
    ensures FlagsOk(h, s, seq(|ph|, _ => Start))
  {
    hide FlagOk;
    forall y | 0 <= y < |s.tasks| ensures FlagOk(h, y, s.tasks[y], s.rqs[s.tasks[y].lastCpu], Start) {
      var t := s.tasks[y];
      var d := t.lastCpu;
      FlagSpent(h, y, t, s.rqs[d], ph[d]);
      FlagFrame(h, h, y, t, t, s.rqs[d], s.rqs[d], ph[d], Start);
    }
  }

  // ---------------------------------------------------------------- every section

  lemma StepFlags(cfg: Config, h: seq<Enq>, r: RState, st: Step)
    requires RInv(r) && Enabled(r, st) && SortedClass(cfg.policy) && FlagsOk(h, r.s, r.ph)
    ensures var r' := Apply(cfg, r, st); FlagsOk(h + Noted(cfg, r, st), r'.s, r'.ph)
  {
    hide RInv, SysOk, WellFormed, FlagsOk, Tick, Fire, Schedule, FirstPick, Rebalance, Stamp, FireNote, ScheduleNote, MoveNote;
    RunSysOk(r);
    match st
    case FireStep(c) =>
      FireFlags(cfg, h, r, c);
      assert r.ph[c := Ticked] == r.ph;
    case ScheduleStep(c) => ScheduleFlags(cfg, h, r.s, r.now, r.ph, c);
    case BalanceTrial(c, loads) => TrialFlags(cfg, h, r, c, loads);
    case _ =>
      assert h + Noted(cfg, r, st) == h;
      QuietFlags(cfg, h, r, st);
  }

  lemma QuietFlags(cfg: Config, h: seq<Enq>, r: RState, st: Step)
    requires RInv(r) && Enabled(r, st) && FlagsOk(h, r.s, r.ph) && !st.FireStep? && !st.ScheduleStep? && !st.BalanceTrial?
    ensures var r' := Apply(cfg, r, st); FlagsOk(h, r'.s, r'.ph)
  {
    hide RInv, SysOk, WellFormed, FlagsOk, Tick, FirstPick, Stamp;
    RunSysOk(r);
    match st
    case TickStep(c) => TickFlags(cfg, h, r.s, r.now, r.ph, c);
    case FirstPickStep(c) => FirstPickBooting(r, c); FirstPickFlags(h, r.s, r.ph, c);
    case EventsOver(c) => PhaseFlags(h, r.s, r.s, r.ph, c, Fired);
    case BalanceBegin(c) =>
      var r' := Apply(cfg, r, st);
      PhaseFlags(h, r.s, r'.s, r.ph, c, r'.ph[c]);
    case BalanceEnd(c) => PhaseFlags(h, r.s, Apply(cfg, r, st).s, r.ph, c, Balanced);
    case NextRound => NextRoundFlags(h, r.s, r.ph);
  }

  lemma FirstPickBooting(r: RState, c: nat)
    requires RInv(r) && Enabled(r, FirstPickStep(c))
    ensures r.s.rqs[c].cur.None?
  {
    assert Booting(r.s.rqs[c], r.ph[c]);
  }

  lemma TrialFlags(cfg: Config, h: seq<Enq>, r: RState, c: nat, loads: seq<nat>)
    requires RInv(r) && Enabled(r, BalanceTrial(c, loads)) && SortedClass(cfg.policy) && FlagsOk(h, r.s, r.ph)
    ensures var r' := Apply(cfg, r, BalanceTrial(c, loads)); FlagsOk(h + Noted(cfg, r, BalanceTrial(c, loads)), r'.s, r'.ph)
  {
    hide RInv, SysOk, WellFormed, FlagsOk, Rebalance, Stamp, MoveNote;
    RunSysOk(r);
    RemoteIsNotLocal(loads, c);
    var next := Balancing(r.ph[c].trials + 1);
    match Choose(loads, c)
    case PushTo(d) =>
      MoveFlags(cfg, h, r.s, r.now, r.ph, c, d);
      var s' := Rebalance(cfg, r.s, c, d, r.now);
      PhaseFlags(h + MoveNote(cfg, r.s, r.ph, c, d), s', s', r.ph, c, next);
    case PullFrom(d) =>
      MoveFlags(cfg, h, r.s, r.now, r.ph, d, c);
      var s' := Rebalance(cfg, r.s, d, c, r.now);
      PhaseFlags(h + MoveNote(cfg, r.s, r.ph, d, c), s', s', r.ph, c, next);
    case SystemBalanced =>
      assert h + [] == h;
      PhaseFlags(h, r.s, r.s, r.ph, c, Balancing(MAX_TRIALS));
    case NothingToDo =>
      assert h + [] == h;
      PhaseFlags(h, r.s, r.s, r.ph, c, next);
  }
}
