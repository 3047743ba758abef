/** Equal tasks on a queue: in which order they wait, and when that is the order of their enqueues. */
module SchedTies {
  import opened Basics
  import opened SchedTypes
  import opened SchedSteps
  import opened SchedClocks
  import opened SchedInvariant
  import opened SchedKeeps
  import opened SchedBalance
  import opened SchedRuns
  import opened SchedTheorems
  import opened SchedSlices
  import opened SchedPreempt
  import opened SchedHistory
  import opened SchedFlags
  import opened Sequences

  /** The k-th enqueue carried the flag: its task had been beaten since its previous enqueue. */
  predicate FrontAt(h: seq<Enq>, k: nat)
    requires k < |h|
  {
    Beaten(h[..k], h[k].task)
  }

  /** The later of the last enqueues of x and y decides: its task is ahead if it carried the flag, and behind if not. */
  ghost predicate Ahead(h: seq<Enq>, x: nat, y: nat) {
    var a, b := LastEnq(h, x), LastEnq(h, y);
    a >= 0 && b >= 0 && a != b && if a < b then !FrontAt(h, b) else FrontAt(h, a)
  }

  lemma AheadOneWay(h: seq<Enq>, x: nat, y: nat)
    requires Ahead(h, x, y)
    ensures !Ahead(h, y, x)
  {
  }

  // ---------------------------------------------------------------- the record of enqueues

  /** An enqueue that carries the flag was made by `schedule` exactly if no beat of its task was late; a late-beaten task
      that is enqueued had been known to have another CPU phase; and only preemptive PRIO beats tasks late. */
  ghost predicate NewRecord(cfg: Config, h: seq<Enq>, e: Enq, n: nat) {
    && (Beaten(h, e.task) ==> (e.requeued <==> !LateBeaten(h, e.task)))
    && (LateBeaten(h, e.task) ==> AgainBeaten(h, e.task))
    && LateIsPrio(cfg, e, n)
  }

  ghost predicate LateIsPrio(cfg: Config, e: Enq, n: nat) {
    e.late ==> cfg.policy.Prio? && cfg.preemptive && e.beaten.Some? && e.beaten.value < n && e.beaten.value != e.task
  }

  ghost predicate RecordOk(cfg: Config, h: seq<Enq>, n: nat) {
    forall k :: 0 <= k < |h| ==> NewRecord(cfg, h[..k], h[k], n)
  }

  lemma RecordGrows(cfg: Config, h: seq<Enq>, e: Enq, n: nat)
    requires RecordOk(cfg, h, n) && NewRecord(cfg, h, e, n)
    ensures RecordOk(cfg, h + [e], n)
  {
    var h' := h + [e];
    forall k | 0 <= k < |h'| ensures NewRecord(cfg, h'[..k], h'[k], n) {
      assert h'[..k] == h[..k];
    }
  }

  lemma NewEnqLate(cfg: Config, h: seq<Enq>, s: Sys, now: int, ph: seq<Phase>, c: nat, x: nat, t: Task)
    requires FlagsOk(h, s, ph) && SysOk(s, now, ph) && WellFormed(s) && c < |s.rqs| && SortedClass(cfg.policy) && t.ticksLeft >= 1
    requires s.rqs[c].cur != Some(x)
    ensures LateIsPrio(cfg, NewEnq(cfg, s, ph, c, x, t), |s.tasks|)
  {
    hide SysOk, FlagOk;
    if s.rqs[c].cur.Some? {
      CurrentFacts(s, now, ph, c);
      var y := s.rqs[c].cur.value;
      FlagSpent(h, y, s.tasks[y], s.rqs[c], ph[c]);
    }
  }

  lemma FireRecord(cfg: Config, h: seq<Enq>, r: RState, c: nat)
    requires RInv(r) && Enabled(r, FireStep(c)) && SortedClass(cfg.policy) && FlagsOk(h, r.s, r.ph)
    ensures forall e :: e in FireNote(cfg, r, c) ==> NewRecord(cfg, h, e, |r.s.tasks|)
  {
    hide RInv, TaskOk, End, NewEnq;
    RunSysOk(r);
    DueIsNotCurrent(r.s, r.now, r.ph, c);
    var e := r.s.events[c][0];
    var t := r.s.tasks[e.task];
    var k := WokenPhase(t, e);
    if k < |t.phases| {
      WokenTicks(t, k, r.now + 1);
      NewEnqFields(cfg, r.s, r.ph, c, e.task, Woken(t, k, r.now + 1));
      NewEnqLate(cfg, h, r.s, r.now, r.ph, c, e.task, Woken(t, k, r.now + 1));
      WokenRecord(h, e.task, t, e, r.s.rqs[c], r.ph[c]);
    }
  }

  lemma WokenTicks(t: Task, k: nat, step: int)
    requires TaskOk(t) && k < |t.phases|
    ensures Woken(t, k, step).ticksLeft >= 1
  {
  }

  lemma WokenRecord(h: seq<Enq>, x: nat, t: Task, e: Event, q: Rq, p: Phase)
    requires FlagOk(h, x, t, q, p) && t.state == (if e.kind.NewTask? then Starting else Sleep) && WokenPhase(t, e) < |t.phases|
    ensures (Beaten(h, x) ==> LateBeaten(h, x)) && (LateBeaten(h, x) ==> AgainBeaten(h, x))
  {
    hide Beaten, LateBeaten, AgainBeaten, LateSame;
    LateIsBeaten(h, x);
    if LateBeaten(h, x) { SameMeansAgain(h, x); }
  }

  lemma MoveRecord(cfg: Config, h: seq<Enq>, s: Sys, now: int, ph: seq<Phase>, src: nat, dst: nat)
    requires SysOk(s, now, ph) && WellFormed(s) && src < |s.rqs| && dst < |s.rqs| == |ph| && src != dst
    requires SortedClass(cfg.policy) && FlagsOk(h, s, ph)
    ensures forall e :: e in MoveNote(cfg, s, ph, src, dst) ==> NewRecord(cfg, h, e, |s.tasks|)
  {
    hide SysOk, TaskOk, QueuedOk, NewEnq, WellFormed, Beaten, LateBeaten, AgainBeaten, FlagOk;
    var q := s.rqs[src];
    if q.nrRunnable - s.rqs[dst].nrRunnable > 1 {
      var x := StealFinds(s, now, ph, src, dst);
      MovedTask(s, now, ph, src, dst, x);
      RunnableTicks(s.tasks[x]);
      CurrentInRange(s, dst);
      NewEnqFields(cfg, s, ph, dst, x, s.tasks[x]);
      NewEnqLate(cfg, h, s, now, ph, dst, x, s.tasks[x]);
      WaitingClear(h, x, s.tasks[x], s.rqs[s.tasks[x].lastCpu], ph[s.tasks[x].lastCpu]);
      LateIsBeaten(h, x);
    }
  }

  lemma CurrentInRange(s: Sys, c: nat)
    requires WellFormed(s) && c < |s.rqs|
    ensures s.rqs[c].cur.Some? ==> s.rqs[c].cur.value < |s.tasks|
  {
  }

  lemma RunnableTicks(t: Task)
    requires TaskOk(t) && t.state.Runnable?
    ensures t.ticksLeft >= 1
  {
  }

  lemma ScheduleRecords(cfg: Config, h: seq<Enq>, s: Sys, now: int, ph: seq<Phase>, c: nat)
    requires SysOk(s, now, ph) && c < |s.rqs| && ph[c].Balanced? && FlagsOk(h, s, ph)
    ensures forall e :: e in ScheduleNote(s, c) ==> NewRecord(cfg, h, e, |s.tasks|)
  {
    hide SysOk, FlagOk, LateBeaten;
    if Running(s.tasks, s.rqs[c].cur) {
      CurrentFacts(s, now, ph, c);
      var x := s.rqs[c].cur.value;
      RunningRecord(h, x, s.tasks[x], s.rqs[c], ph[c]);
    }
  }

  lemma RunningRecord(h: seq<Enq>, x: nat, t: Task, q: Rq, p: Phase)
    requires FlagOk(h, x, t, q, p) && t.state.OnProc? && p.Balanced?
    ensures !LateBeaten(h, x) && !AgainBeaten(h, x)
  {
    hide Beaten, LateBeaten, LateSame, AgainBeaten;
    LateIsBeaten(h, x);
  }

  lemma TrialRecords(cfg: Config, h: seq<Enq>, r: RState, c: nat, loads: seq<nat>)
    requires RInv(r) && Enabled(r, BalanceTrial(c, loads)) && SortedClass(cfg.policy) && FlagsOk(h, r.s, r.ph)
    ensures forall e :: e in Noted(cfg, r, BalanceTrial(c, loads)) ==> NewRecord(cfg, h, e, |r.s.tasks|)
    ensures |Noted(cfg, r, BalanceTrial(c, loads))| <= 1
  {
    hide RInv, SysOk, WellFormed, FlagsOk, NewEnq, NewRecord;
    RunSysOk(r);
    RemoteIsNotLocal(loads, c);
    match Choose(loads, c) {
      case PushTo(d) => MoveRecord(cfg, h, r.s, r.now, r.ph, c, d);
      case PullFrom(d) => MoveRecord(cfg, h, r.s, r.now, r.ph, d, c);
      case _ =>
    }
  }

  lemma StepRecords(cfg: Config, h: seq<Enq>, r: RState, st: Step)
    requires RInv(r) && Enabled(r, st) && SortedClass(cfg.policy) && FlagsOk(h, r.s, r.ph)
    ensures forall e :: e in Noted(cfg, r, st) ==> NewRecord(cfg, h, e, |r.s.tasks|)
    ensures |Noted(cfg, r, st)| <= 1
  {
    hide RInv, SysOk, WellFormed, FlagsOk, NewEnq, NewRecord;
    RunSysOk(r);
    match st
    case FireStep(c) => FireRecord(cfg, h, r, c);
    case ScheduleStep(c) => ScheduleRecords(cfg, h, r.s, r.now, r.ph, c);
    case BalanceTrial(c, loads) => TrialRecords(cfg, h, r, c, loads);
    case _ =>
  }

  lemma StepRecord(cfg: Config, h: seq<Enq>, r: RState, st: Step)
    requires RInv(r) && Enabled(r, st) && SortedClass(cfg.policy) && FlagsOk(h, r.s, r.ph) && RecordOk(cfg, h, |r.s.tasks|)
    ensures RecordOk(cfg, h + Noted(cfg, r, st), |r.s.tasks|)
  {
    hide *;
    StepRecords(cfg, h, r, st);
    var n := Noted(cfg, r, st);
    if n == [] {
      assert h + n == h;
    } else {
      assert n == [n[0]] && n[0] in n;
      RecordGrows(cfg, h, n[0], |r.s.tasks|);
    }
  }

  // ---------------------------------------------------------------- the order of equals on a queue

  ghost predicate QueueInOrder(cfg: Config, h: seq<Enq>, tasks: seq<Task>, queue: seq<nat>) {
    && (forall i :: 0 <= i < |queue| ==> queue[i] < |tasks| && LastEnq(h, queue[i]) >= 0)
    && (forall i, j :: 0 <= i < j < |queue| && Key(cfg.policy, tasks[queue[i]]) == Key(cfg.policy, tasks[queue[j]]) ==>
          Ahead(h, queue[i], queue[j]))
  }

  ghost predicate OrderOk(cfg: Config, h: seq<Enq>, s: Sys) {
    forall c :: 0 <= c < |s.rqs| ==> QueueInOrder(cfg, h, s.tasks, s.rqs[c].queue)
  }

  lemma OrderFrame(cfg: Config, h: seq<Enq>, tasks: seq<Task>, tasks': seq<Task>, queue: seq<nat>)
    requires QueueInOrder(cfg, h, tasks, queue) && |tasks'| == |tasks|
    requires forall i :: 0 <= i < |queue| ==> Key(cfg.policy, tasks'[queue[i]]) == Key(cfg.policy, tasks[queue[i]])
    ensures QueueInOrder(cfg, h, tasks', queue)
  {
    hide Ahead, Key, LastEnq;
  }

  /** Part of a queue. */
  lemma OrderSlice(cfg: Config, h: seq<Enq>, tasks: seq<Task>, queue: seq<nat>, lo: nat, hi: nat)
    requires QueueInOrder(cfg, h, tasks, queue) && lo <= hi <= |queue|
    ensures QueueInOrder(cfg, h, tasks, queue[lo..hi])
  {
    hide Ahead, Key, LastEnq;
    var r := queue[lo..hi];
    forall i | 0 <= i < |r| ensures r[i] == queue[lo + i] {}
    forall i, j | 0 <= i < j < |r| && Key(cfg.policy, tasks[r[i]]) == Key(cfg.policy, tasks[r[j]]) ensures Ahead(h, r[i], r[j]) {
      assert Ahead(h, queue[lo + i], queue[lo + j]);
    }
  }

  /** An enqueue does not change the order of two other tasks. */
  lemma AheadSame(h: seq<Enq>, e: Enq, x: nat, y: nat)
    requires Ahead(h, x, y) && e.task != x && e.task != y
    ensures Ahead(h + [e], x, y)
  {
    OneEnq(h, e, x);
    OneEnq(h, e, y);
    var a, b := LastEnq(h, x), LastEnq(h, y);
    var h' := h + [e];
    assert h'[..a] == h[..a] && h'[..b] == h[..b] && h'[a] == h[a] && h'[b] == h[b];
  }

  /** The enqueue of x itself. */
  lemma AheadNew(h: seq<Enq>, e: Enq, y: nat)
    requires e.task != y && LastEnq(h, y) >= 0
    ensures Ahead(h + [e], e.task, y) <==> Beaten(h, e.task)
    ensures Ahead(h + [e], y, e.task) <==> !Beaten(h, e.task)
  {
    OneEnq(h, e, e.task);
    OneEnq(h, e, y);
    var h' := h + [e];
    assert h'[..|h|] == h && h'[|h|] == e;
  }

  lemma OrderElsewhere(cfg: Config, h: seq<Enq>, e: Enq, tasks: seq<Task>, queue: seq<nat>)
    requires QueueInOrder(cfg, h, tasks, queue) && e.task !in queue
    ensures QueueInOrder(cfg, h + [e], tasks, queue)
  {
    hide Ahead, Key, LastEnq;
    forall i | 0 <= i < |queue| ensures LastEnq(h + [e], queue[i]) >= 0 { OneEnq(h, e, queue[i]); }
    forall i, j | 0 <= i < j < |queue| && Key(cfg.policy, tasks[queue[i]]) == Key(cfg.policy, tasks[queue[j]])
      ensures Ahead(h + [e], queue[i], queue[j])
    {
      AheadSame(h, e, queue[i], queue[j]);
    }
  }

  /** Insertion where the class puts the task. */
  lemma OrderInsert(cfg: Config, h: seq<Enq>, e: Enq, tasks: seq<Task>, queue: seq<nat>, pos: nat)
    requires QueueInOrder(cfg, h, tasks, queue) && e.task !in queue && e.task < |tasks| && pos <= |queue|
    requires forall i :: 0 <= i < |queue| && Key(cfg.policy, tasks[queue[i]]) == Key(cfg.policy, tasks[e.task]) ==>
               (pos <= i <==> Beaten(h, e.task))
    ensures QueueInOrder(cfg, h + [e], tasks, InsertAt(queue, pos, e.task))
  {
    hide Ahead, Key, LastEnq, Beaten;
    OrderElsewhere(cfg, h, e, tasks, queue);
    var h' := h + [e];
    var r := InsertAt(queue, pos, e.task);
    InsertedPlaces(queue, pos, e.task);
    OneEnq(h, e, e.task);
    forall i, j | 0 <= i < j < |r| && Key(cfg.policy, tasks[r[i]]) == Key(cfg.policy, tasks[r[j]]) ensures Ahead(h', r[i], r[j]) {
      if i == pos {
        AheadNew(h, e, queue[j - 1]);
      } else if j == pos {
        AheadNew(h, e, queue[i]);
      } else {
        assert Ahead(h', queue[if i < pos then i else i - 1], queue[if j < pos then j else j - 1]);
      }
    }
  }

  lemma InsertedPlaces(queue: seq<nat>, pos: nat, x: nat)
    requires pos <= |queue|
    ensures var r := InsertAt(queue, pos, x);
      forall i :: 0 <= i < |r| ==> r[i] == if i == pos then x else queue[if i < pos then i else i - 1]
  {
  }

  // ---------------------------------------------------------------- the sections

  /** Task x goes to the queue of CPU c, at the place that the class chooses for it; the other queues stay. */
  lemma EnqueuedOrder(cfg: Config, h: seq<Enq>, e: Enq, s: Sys, s': Sys, c: nat, t: Task)
    requires OrderOk(cfg, h, s) && SortedClass(cfg.policy) && c < |s.rqs| == |s'.rqs| && e.task < |s.tasks| == |s'.tasks|
    requires QueueSorted(cfg.policy, s.tasks, s.rqs[c].queue) && (t.insertFront <==> Beaten(h, e.task))
    requires forall d :: 0 <= d < |s.rqs| ==> e.task !in s.rqs[d].queue
    requires forall y :: 0 <= y < |s.tasks| && y != e.task ==> Key(cfg.policy, s'.tasks[y]) == Key(cfg.policy, s.tasks[y])
    requires Key(cfg.policy, s'.tasks[e.task]) == Key(cfg.policy, t)
    requires s'.rqs[c].queue == InsertAt(s.rqs[c].queue, QueuePos(cfg.policy, QueueKeys(cfg.policy, s.tasks, s.rqs[c].queue), t), e.task)
    requires forall d :: 0 <= d < |s.rqs| && d != c ==> s'.rqs[d].queue == s.rqs[d].queue
    ensures OrderOk(cfg, h + [e], s')
  {
    hide QueueInOrder, Key, Beaten, QueuePos, InsertAt, QueueSorted;
    forall d | 0 <= d < |s.rqs| ensures QueueInOrder(cfg, h + [e], s'.tasks, s'.rqs[d].queue) {
      var q := s.rqs[d].queue;
      assert QueueInOrder(cfg, h, s.tasks, q);
      OrderIndices(cfg, h, s.tasks, q);
      forall i | 0 <= i < |q| ensures q[i] != e.task { assert q[i] in q; }
      OrderFrame(cfg, h, s.tasks, s'.tasks, q);
      if d == c {
        forall i | 0 <= i < |q| && Key(cfg.policy, s'.tasks[q[i]]) == Key(cfg.policy, s'.tasks[e.task])
          ensures QueuePos(cfg.policy, QueueKeys(cfg.policy, s.tasks, q), t) <= i <==> Beaten(h, e.task)
        {
          PlaceAmongEquals(cfg.policy, s.tasks, q, t, i);
        }
        OrderInsert(cfg, h, e, s'.tasks, q, QueuePos(cfg.policy, QueueKeys(cfg.policy, s.tasks, q), t));
      } else {
        OrderElsewhere(cfg, h, e, s'.tasks, q);
      }
    }
  }

  lemma OrderIndices(cfg: Config, h: seq<Enq>, tasks: seq<Task>, queue: seq<nat>)
    requires QueueInOrder(cfg, h, tasks, queue)
    ensures forall i :: 0 <= i < |queue| ==> queue[i] < |tasks|
  {
  }

  lemma FireOrder(cfg: Config, h: seq<Enq>, r: RState, c: nat)
    requires RInv(r) && Enabled(r, FireStep(c)) && AllSorted(cfg, r.s) && FlagsOk(h, r.s, r.ph) && OrderOk(cfg, h, r.s)
    ensures OrderOk(cfg, h + FireNote(cfg, r, c), Fire(cfg, r.s, c, r.now + 1))
  {
    hide RInv, Fire, DoEnqueue, TaskOk, End, FlagOk, QueueInOrder, CpuSorted, QueuePos, InsertAt, Key, EventsInRange, SysOk;
    RunSysOk(r);
    DueIsNotCurrent(r.s, r.now, r.ph, c);
    var s, now := r.s, r.now;
    var e := s.events[c][0];
    var x := e.task;
    var t := s.tasks[x];
    var k := WokenPhase(t, e);
    forall d | 0 <= d < |s.rqs| ensures x !in s.rqs[d].queue { NotQueued(s, now, r.ph, x, d); }
    if k < |t.phases| {
      PhaseOfEvent(t, e);
      WokenOk(t, now + 1, k);
      FireIsEnqueue(cfg, s, c, now + 1, k);
      var s1 := s.(events := s.events[c := s.events[c][1..]], tasks := s.tasks[x := Woken(t, k, now + 1)]);
      var pos := DoEnqueueShape(cfg, s1, x, c, false);
      SortedQueue(cfg, s, c);
      SameQueueKeys(cfg.policy, s.tasks, s1.tasks, s.rqs[c].queue, x);
      FlagMeans(h, x, t, s.rqs[c], r.ph[c]);
      EnqueuedKeys(cfg, s, s1, DoEnqueue(cfg, s1, x, c, false), x, c);
      EnqueuedOrder(cfg, h, NewEnq(cfg, s, r.ph, c, x, s1.tasks[x]), s, DoEnqueue(cfg, s1, x, c, false), c, s1.tasks[x]);
    } else {
      NewTaskHasPhase(t);
      assert h + FireNote(cfg, r, c) == h;
      var s' := Fire(cfg, s, c, now + 1);
      FinishedShape(cfg, s, c, now + 1);
      forall d | 0 <= d < |s.rqs| ensures QueueInOrder(cfg, h, s'.tasks, s'.rqs[d].queue) {
        OrderUntouched(cfg, h, s.tasks, s'.tasks, s.rqs[d].queue, x);
      }
    }
  }

  lemma FinishedShape(cfg: Config, s: Sys, c: nat, step: int)
    requires WellFormed(s) && c < |s.rqs| && s.events[c] != []
    requires var e := s.events[c][0]; e.kind.TaskAwake? && s.tasks[e.task].curPhase + 1 >= |s.tasks[e.task].phases|
    ensures var s' := Fire(cfg, s, c, step); var x := s.events[c][0].task;
      s'.rqs == s.rqs && |s'.tasks| == |s.tasks| && s'.tasks == s.tasks[x := s'.tasks[x]]
  {
  }

  lemma OrderUntouched(cfg: Config, h: seq<Enq>, tasks: seq<Task>, tasks': seq<Task>, queue: seq<nat>, x: nat)
    requires QueueInOrder(cfg, h, tasks, queue) && x !in queue && |tasks'| == |tasks|
    requires forall y :: 0 <= y < |tasks| && y != x ==> Key(cfg.policy, tasks'[y]) == Key(cfg.policy, tasks[y])
    ensures QueueInOrder(cfg, h, tasks', queue)
  {
    hide Key;
    forall i | 0 <= i < |queue| ensures queue[i] != x {}
    OrderFrame(cfg, h, tasks, tasks', queue);
  }

  lemma SameQueueKeys(p: Policy, tasks: seq<Task>, tasks': seq<Task>, queue: seq<nat>, x: nat)
    requires x !in queue && |tasks'| == |tasks| && forall i :: 0 <= i < |queue| ==> queue[i] < |tasks|
    requires forall y :: 0 <= y < |tasks| && y != x ==> Key(p, tasks'[y]) == Key(p, tasks[y])
    ensures QueueKeys(p, tasks', queue) == QueueKeys(p, tasks, queue)
  {
    hide Key;
    forall i | 0 <= i < |queue| ensures queue[i] != x {}
  }

  lemma FlagMeans(h: seq<Enq>, x: nat, t: Task, q: Rq, p: Phase)
    requires FlagOk(h, x, t, q, p)
    ensures t.insertFront <==> Beaten(h, x)
  {
  }

  lemma EnqueuedKeys(cfg: Config, s: Sys, s1: Sys, s': Sys, x: nat, c: nat)
    requires x < |s.tasks| == |s1.tasks| == |s'.tasks| && s1.tasks == s.tasks[x := s1.tasks[x]]
    requires forall y :: 0 <= y < |s.tasks| && y != x ==> SameCore(s1.tasks[y], s'.tasks[y])
    requires SameCore(s1.tasks[x].(onRq := true, lastCpu := c), s'.tasks[x])
    ensures forall y :: 0 <= y < |s.tasks| && y != x ==> Key(cfg.policy, s'.tasks[y]) == Key(cfg.policy, s.tasks[y])
    ensures Key(cfg.policy, s'.tasks[x]) == Key(cfg.policy, s1.tasks[x])
  {
  }

  lemma MoveOrder(cfg: Config, h: seq<Enq>, s: Sys, now: int, ph: seq<Phase>, src: nat, dst: nat)
    requires SysOk(s, now, ph) && WellFormed(s) && src < |s.rqs| && dst < |s.rqs| == |ph| && src != dst
    requires AllSorted(cfg, s) && FlagsOk(h, s, ph) && OrderOk(cfg, h, s)
    ensures OrderOk(cfg, h + MoveNote(cfg, s, ph, src, dst), Rebalance(cfg, s, src, dst, now))
  {
    hide SysOk, TaskOk, QueuedOk, FlagOk, DoEnqueue, EventsInRange, NewEnq, QueueInOrder, CpuSorted, QueuePos, InsertAt, Key, AddLog;
    var q := s.rqs[src];
    if q.nrRunnable - s.rqs[dst].nrRunnable > 1 {
      var x := StealFinds(s, now, ph, src, dst);
      StolenSorted(cfg, s, now, ph, src, x);
      var s0 := s.(rqs := s.rqs[src := q.(queue := q.queue[..|q.queue| - 1], nrRunnable := q.nrRunnable - 1)]);
      StolenOrder(cfg, h, s, s0, src);
      var s1 := Steal(s, src);
      var pos := DoEnqueueShape(cfg, s1, x, dst, false);
      SortedQueue(cfg, s, dst);
      SameQueueKeys(cfg.policy, s.tasks, s1.tasks, s.rqs[dst].queue, x) by { StealKeys(cfg.policy, s, src); }
      FlagMeans(h, x, s.tasks[x], s.rqs[s.tasks[x].lastCpu], ph[s.tasks[x].lastCpu]);
      MovedKeys(cfg, s, src, dst, x, now);
      NewEnqFields(cfg, s, ph, dst, x, s.tasks[x]);
      EnqueuedOrder(cfg, h, NewEnq(cfg, s, ph, dst, x, s.tasks[x]), s0, MoveOneTask(cfg, s, src, dst, now), dst, s.tasks[x]);
    } else {
      assert h + MoveNote(cfg, s, ph, src, dst) == h;
    }
  }

  lemma StealKeys(p: Policy, s: Sys, src: nat)
    requires WellFormed(s) && src < |s.rqs| && s.rqs[src].queue != []
    ensures forall y :: 0 <= y < |s.tasks| ==> Key(p, Steal(s, src).tasks[y]) == Key(p, s.tasks[y])
  {
  }

  lemma StolenOrder(cfg: Config, h: seq<Enq>, s: Sys, s0: Sys, src: nat)
    requires OrderOk(cfg, h, s) && src < |s.rqs| && s0.tasks == s.tasks && |s0.rqs| == |s.rqs| && s.rqs[src].queue != []
    requires s0.rqs[src].queue == s.rqs[src].queue[..|s.rqs[src].queue| - 1]
    requires forall d :: 0 <= d < |s.rqs| && d != src ==> s0.rqs[d] == s.rqs[d]
    ensures OrderOk(cfg, h, s0)
  {
    hide QueueInOrder;
    var q := s.rqs[src].queue;
    assert q[0..|q| - 1] == q[..|q| - 1];
    OrderSlice(cfg, h, s.tasks, q, 0, |q| - 1);
  }

  lemma MovedKeys(cfg: Config, s: Sys, src: nat, dst: nat, x: nat, now: int)
    requires WellFormed(s) && src < |s.rqs| && dst < |s.rqs| && src != dst && s.rqs[src].queue != []
    requires x == s.rqs[src].queue[|s.rqs[src].queue| - 1] && x < |s.tasks|
    ensures var s' := MoveOneTask(cfg, s, src, dst, now); var s1 := Steal(s, src);
      && |s'.tasks| == |s.tasks| && |s'.rqs| == |s.rqs|
      && (forall y :: 0 <= y < |s.tasks| ==> Key(cfg.policy, s'.tasks[y]) == Key(cfg.policy, s.tasks[y]))
      && (forall d :: 0 <= d < |s.rqs| && d != dst ==> s'.rqs[d].queue == s1.rqs[d].queue)
      && s'.rqs[dst].queue == InsertAt(s.rqs[dst].queue, QueuePos(cfg.policy, QueueKeys(cfg.policy, s1.tasks, s.rqs[dst].queue), s1.tasks[x]), x)
      && QueuePos(cfg.policy, QueueKeys(cfg.policy, s1.tasks, s.rqs[dst].queue), s1.tasks[x])
         == QueuePos(cfg.policy, QueueKeys(cfg.policy, s1.tasks, s.rqs[dst].queue), s.tasks[x])
  {
    hide DoEnqueue, AddLog, EventsInRange, InsertPos;
    var s1 := Steal(s, src);
    var pos := DoEnqueueShape(cfg, s1, x, dst, false);
    StealKeys(cfg.policy, s, src);
  }

  lemma ScheduleOrder(cfg: Config, h: seq<Enq>, s: Sys, now: int, ph: seq<Phase>, c: nat)
    requires SysOk(s, now, ph) && WellFormed(s) && c < |s.rqs| && ph[c].Balanced?
    requires AllSorted(cfg, s) && FlagsOk(h, s, ph) && OrderOk(cfg, h, s)
    ensures OrderOk(cfg, h + ScheduleNote(s, c), Schedule(cfg, s, c, now))
  {
    hide SysOk, TaskOk, FlagOk, QueueInOrder, CpuSorted, QueuePos, InsertAt, Key, Schedule, SwitchedTasks, WellFormed;
    var q := s.rqs[c];
    CurrentHereOk(s, now, ph, c);
    if q.needResched || q.cur.None? {
      var pos := ScheduleShape(cfg, s, c, now);
      var s' := Schedule(cfg, s, c, now);
      forall y | 0 <= y < |s.tasks| ensures Key(cfg.policy, s'.tasks[y]) == Key(cfg.policy, s.tasks[y]) {
        SwitchedKeys(cfg, s.tasks, s'.tasks, q.cur, s'.rqs[c].cur, c, now, y);
      }
      if Running(s.tasks, q.cur) {
        RequeuedOrder(cfg, h, s, s', now, ph, c, pos);
      } else {
        assert h + ScheduleNote(s, c) == h;
        PickedOrder(cfg, h, s, s', c, q.queue);
      }
    } else {
      ScheduleNothing(cfg, s, c, now);
      assert h + ScheduleNote(s, c) == h;
    }
  }

  /** The head of `from` is picked, the rest waits. */
  lemma PickedOrder(cfg: Config, h: seq<Enq>, s: Sys, s': Sys, c: nat, from: seq<nat>)
    requires c < |s.rqs| == |s'.rqs| && |s'.tasks| == |s.tasks| && QueueInOrder(cfg, h, s.tasks, from)
    requires forall d :: 0 <= d < |s.rqs| && d != c ==> QueueInOrder(cfg, h, s.tasks, s.rqs[d].queue) && s'.rqs[d] == s.rqs[d]
    requires forall y :: 0 <= y < |s.tasks| ==> Key(cfg.policy, s'.tasks[y]) == Key(cfg.policy, s.tasks[y])
    requires s'.rqs[c].queue == if from == [] then [] else from[1..]
    ensures OrderOk(cfg, h, s')
  {
    hide QueueInOrder, Key;
    forall d | 0 <= d < |s.rqs| ensures QueueInOrder(cfg, h, s'.tasks, s'.rqs[d].queue) {
      if d == c {
        if from != [] {
          OrderSlice(cfg, h, s.tasks, from, 1, |from|);
          assert from[1..|from|] == from[1..];
        }
        OrderIndices(cfg, h, s.tasks, s'.rqs[c].queue);
        OrderFrame(cfg, h, s.tasks, s'.tasks, s'.rqs[c].queue);
      } else {
        OrderIndices(cfg, h, s.tasks, s.rqs[d].queue);
        OrderFrame(cfg, h, s.tasks, s'.tasks, s.rqs[d].queue);
      }
    }
  }

  lemma RequeuedOrder(cfg: Config, h: seq<Enq>, s: Sys, s': Sys, now: int, ph: seq<Phase>, c: nat, pos: nat)
    requires SysOk(s, now, ph) && WellFormed(s) && c < |s.rqs| && AllSorted(cfg, s) && FlagsOk(h, s, ph) && OrderOk(cfg, h, s)
    requires Running(s.tasks, s.rqs[c].cur) && s.rqs[c].needResched && pos == ClassPos(cfg, s, s.rqs[c].cur.value, c)
    requires SwitchedTo(s, s', c, now, pos)
    requires forall y :: 0 <= y < |s.tasks| && y < |s'.tasks| ==> Key(cfg.policy, s'.tasks[y]) == Key(cfg.policy, s.tasks[y])
    ensures OrderOk(cfg, h + ScheduleNote(s, c), s')
  {
    hide SysOk, TaskOk, FlagOk, QueueInOrder, CpuSorted, QueuePos, InsertAt, Key, SwitchedTasks, WellFormed;
    var x := s.rqs[c].cur.value;
    var e := Enq(x, None, false, false, true);
    assert ScheduleNote(s, c) == [e];
    forall d | 0 <= d < |s.rqs| ensures x !in s.rqs[d].queue { NotQueued(s, now, ph, x, d); }
    SortedQueue(cfg, s, c);
    CurrentHereOk(s, now, ph, c);
    FlagMeans(h, x, s.tasks[x], s.rqs[c], ph[c]);
    var from := PickFrom(s, c, pos);
    var s1 := s.(rqs := s.rqs[c := s.rqs[c].(queue := from)]);
    EnqueuedOrder(cfg, h, e, s, s1, c, s.tasks[x]);
    assert |s'.tasks| == |s.tasks| by { SwitchedLength(s, s', c, now, pos); }
    PickedOrder(cfg, h + [e], s1, s', c, from);
  }

  lemma SwitchedLength(s: Sys, s': Sys, c: nat, now: int, pos: nat)
    requires c < |s.rqs| && SwitchedTo(s, s', c, now, pos)
    ensures |s'.tasks| == |s.tasks|
  {
  }

  lemma FirstPickOrder(cfg: Config, h: seq<Enq>, s: Sys, c: nat)
    requires WellFormed(s) && c < |s.rqs| && OrderOk(cfg, h, s)
    ensures OrderOk(cfg, h, FirstPick(s, c))
  {
    hide QueueInOrder, EventsInRange;
    var s' := FirstPick(s, c);
    PickedOrder(cfg, h, s, s', c, s.rqs[c].queue);
  }

  lemma TickOrder(cfg: Config, h: seq<Enq>, s: Sys, now: int, ph: seq<Phase>, c: nat)
    requires SysOk(s, now, ph) && WellFormed(s) && c < |s.rqs| && ph[c].Start? && OrderOk(cfg, h, s)
    ensures OrderOk(cfg, h, Tick(cfg, s, c, now))
  {
    hide SysOk, QueueInOrder, TickedTask, TaskOk, Tick, Key, WellFormed;
    var s' := Tick(cfg, s, c, now);
    TickedTasks(cfg, s, now, ph, c);
    TickedQueues(cfg, s, c, now);
    forall d | 0 <= d < |s.rqs| ensures QueueInOrder(cfg, h, s'.tasks, s'.rqs[d].queue) {
      if s.rqs[c].cur.Some? {
        NotQueued(s, now, ph, s.rqs[c].cur.value, d);
        OrderUntouched(cfg, h, s.tasks, s'.tasks, s.rqs[d].queue, s.rqs[c].cur.value);
      }
    }
  }

  lemma TickedQueues(cfg: Config, s: Sys, c: nat, now: int)
    requires WellFormed(s) && c < |s.rqs|
    ensures var s' := Tick(cfg, s, c, now);
      && |s'.rqs| == |s.rqs| && (forall d :: 0 <= d < |s.rqs| ==> s'.rqs[d].queue == s.rqs[d].queue)
      && (s.rqs[c].cur.None? ==> s' == s) && (s.rqs[c].cur.Some? ==> s.rqs[c].cur.value < |s.tasks|)
  {
    hide Charge, Leave, InsertEvent, EventsInRange;
  }

  lemma StepOrder(cfg: Config, h: seq<Enq>, r: RState, st: Step)
    requires RInv(r) && Enabled(r, st) && AllSorted(cfg, r.s) && FlagsOk(h, r.s, r.ph) && OrderOk(cfg, h, r.s)
    ensures OrderOk(cfg, h + Noted(cfg, r, st), Apply(cfg, r, st).s)
  {
    hide RInv, SysOk, WellFormed, FlagsOk, QueueInOrder, Tick, Fire, Schedule, FirstPick, Rebalance, Stamp, FireNote, ScheduleNote, MoveNote, AllSorted;
    RunSysOk(r);
    match st
    case FireStep(c) => FireOrder(cfg, h, r, c);
    case ScheduleStep(c) => ScheduleOrder(cfg, h, r.s, r.now, r.ph, c);
    case BalanceTrial(c, loads) =>
      RemoteIsNotLocal(loads, c);
      match Choose(loads, c) {
        case PushTo(d) => MoveOrder(cfg, h, r.s, r.now, r.ph, c, d);
        case PullFrom(d) => MoveOrder(cfg, h, r.s, r.now, r.ph, d, c);
        case _ => assert h + [] == h;
      }
    case TickStep(c) =>
      assert h + [] == h;
      TickOrder(cfg, h, r.s, r.now, r.ph, c);
    case FirstPickStep(c) =>
      assert h + [] == h;
      FirstPickOrder(cfg, h, r.s, c);
    case _ => assert h + [] == h;
  }

  // ---------------------------------------------------------------- runs

  ghost predicate TiesInv(cfg: Config, h: seq<Enq>, r: RState) {
    RInv(r) && AllSorted(cfg, r.s) && FlagsOk(h, r.s, r.ph) && OrderOk(cfg, h, r.s) && RecordOk(cfg, h, |r.s.tasks|)
  }

  lemma StepTies(cfg: Config, h: seq<Enq>, r: RState, st: Step)
    requires ConfigOk(cfg) && TiesInv(cfg, h, r) && Enabled(r, st)
    ensures TiesInv(cfg, h + Noted(cfg, r, st), Apply(cfg, r, st)) && |Apply(cfg, r, st).s.tasks| == |r.s.tasks|
  {
    hide RInv, FlagsOk, OrderOk, RecordOk, Apply, Enabled, Noted;
    AllSortedClass(cfg, r.s);
    StepKeeps(cfg, r, st);
    hide AllSorted;
    StepSorted(cfg, r, st);
    StepFlags(cfg, h, r, st);
    StepOrder(cfg, h, r, st);
    StepRecord(cfg, h, r, st);
  }

  lemma AllSortedClass(cfg: Config, s: Sys)
    requires AllSorted(cfg, s)
    ensures SortedClass(cfg.policy)
  {
  }

  lemma {:induction false} RunTies(cfg: Config, h: seq<Enq>, r: RState, steps: seq<Step>, r': RState)
    requires ConfigOk(cfg) && TiesInv(cfg, h, r) && Reaches(cfg, r, steps, r')
    ensures TiesInv(cfg, h + History(cfg, r, steps), r') && |r'.s.tasks| == |r.s.tasks|
    decreases |steps|
  {
    hide TiesInv, Apply, Enabled, Noted;
    if steps == [] {
      assert h + History(cfg, r, steps) == h;
    } else {
      StepTies(cfg, h, r, steps[0]);
      var h1 := h + Noted(cfg, r, steps[0]);
      RunTies(cfg, h1, Apply(cfg, r, steps[0]), steps[1..], r');
      assert h + History(cfg, r, steps) == h1 + History(cfg, Apply(cfg, r, steps[0]), steps[1..]);
    }
  }

  lemma BootTies(cfg: Config, ps: seq<Profile>, n: nat)
    requires n >= 1 && ProfilesOk(ps) && SortedClass(cfg.policy)
    ensures TiesInv(cfg, [], Boot(cfg, ps, n))
  {
    BootInv(cfg, ps, n);
    BootSorted(cfg, ps, n);
    hide RInv, AllSorted, Arrivals;
    var r := Boot(cfg, ps, n);
    forall x | 0 <= x < |ps|
      ensures r.s.tasks[x].lastCpu < n && FlagOk([], x, r.s.tasks[x], r.s.rqs[r.s.tasks[x].lastCpu], r.ph[r.s.tasks[x].lastCpu])
    {
      assert r.s.tasks[x] == Loaded(cfg, ps[x], x, n);
    }
  }

  /** The history of a run from the start. */
  ghost function HistoryOf(cfg: Config, ps: seq<Profile>, n: nat, steps: seq<Step>): seq<Enq>
    requires n >= 1
  {
    History(cfg, Boot(cfg, ps, n), steps)
  }

  lemma RunFromTies(cfg: Config, ps: seq<Profile>, n: nat, steps: seq<Step>, r: RState)
    requires RunFrom(cfg, ps, n, steps, r) && SortedClass(cfg.policy)
    ensures n >= 1 && TiesInv(cfg, HistoryOf(cfg, ps, n, steps), r) && |r.s.tasks| == |ps|
  {
    hide TiesInv, Reaches, History, BootSys;
    BootTies(cfg, ps, n);
    var boot := Boot(cfg, ps, n);
    RunTies(cfg, [], boot, steps, r);
    assert [] + History(cfg, boot, steps) == History(cfg, boot, steps);
    RunInv(cfg, ps, n, steps, r);
  }

  /** In every run of a sorted class, the flag of a task is set exactly when, since its own last enqueue, a strictly
      better task has been enqueued on the CPU whose current task it was. */
  lemma FlagMeansBeaten(cfg: Config, ps: seq<Profile>, n: nat, steps: seq<Step>, r: RState, x: nat)
    requires RunFrom(cfg, ps, n, steps, r) && SortedClass(cfg.policy) && x < |ps|
    ensures |r.s.tasks| == |ps| && n >= 1
    ensures var h := HistoryOf(cfg, ps, n, steps);
      r.s.tasks[x].insertFront <==> exists j :: LastEnq(h, x) < j < |h| && h[j].beaten == Some(x)
  {
    hide RunFrom, RInv, AllSorted, OrderOk, RecordOk, HistoryOf, Beaten;
    RunFromTies(cfg, ps, n, steps, r);
    BeatenMeans(HistoryOf(cfg, ps, n, steps), x);
  }

  /** In every run of a sorted class, of two equal tasks on a queue the one that was enqueued later is behind, unless its
      enqueue carried the flag. */
  lemma TiesAreOrdered(cfg: Config, ps: seq<Profile>, n: nat, steps: seq<Step>, r: RState, c: nat, i: nat, j: nat)
    requires RunFrom(cfg, ps, n, steps, r) && SortedClass(cfg.policy) && c < n
    ensures |r.s.rqs| == n && RqInRange(r.s.rqs[c], |r.s.tasks|)
    ensures var q := r.s.rqs[c].queue; var h := HistoryOf(cfg, ps, n, steps);
      i < |q| && j < |q| && i != j && Key(cfg.policy, r.s.tasks[q[i]]) == Key(cfg.policy, r.s.tasks[q[j]]) ==>
        (i < j <==> Ahead(h, q[i], q[j]))
  {
    hide RunFrom, RInv, SysOk, AllSorted, FlagsOk, RecordOk, HistoryOf, Ahead, Key;
    RunFromTies(cfg, ps, n, steps, r);
    RunInv(cfg, ps, n, steps, r);
    InvSys(r);
    InvWellFormed(r.s, r.now, r.ph);
    var q := r.s.rqs[c].queue;
    var h := HistoryOf(cfg, ps, n, steps);
    assert QueueInOrder(cfg, h, r.s.tasks, q);
    if i < |q| && j < |q| && j < i && Key(cfg.policy, r.s.tasks[q[i]]) == Key(cfg.policy, r.s.tasks[q[j]]) {
      AheadOneWay(h, q[j], q[i]);
    }
  }

  // ---------------------------------------------------------------- when ties are fair

  /** The k-th enqueue is that of a preempted task: `schedule` put it back, and it had been beaten. */
  predicate Preempted(h: seq<Enq>, k: nat)
    requires k < |h|
  {
    h[k].requeued && Beaten(h[..k], h[k].task)
  }

  /** Ties are served in order of enqueueing, except that preempted tasks, and no others, go ahead of their equals. */
  ghost predicate FairTies(h: seq<Enq>) {
    forall k :: 0 <= k < |h| ==> (FrontAt(h, k) <==> Preempted(h, k))
  }

  /** At every point of every run: ties have been fair exactly if no task was enqueued after a late beat. */
  lemma FairSoFar(cfg: Config, ps: seq<Profile>, n: nat, steps: seq<Step>, r: RState)
    requires RunFrom(cfg, ps, n, steps, r) && SortedClass(cfg.policy)
    ensures n >= 1
    ensures var h := HistoryOf(cfg, ps, n, steps);
      FairTies(h) <==> forall k :: 0 <= k < |h| ==> !LateBeaten(h[..k], h[k].task)
  {
    hide RunFrom, RInv, AllSorted, OrderOk, FlagsOk, HistoryOf, Beaten, LateBeaten, AgainBeaten;
    RunFromTies(cfg, ps, n, steps, r);
    FairMeans(cfg, HistoryOf(cfg, ps, n, steps), |ps|);
  }

  lemma FairMeans(cfg: Config, h: seq<Enq>, n: nat)
    requires RecordOk(cfg, h, n)
    ensures FairTies(h) <==> forall k :: 0 <= k < |h| ==> !LateBeaten(h[..k], h[k].task)
  {
    hide Beaten, LateBeaten, AgainBeaten;
    forall k | 0 <= k < |h| ensures (FrontAt(h, k) <==> Preempted(h, k)) <==> !LateBeaten(h[..k], h[k].task) {
      assert NewRecord(cfg, h[..k], h[k], n);
      LateIsBeaten(h[..k], h[k].task);
    }
  }

  /** A late beat of a task with another CPU phase shows: its victim is enqueued later, or is still waiting for it. */
  lemma {:induction false} LateAgainShows(h: seq<Enq>, j: nat)
    requires j < |h| && h[j].late && h[j].again && h[j].beaten.Some? && h[j].beaten.value != h[j].task
    ensures (exists k :: 0 <= k < |h| && LateBeaten(h[..k], h[k].task)) || AgainBeaten(h, h[j].beaten.value)
  {
    var v := h[j].beaten.value;
    var init := h[..|h| - 1];
    if j < |h| - 1 {
      LateAgainShows(init, j);
      if k :| 0 <= k < |init| && LateBeaten(init[..k], init[k].task) {
        assert h[..k] == init[..k] && LateBeaten(h[..k], h[k].task);
      } else if h[|h| - 1].task == v {
        LateIsBeaten(init, v);
        assert LateBeaten(h[..|h| - 1], h[|h| - 1].task);
      }
    }
  }

  lemma {:induction false} AgainHas(h: seq<Enq>, x: nat)
    requires AgainBeaten(h, x)
    ensures exists j :: 0 <= j < |h| && h[j].late && h[j].again
  {
    if !(h[|h| - 1].beaten == Some(x) && h[|h| - 1].late && h[|h| - 1].again) { AgainHas(h[..|h| - 1], x); }
  }

  /** The exact condition, for every run that ends with all tasks complete: ties are fair if and only if no task was ever
      enqueued while the current task of that CPU was strictly worse, not going to be put back by `schedule` (asleep,
      complete, or in its last tick), and had another CPU phase to come. */
  lemma FairExactly(cfg: Config, ps: seq<Profile>, n: nat, steps: seq<Step>, r: RState)
    requires RunFrom(cfg, ps, n, steps, r) && SortedClass(cfg.policy)
    requires forall x :: 0 <= x < |r.s.tasks| ==> r.s.tasks[x].state == Completed
    ensures n >= 1
    ensures var h := HistoryOf(cfg, ps, n, steps);
      FairTies(h) <==> forall j :: 0 <= j < |h| && h[j].late ==> !h[j].again
  {
    hide RunFrom, RInv, AllSorted, OrderOk, HistoryOf, Beaten, LateBeaten, AgainBeaten, LateSame, FairTies;
    RunFromTies(cfg, ps, n, steps, r);
    var h := HistoryOf(cfg, ps, n, steps);
    FairMeans(cfg, h, |ps|);
    if j :| 0 <= j < |h| && h[j].late && h[j].again {
      assert NewRecord(cfg, h[..j], h[j], |ps|);
      LateAgainShows(h, j);
      CompleteNotAgain(h, h[j].beaten.value, r);
    }
    if k :| 0 <= k < |h| && LateBeaten(h[..k], h[k].task) {
      assert NewRecord(cfg, h[..k], h[k], |ps|);
      AgainHas(h[..k], h[k].task);
      var j :| 0 <= j < |h[..k]| && h[..k][j].late && h[..k][j].again;
      assert h[j].late && h[j].again;
    }
  }

  lemma CompleteNotAgain(h: seq<Enq>, x: nat, r: RState)
    requires FlagsOk(h, r.s, r.ph) && x < |r.s.tasks| && r.s.tasks[x].state == Completed
    ensures !AgainBeaten(h, x)
  {
    SameMeansNotAgain(h, x);
  }

  /** Ties are always fair under SJF, TJF and TJFEX, and under every sorted class without preemption. */
  lemma FairWithoutPriorities(cfg: Config, ps: seq<Profile>, n: nat, steps: seq<Step>, r: RState)
    requires RunFrom(cfg, ps, n, steps, r) && SortedClass(cfg.policy) && (!cfg.policy.Prio? || !cfg.preemptive)
    ensures n >= 1 && FairTies(HistoryOf(cfg, ps, n, steps))
  {
    hide RunFrom, RInv, AllSorted, OrderOk, FlagsOk, HistoryOf, Beaten, LateBeaten, AgainBeaten, FairTies;
    RunFromTies(cfg, ps, n, steps, r);
    var h := HistoryOf(cfg, ps, n, steps);
    FairMeans(cfg, h, |ps|);
    forall k | 0 <= k < |h| ensures !LateBeaten(h[..k], h[k].task) {
      forall j | 0 <= j < k ensures !h[..k][j].late {
        assert NewRecord(cfg, h[..j], h[j], |ps|);
      }
      NeverLate(h[..k], h[k].task);
    }
  }

  lemma {:induction false} NeverLate(h: seq<Enq>, x: nat)
    requires forall j :: 0 <= j < |h| ==> !h[j].late
    ensures !LateBeaten(h, x)
  {
    if h != [] { NeverLate(h[..|h| - 1], x); }
  }
}
