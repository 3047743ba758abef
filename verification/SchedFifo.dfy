/** FCFS and RR serve the tasks of a CPU in the order in which they were enqueued, and FCFS never takes the processor away. */
module SchedFifo {
  import opened Basics
  import opened SchedTypes
  import opened SchedSteps
  import opened SchedClocks
  import opened SchedInvariant
  import opened SchedKeeps
  import opened SchedBalance
  import opened SchedRuns
  import opened SchedTheorems
  import opened SchedSlices
  import opened SchedPreempt
  import opened SchedHistory
  import opened SchedFlags
  import opened SchedTies

  /** Who is served by CPU c, in order: the running task and then the queue. */
  function Line(s: Sys, c: nat): seq<nat>
    requires c < |s.rqs|
  {
    (if Running(s.tasks, s.rqs[c].cur) then [s.rqs[c].cur.value] else []) + s.rqs[c].queue
  }

  /** The tasks were enqueued in this order. */
  ghost predicate InLine(h: seq<Enq>, line: seq<nat>) {
    && (forall i :: 0 <= i < |line| ==> LastEnq(h, line[i]) >= 0)
    && (forall i, j :: 0 <= i < j < |line| ==> LastEnq(h, line[i]) < LastEnq(h, line[j]))
  }

  ghost predicate AllInLine(h: seq<Enq>, s: Sys) {
    forall c :: 0 <= c < |s.rqs| ==> InLine(h, Line(s, c))
  }

  lemma LineSlice(h: seq<Enq>, line: seq<nat>, lo: nat, hi: nat)
    requires InLine(h, line) && lo <= hi <= |line|
    ensures InLine(h, line[lo..hi])
  {
    hide LastEnq;
    forall i | 0 <= i < hi - lo ensures line[lo..hi][i] == line[lo + i] {}
  }

  /** An enqueue of another task. */
  lemma LineElsewhere(h: seq<Enq>, e: Enq, line: seq<nat>)
    requires InLine(h, line) && e.task !in line
    ensures InLine(h + [e], line)
  {
    hide LastEnq;
    forall i | 0 <= i < |line| ensures LastEnq(h + [e], line[i]) == LastEnq(h, line[i]) { OneEnq(h, e, line[i]); }
  }

  /** The enqueued task goes to the end. */
  lemma LineAppend(h: seq<Enq>, e: Enq, line: seq<nat>)
    requires InLine(h, line) && e.task !in line
    ensures InLine(h + [e], line + [e.task])
  {
    hide LastEnq;
    LineElsewhere(h, e, line);
    OneEnq(h, e, e.task);
    forall i | 0 <= i < |line| ensures LastEnq(h + [e], line[i]) < |h| { OneEnq(h, e, line[i]); }
  }

  /** CPU d of s' still has its queue, and runs what it ran, if anything. */
  ghost predicate LineKept(s: Sys, s': Sys, d: nat)
    requires d < |s.rqs| && d < |s'.rqs|
  {
    && s'.rqs[d].queue == s.rqs[d].queue
    && (Running(s'.tasks, s'.rqs[d].cur) ==> Running(s.tasks, s.rqs[d].cur) && s'.rqs[d].cur == s.rqs[d].cur)
  }

  lemma KeptInLine(h: seq<Enq>, s: Sys, s': Sys, d: nat)
    requires d < |s.rqs| && d < |s'.rqs| && InLine(h, Line(s, d)) && LineKept(s, s', d)
    ensures InLine(h, Line(s', d))
  {
    hide InLine;
    var line := Line(s, d);
    LineSlice(h, line, |line| - |s.rqs[d].queue|, |line|);
    assert line[|line| - |s.rqs[d].queue|..|line|] == s.rqs[d].queue;
    assert Line(s', d) == line || Line(s', d) == s.rqs[d].queue;
  }

  /** Task x is appended to the queue of CPU c. */
  lemma EnqueuedInLine(h: seq<Enq>, e: Enq, s: Sys, s': Sys, c: nat)
    requires AllInLine(h, s) && c < |s.rqs| == |s'.rqs|
    requires forall d :: 0 <= d < |s.rqs| ==> e.task !in Line(s, d)
    requires s'.rqs[c].queue == s.rqs[c].queue + [e.task]
    requires Running(s'.tasks, s'.rqs[c].cur) ==> Running(s.tasks, s.rqs[c].cur) && s'.rqs[c].cur == s.rqs[c].cur
    requires forall d :: 0 <= d < |s.rqs| && d != c ==> LineKept(s, s', d)
    ensures AllInLine(h + [e], s')
  {
    hide InLine;
    forall d | 0 <= d < |s.rqs| ensures InLine(h + [e], Line(s', d)) {
      if d == c {
        var line := Line(s, c);
        LineAppend(h, e, line);
        var r := line + [e.task];
        LineSlice(h + [e], r, |line| - |s.rqs[c].queue|, |r|);
        assert r[|line| - |s.rqs[c].queue|..|r|] == s'.rqs[c].queue;
        assert Line(s', c) == r || Line(s', c) == s'.rqs[c].queue;
      } else {
        LineElsewhere(h, e, Line(s, d));
        KeptInLine(h + [e], s, s', d);
      }
    }
  }

  lemma AllKept(h: seq<Enq>, s: Sys, s': Sys)
    requires AllInLine(h, s) && |s'.rqs| == |s.rqs| && forall d :: 0 <= d < |s.rqs| ==> LineKept(s, s', d)
    ensures AllInLine(h, s')
  {
    hide InLine, LineKept;
    forall d | 0 <= d < |s.rqs| ensures InLine(h, Line(s', d)) { KeptInLine(h, s, s', d); }
  }

  // ---------------------------------------------------------------- the sections

  /** An unsorted class appends. */
  lemma Appended(cfg: Config, s: Sys, x: nat, c: nat)
    requires !SortedClass(cfg.policy) && WellFormed(s) && x < |s.tasks| && c < |s.rqs| && !s.tasks[x].onRq
    ensures var s' := DoEnqueue(cfg, s, x, c, false);
      && |s'.rqs| == |s.rqs| && |s'.tasks| == |s.tasks|
      && s'.rqs[c].queue == s.rqs[c].queue + [x] && s'.rqs[c].cur == s.rqs[c].cur && s'.rqs[c].needResched == s.rqs[c].needResched
      && (forall d :: 0 <= d < |s.rqs| && d != c ==> s'.rqs[d] == s.rqs[d])
      && (forall y :: 0 <= y < |s.tasks| ==> s'.tasks[y].state == s.tasks[y].state)
  {
    hide EventsInRange, QueueKeys;
  }

  lemma NotInLine(s: Sys, now: int, ph: seq<Phase>, x: nat, d: nat)
    requires SysOk(s, now, ph) && x < |s.tasks| && d < |s.rqs|
    requires s.tasks[x].state != Runnable && s.tasks[x].state != OnProc
    ensures x !in Line(s, d)
  {
    hide SysOk;
    NotQueued(s, now, ph, x, d);
  }

  lemma FireInLine(cfg: Config, h: seq<Enq>, r: RState, c: nat)
    requires RInv(r) && Enabled(r, FireStep(c)) && !SortedClass(cfg.policy) && AllInLine(h, r.s)
    ensures AllInLine(h + FireNote(cfg, r, c), Fire(cfg, r.s, c, r.now + 1))
  {
    hide RInv, Fire, DoEnqueue, TaskOk, End, InLine, EventsInRange, SysOk, Line;
    RunSysOk(r);
    DueIsNotCurrent(r.s, r.now, r.ph, c);
    var s, now := r.s, r.now;
    var e := s.events[c][0];
    var x := e.task;
    var t := s.tasks[x];
    var k := WokenPhase(t, e);
    forall d | 0 <= d < |s.rqs| ensures x !in Line(s, d) { NotInLine(s, now, r.ph, x, d); }
    if k < |t.phases| {
      PhaseOfEvent(t, e);
      WokenOk(t, now + 1, k);
      FireIsEnqueue(cfg, s, c, now + 1, k);
      var s1 := s.(events := s.events[c := s.events[c][1..]], tasks := s.tasks[x := Woken(t, k, now + 1)]);
      Appended(cfg, s1, x, c);
      EnqueuedInLine(h, NewEnq(cfg, s, r.ph, c, x, s1.tasks[x]), s, DoEnqueue(cfg, s1, x, c, false), c);
    } else {
      NewTaskHasPhase(t);
      assert h + FireNote(cfg, r, c) == h;
      FinishedShape(cfg, s, c, now + 1);
      FinishedState(cfg, s, c, now + 1);
      AllKept(h, s, Fire(cfg, s, c, now + 1));
    }
  }

  lemma FinishedState(cfg: Config, s: Sys, c: nat, step: int)
    requires WellFormed(s) && c < |s.rqs| && s.events[c] != []
    requires var e := s.events[c][0]; e.kind.TaskAwake? && s.tasks[e.task].curPhase + 1 >= |s.tasks[e.task].phases|
    ensures Fire(cfg, s, c, step).tasks[s.events[c][0].task].state == Completed
  {
  }

  /** The tail of a queue is taken away. */
  lemma StolenInLine(h: seq<Enq>, s: Sys, s0: Sys, src: nat)
    requires AllInLine(h, s) && src < |s.rqs| == |s0.rqs| && s0.tasks == s.tasks && s.rqs[src].queue != []
    requires s0.rqs[src].queue == s.rqs[src].queue[..|s.rqs[src].queue| - 1] && s0.rqs[src].cur == s.rqs[src].cur
    requires forall d :: 0 <= d < |s.rqs| && d != src ==> s0.rqs[d] == s.rqs[d]
    ensures AllInLine(h, s0)
  {
    hide InLine;
    forall d | 0 <= d < |s.rqs| ensures InLine(h, Line(s0, d)) {
      if d == src {
        var line := Line(s, src);
        LineSlice(h, line, 0, |line| - 1);
        assert Line(s0, src) == line[0..|line| - 1];
      } else {
        KeptInLine(h, s, s0, d);
      }
    }
  }

  lemma MoveInLine(cfg: Config, h: seq<Enq>, s: Sys, now: int, ph: seq<Phase>, src: nat, dst: nat)
    requires SysOk(s, now, ph) && WellFormed(s) && src < |s.rqs| && dst < |s.rqs| == |ph| && src != dst
    requires !SortedClass(cfg.policy) && AllInLine(h, s)
    ensures AllInLine(h + MoveNote(cfg, s, ph, src, dst), Rebalance(cfg, s, src, dst, now))
  {
    hide SysOk, TaskOk, QueuedOk, DoEnqueue, EventsInRange, NewEnq, InLine, AddLog;
    var q := s.rqs[src];
    if q.nrRunnable - s.rqs[dst].nrRunnable > 1 {
      var x := StealFinds(s, now, ph, src, dst);
      StolenElsewhere(s, now, ph, src, x);
      var s0 := s.(rqs := s.rqs[src := q.(queue := q.queue[..|q.queue| - 1], nrRunnable := q.nrRunnable - 1)]);
      StolenInLine(h, s, s0, src);
      Appended(cfg, Steal(s, src), x, dst);
      NewEnqFields(cfg, s, ph, dst, x, s.tasks[x]);
      EnqueuedInLine(h, NewEnq(cfg, s, ph, dst, x, s.tasks[x]), s0, MoveOneTask(cfg, s, src, dst, now), dst);
    } else {
      assert h + MoveNote(cfg, s, ph, src, dst) == h;
    }
  }

  /** The stolen task is in no other line. */
  lemma StolenElsewhere(s: Sys, now: int, ph: seq<Phase>, src: nat, x: nat)
    requires SysOk(s, now, ph) && src < |s.rqs| && s.rqs[src].queue != [] && x == s.rqs[src].queue[|s.rqs[src].queue| - 1]
    ensures x < |s.tasks| && s.tasks[x].state == Runnable
    ensures x !in s.rqs[src].queue[..|s.rqs[src].queue| - 1]
    ensures forall d :: 0 <= d < |s.rqs| && d != src ==> x !in s.rqs[d].queue
  {
    hide TaskOk, EventsOk, Placed, End;
    var q := s.rqs[src];
    assert CpuOk(s.tasks, q, s.events[src], src, now, ph[src]);
    assert QueuedOk(s.tasks[x], src, now);
    forall d | 0 <= d < |s.rqs| && d != src ensures x !in s.rqs[d].queue {
      NotElsewhere(s, now, ph, x, d);
    }
  }

  /** The head of `from` is picked, the rest waits. */
  lemma PickedInLine(h: seq<Enq>, s: Sys, s': Sys, c: nat, from: seq<nat>)
    requires c < |s.rqs| == |s'.rqs| && InLine(h, from)
    requires forall d :: 0 <= d < |s.rqs| && d != c ==> InLine(h, Line(s, d)) && LineKept(s, s', d)
    requires s'.rqs[c].queue == (if from == [] then [] else from[1..]) && s'.rqs[c].cur == (if from == [] then None else Some(from[0]))
    ensures AllInLine(h, s')
  {
    hide InLine;
    forall d | 0 <= d < |s.rqs| ensures InLine(h, Line(s', d)) {
      if d == c {
        if from != [] {
          LineSlice(h, from, 1, |from|);
          assert from[1..|from|] == from[1..] && [from[0]] + from[1..] == from;
          assert Line(s', d) == from || Line(s', d) == from[1..];
        } else {
          assert Line(s', d) == from;
        }
      } else {
        KeptInLine(h, s, s', d);
      }
    }
  }

  /** At a context switch of CPU c no other CPU starts or stops running a task. */
  lemma SwitchedKept(cfg: Config, s: Sys, s': Sys, now: int, ph: seq<Phase>, c: nat, pos: nat, d: nat)
    requires SysOk(s, now, ph) && c < |s.rqs| && d < |s.rqs| == |s'.rqs| && c != d && SwitchedTo(s, s', c, now, pos)
    ensures LineKept(s, s', d)
  {
    hide SysOk, PickFrom, SwitchIn;
    SwitchedLength(s, s', c, now, pos);
    SwitchedElsewhere(cfg, s, s', now, ph, c, pos, d);
  }

  lemma ScheduleInLine(cfg: Config, h: seq<Enq>, s: Sys, now: int, ph: seq<Phase>, c: nat)
    requires SysOk(s, now, ph) && WellFormed(s) && c < |s.rqs| && ph[c].Balanced? && !SortedClass(cfg.policy) && AllInLine(h, s)
    ensures AllInLine(h + ScheduleNote(s, c), Schedule(cfg, s, c, now))
  {
    hide SysOk, InLine, Schedule, SwitchedTasks, WellFormed, QueueKeys;
    var q := s.rqs[c];
    CurrentHereOk(s, now, ph, c);
    if q.needResched || q.cur.None? {
      var pos := ScheduleShape(cfg, s, c, now);
      var s' := Schedule(cfg, s, c, now);
      var from := PickFrom(s, c, pos);
      var h' := h + ScheduleNote(s, c);
      forall d | 0 <= d < |s.rqs| && d != c ensures InLine(h', Line(s, d)) && LineKept(s, s', d) {
        SwitchedKept(cfg, s, s', now, ph, c, pos, d);
        NotedInLine(h, s, now, ph, c, d);
      }
      FromInLine(h, s, now, ph, c);
      if Running(s.tasks, q.cur) { assert from == q.queue + [q.cur.value]; }
      PickedInLine(h', s, s', c, from);
    } else {
      ScheduleNothing(cfg, s, c, now);
      assert h + ScheduleNote(s, c) == h;
    }
  }

  lemma NotedInLine(h: seq<Enq>, s: Sys, now: int, ph: seq<Phase>, c: nat, d: nat)
    requires SysOk(s, now, ph) && c < |s.rqs| && d < |s.rqs| && c != d && InLine(h, Line(s, d))
    ensures InLine(h + ScheduleNote(s, c), Line(s, d))
  {
    hide SysOk, InLine;
    if s.rqs[c].needResched && Running(s.tasks, s.rqs[c].cur) {
      CurrentHereOk(s, now, ph, c);
      NotElsewhere(s, now, ph, s.rqs[c].cur.value, d);
      LineElsewhere(h, Enq(s.rqs[c].cur.value, None, false, false, true), Line(s, d));
    } else {
      assert h + [] == h;
    }
  }

  /** The running task is put back at the end of the queue. */
  lemma FromInLine(h: seq<Enq>, s: Sys, now: int, ph: seq<Phase>, c: nat)
    requires SysOk(s, now, ph) && c < |s.rqs| && InLine(h, Line(s, c)) && (s.rqs[c].needResched || s.rqs[c].cur.None?)
    ensures var q := s.rqs[c];
      InLine(h + ScheduleNote(s, c), if Running(s.tasks, q.cur) then q.queue + [q.cur.value] else q.queue)
  {
    hide SysOk, InLine;
    var q := s.rqs[c];
    var line := Line(s, c);
    if Running(s.tasks, q.cur) {
      NotQueued(s, now, ph, q.cur.value, c);
      LineSlice(h, line, 1, |line|);
      assert line[1..|line|] == q.queue;
      LineAppend(h, Enq(q.cur.value, None, false, false, true), q.queue);
    } else {
      assert line == q.queue && h + [] == h;
    }
  }

  lemma FirstPickInLine(h: seq<Enq>, s: Sys, ph: seq<Phase>, c: nat)
    requires SysOk(s, -1, ph) && WellFormed(s) && c < |s.rqs| && s.rqs[c].cur.None? && AllInLine(h, s)
    ensures AllInLine(h, FirstPick(s, c))
  {
    hide InLine, EventsInRange, SysOk;
    var s' := FirstPick(s, c);
    var q := s.rqs[c];
    assert Line(s, c) == q.queue;
    forall d | 0 <= d < |s.rqs| && d != c ensures LineKept(s, s', d) {
      if q.queue != [] { HeadElsewhere(s, ph, c, d); }
    }
    PickedInLine(h, s, s', c, q.queue);
  }

  lemma HeadElsewhere(s: Sys, ph: seq<Phase>, c: nat, d: nat)
    requires SysOk(s, -1, ph) && c < |s.rqs| && d < |s.rqs| && c != d && s.rqs[c].queue != []
    ensures s.rqs[d].cur != Some(s.rqs[c].queue[0])
  {
    hide TaskOk, EventsOk, Placed, End;
    assert CpuOk(s.tasks, s.rqs[c], s.events[c], c, -1, ph[c]);
    assert QueuedOk(s.tasks[s.rqs[c].queue[0]], c, -1);
    NotElsewhere(s, -1, ph, s.rqs[c].queue[0], d);
  }

  lemma TickInLine(cfg: Config, h: seq<Enq>, s: Sys, now: int, ph: seq<Phase>, c: nat)
    requires SysOk(s, now, ph) && WellFormed(s) && c < |s.rqs| && ph[c].Start? && AllInLine(h, s)
    ensures AllInLine(h, Tick(cfg, s, c, now))
  {
    hide SysOk, InLine, TickedTask, TaskOk, Tick, WellFormed, Line;
    TickedTasks(cfg, s, now, ph, c);
    TickedQueues(cfg, s, c, now);
    AllKept(h, s, Tick(cfg, s, c, now));
  }

  lemma StepInLine(cfg: Config, h: seq<Enq>, r: RState, st: Step)
    requires RInv(r) && Enabled(r, st) && !SortedClass(cfg.policy) && AllInLine(h, r.s)
    ensures AllInLine(h + Noted(cfg, r, st), Apply(cfg, r, st).s)
  {
    hide RInv, SysOk, WellFormed, InLine, Line, Tick, Fire, Schedule, FirstPick, Rebalance, Stamp, FireNote, ScheduleNote, MoveNote;
    RunSysOk(r);
    match st
    case FireStep(c) => FireInLine(cfg, h, r, c);
    case ScheduleStep(c) => ScheduleInLine(cfg, h, r.s, r.now, r.ph, c);
    case BalanceTrial(c, loads) =>
      RemoteIsNotLocal(loads, c);
      match Choose(loads, c) {
        case PushTo(d) => MoveInLine(cfg, h, r.s, r.now, r.ph, c, d);
        case PullFrom(d) => MoveInLine(cfg, h, r.s, r.now, r.ph, d, c);
        case _ => assert h + [] == h;
      }
    case TickStep(c) =>
      assert h + [] == h;
      TickInLine(cfg, h, r.s, r.now, r.ph, c);
    case FirstPickStep(c) =>
      assert h + [] == h;
      FirstPickBooting(r, c);
      FirstPickInLine(h, r.s, r.ph, c);
    case BalanceBegin(c) =>
      assert h + [] == h;
      NextLbKept(h, r.s, c, r.now);
    case BalanceEnd(c) =>
      assert h + [] == h;
      NextLbKept(h, r.s, c, r.s.rqs[c].nextLb + cfg.period);
    case _ => assert h + [] == h;
  }

  lemma NextLbKept(h: seq<Enq>, s: Sys, c: nat, when: int)
    requires AllInLine(h, s) && c < |s.rqs|
    ensures AllInLine(h, SetNextLb(s, c, when))
  {
    hide InLine;
    AllKept(h, s, SetNextLb(s, c, when));
  }

  // ---------------------------------------------------------------- runs

  lemma {:induction false} RunInLine(cfg: Config, h: seq<Enq>, r: RState, steps: seq<Step>, r': RState)
    requires ConfigOk(cfg) && RInv(r) && !SortedClass(cfg.policy) && AllInLine(h, r.s) && Reaches(cfg, r, steps, r')
    ensures AllInLine(h + History(cfg, r, steps), r'.s)
    decreases |steps|
  {
    hide RInv, AllInLine, Apply, Enabled, Noted;
    if steps == [] {
      assert h + History(cfg, r, steps) == h;
    } else {
      StepKeeps(cfg, r, steps[0]);
      StepInLine(cfg, h, r, steps[0]);
      var h1 := h + Noted(cfg, r, steps[0]);
      RunInLine(cfg, h1, Apply(cfg, r, steps[0]), steps[1..], r');
      assert h + History(cfg, r, steps) == h1 + History(cfg, Apply(cfg, r, steps[0]), steps[1..]);
    }
  }

  lemma BootInLine(cfg: Config, ps: seq<Profile>, n: nat)
    requires n >= 1
    ensures AllInLine([], BootSys(cfg, ps, n))
  {
  }

  lemma RunFromInLine(cfg: Config, ps: seq<Profile>, n: nat, steps: seq<Step>, r: RState)
    requires RunFrom(cfg, ps, n, steps, r) && !SortedClass(cfg.policy)
    ensures n >= 1 && |r.s.rqs| == n && AllInLine(HistoryOf(cfg, ps, n, steps), r.s)
  {
    BootInv(cfg, ps, n);
    RunInv(cfg, ps, n, steps, r);
    BootInLine(cfg, ps, n);
    hide RInv, AllInLine, Reaches, History, BootSys;
    var boot := Boot(cfg, ps, n);
    RunInLine(cfg, [], boot, steps, r);
    assert [] + History(cfg, boot, steps) == History(cfg, boot, steps);
  }

  /** In every run of FCFS and RR, with any number of CPUs: of two tasks on a queue the one in front was enqueued first, and
      the running task before all of them. */
  lemma FirstComeFirstServed(cfg: Config, ps: seq<Profile>, n: nat, steps: seq<Step>, r: RState, c: nat, i: nat, j: nat)
    requires RunFrom(cfg, ps, n, steps, r) && (cfg.policy.Fcfs? || cfg.policy.Rr?) && c < n
    ensures |r.s.rqs| == n
    ensures var q := r.s.rqs[c]; var h := HistoryOf(cfg, ps, n, steps);
      && (i < j < |q.queue| ==> 0 <= LastEnq(h, q.queue[i]) < LastEnq(h, q.queue[j]))
      && (Running(r.s.tasks, q.cur) && i < |q.queue| ==> 0 <= LastEnq(h, q.cur.value) < LastEnq(h, q.queue[i]))
  {
    hide RunFrom, AllInLine, HistoryOf, LastEnq;
    RunFromInLine(cfg, ps, n, steps, r);
    LineMeans(HistoryOf(cfg, ps, n, steps), r.s, c, i, j);
  }

  lemma LineMeans(h: seq<Enq>, s: Sys, c: nat, i: nat, j: nat)
    requires AllInLine(h, s) && c < |s.rqs|
    ensures var q := s.rqs[c];
      && (i < j < |q.queue| ==> 0 <= LastEnq(h, q.queue[i]) < LastEnq(h, q.queue[j]))
      && (Running(s.tasks, q.cur) && i < |q.queue| ==> 0 <= LastEnq(h, q.cur.value) < LastEnq(h, q.queue[i]))
  {
    hide InLine, LastEnq;
    var line, q := Line(s, c), s.rqs[c];
    assert InLine(h, line);
    if i < j < |q.queue| {
      LineSlice(h, line, |line| - |q.queue|, |line|);
      assert line[|line| - |q.queue|..|line|] == q.queue;
      Earlier(h, q.queue, i, j);
    }
    if Running(s.tasks, q.cur) && i < |q.queue| {
      assert line[0] == q.cur.value && line[i + 1] == q.queue[i];
      Earlier(h, line, 0, i + 1);
    }
  }

  lemma Earlier(h: seq<Enq>, line: seq<nat>, i: nat, j: nat)
    requires InLine(h, line) && i < j < |line|
    ensures 0 <= LastEnq(h, line[i]) < LastEnq(h, line[j])
  {
    hide LastEnq;
  }

  // ---------------------------------------------------------------- FCFS never takes the processor away

  ghost predicate NeverAsked(s: Sys) {
    forall c :: 0 <= c < |s.rqs| && s.rqs[c].needResched ==> s.rqs[c].cur.Some? && !Running(s.tasks, s.rqs[c].cur)
  }

  lemma FireAsks(cfg: Config, r: RState, c: nat)
    requires RInv(r) && Enabled(r, FireStep(c)) && !SortedClass(cfg.policy) && NeverAsked(r.s)
    ensures NeverAsked(Fire(cfg, r.s, c, r.now + 1))
  {
    hide RInv, Fire, DoEnqueue, TaskOk, End, EventsInRange, SysOk;
    RunSysOk(r);
    DueIsNotCurrent(r.s, r.now, r.ph, c);
    var s, now := r.s, r.now;
    var e := s.events[c][0];
    var x := e.task;
    var t := s.tasks[x];
    var k := WokenPhase(t, e);
    if k < |t.phases| {
      PhaseOfEvent(t, e);
      WokenOk(t, now + 1, k);
      FireIsEnqueue(cfg, s, c, now + 1, k);
      Appended(cfg, s.(events := s.events[c := s.events[c][1..]], tasks := s.tasks[x := Woken(t, k, now + 1)]), x, c);
    } else {
      NewTaskHasPhase(t);
      FinishedShape(cfg, s, c, now + 1);
      FinishedState(cfg, s, c, now + 1);
    }
  }

  lemma MoveAsks(cfg: Config, s: Sys, now: int, ph: seq<Phase>, src: nat, dst: nat)
    requires SysOk(s, now, ph) && WellFormed(s) && src < |s.rqs| && dst < |s.rqs| && src != dst
    requires !SortedClass(cfg.policy) && NeverAsked(s)
    ensures NeverAsked(Rebalance(cfg, s, src, dst, now))
  {
    hide SysOk, TaskOk, QueuedOk, DoEnqueue, EventsInRange, AddLog;
    if s.rqs[src].nrRunnable - s.rqs[dst].nrRunnable > 1 {
      var x := StealFinds(s, now, ph, src, dst);
      Appended(cfg, Steal(s, src), x, dst);
    }
  }

  lemma ScheduleAsks(cfg: Config, s: Sys, now: int, ph: seq<Phase>, c: nat)
    requires SysOk(s, now, ph) && WellFormed(s) && c < |s.rqs| && NeverAsked(s)
    ensures NeverAsked(Schedule(cfg, s, c, now))
  {
    hide SysOk, Schedule, SwitchedTasks, WellFormed, PickFrom;
    CurrentHereOk(s, now, ph, c);
    if s.rqs[c].needResched || s.rqs[c].cur.None? {
      var pos := ScheduleShape(cfg, s, c, now);
      var s' := Schedule(cfg, s, c, now);
      forall d | 0 <= d < |s.rqs| && d != c && s'.rqs[d].needResched ensures s'.rqs[d].cur.Some? && !Running(s'.tasks, s'.rqs[d].cur) {
        SwitchedKept(cfg, s, s', now, ph, c, pos, d);
      }
    } else {
      ScheduleNothing(cfg, s, c, now);
    }
  }

  lemma TickAsks(cfg: Config, s: Sys, now: int, ph: seq<Phase>, c: nat)
    requires SysOk(s, now, ph) && WellFormed(s) && c < |s.rqs| && ph[c].Start? && cfg.policy.Fcfs? && NeverAsked(s)
    ensures NeverAsked(Tick(cfg, s, c, now))
  {
    hide SysOk, TaskOk, Charge, Leave, LeavesIntoCpuPhase, EventsInRange, InsertEvent, End;
    TickedTasks(cfg, s, now, ph, c);
    if s.rqs[c].cur.Some? { TickedTaskOk(cfg, s.tasks[s.rqs[c].cur.value], c, now) by { RunningEnd(s, now, ph, c); } }
  }

  lemma RunningEnd(s: Sys, now: int, ph: seq<Phase>, c: nat)
    requires SysOk(s, now, ph) && c < |s.rqs| && ph[c].Start? && s.rqs[c].cur.Some?
    ensures s.rqs[c].cur.value < |s.tasks|
    ensures var t := s.tasks[s.rqs[c].cur.value]; TaskOk(t) && t.state == OnProc && End(t) == now && t.lastCpu == c
  {
    assert CpuOk(s.tasks, s.rqs[c], s.events[c], c, now, ph[c]);
  }

  lemma FirstPickAsks(s: Sys, ph: seq<Phase>, c: nat)
    requires SysOk(s, -1, ph) && WellFormed(s) && c < |s.rqs| && s.rqs[c].cur.None? && NeverAsked(s)
    ensures NeverAsked(FirstPick(s, c))
  {
    hide EventsInRange, SysOk;
    var s' := FirstPick(s, c);
    forall d | 0 <= d < |s.rqs| && s'.rqs[d].needResched ensures s'.rqs[d].cur.Some? && !Running(s'.tasks, s'.rqs[d].cur) {
      assert s'.rqs[d].needResched == s.rqs[d].needResched;
      if s.rqs[c].queue != [] && d != c { HeadElsewhere(s, ph, c, d); }
    }
  }

  lemma TrialAsks(cfg: Config, r: RState, c: nat, loads: seq<nat>)
    requires RInv(r) && Enabled(r, BalanceTrial(c, loads)) && cfg.policy.Fcfs? && NeverAsked(r.s)
    ensures NeverAsked(Apply(cfg, r, BalanceTrial(c, loads)).s)
  {
    hide RInv, SysOk, WellFormed, NeverAsked, Rebalance, Stamp;
    RunSysOk(r);
    RemoteIsNotLocal(loads, c);
    match Choose(loads, c)
    case PushTo(d) => MoveAsks(cfg, r.s, r.now, r.ph, c, d);
    case PullFrom(d) => MoveAsks(cfg, r.s, r.now, r.ph, d, c);
    case _ =>
  }

  lemma StepAsks(cfg: Config, r: RState, st: Step)
    requires RInv(r) && Enabled(r, st) && cfg.policy.Fcfs? && NeverAsked(r.s)
    ensures NeverAsked(Apply(cfg, r, st).s)
  {
    hide RInv, SysOk, WellFormed, NeverAsked, Tick, Fire, Schedule, FirstPick, Rebalance, Stamp, SetNextLb;
    RunSysOk(r);
    match st
    case FireStep(c) => FireAsks(cfg, r, c);
    case ScheduleStep(c) => ScheduleAsks(cfg, r.s, r.now, r.ph, c);
    case BalanceTrial(c, loads) => TrialAsks(cfg, r, c, loads);
    case TickStep(c) => TickAsks(cfg, r.s, r.now, r.ph, c);
    case FirstPickStep(c) =>
      FirstPickBooting(r, c);
      FirstPickAsks(r.s, r.ph, c);
    case BalanceBegin(c) => NextLbAsks(r.s, c, r.now);
    case BalanceEnd(c) => NextLbAsks(r.s, c, r.s.rqs[c].nextLb + cfg.period);
    case _ =>
  }

  lemma NextLbAsks(s: Sys, c: nat, when: int)
    requires NeverAsked(s) && c < |s.rqs|
    ensures NeverAsked(SetNextLb(s, c, when))
  {
  }

  lemma {:induction false} RunAsks(cfg: Config, r: RState, steps: seq<Step>, r': RState)
    requires ConfigOk(cfg) && RInv(r) && cfg.policy.Fcfs? && NeverAsked(r.s) && Reaches(cfg, r, steps, r')
    ensures NeverAsked(r'.s)
    decreases |steps|
  {
    hide RInv, NeverAsked, Apply, Enabled;
    if steps != [] {
      StepKeeps(cfg, r, steps[0]);
      StepAsks(cfg, r, steps[0]);
      RunAsks(cfg, Apply(cfg, r, steps[0]), steps[1..], r');
    }
  }

  /** What `schedule` does to one queue: the running task, if it has to make room, goes to the end, and the head is next. */
  lemma NextInLine(cfg: Config, s: Sys, now: int, ph: seq<Phase>, c: nat)
    requires SysOk(s, now, ph) && WellFormed(s) && c < |s.rqs| && !SortedClass(cfg.policy)
    ensures var q, q' := s.rqs[c], Schedule(cfg, s, c, now).rqs[c];
      if Running(s.tasks, q.cur) && (!q.needResched || q.queue == []) then q'.cur == q.cur && q'.queue == q.queue
      else if q.queue == [] then q'.cur == None && q'.queue == []
      else
        && q'.cur == Some(q.queue[0])
        && q'.queue == q.queue[1..] + (if Running(s.tasks, q.cur) then [q.cur.value] else [])
  {
    hide SysOk, Schedule, SwitchedTasks, WellFormed, QueueKeys;
    CurrentNotQueued(s, now, ph, c);
    var q := s.rqs[c];
    if q.needResched || q.cur.None? {
      var pos := ScheduleShape(cfg, s, c, now);
      var from := PickFrom(s, c, pos);
      assert from == q.queue + (if Running(s.tasks, q.cur) then [q.cur.value] else []);
    } else {
      ScheduleNothing(cfg, s, c, now);
    }
  }

  /** In every run of FCFS: a running task is never replaced; and when none is running, `schedule` brings in the first of the
      queue, which was enqueued before all that still wait. */
  lemma FcfsSchedule(cfg: Config, ps: seq<Profile>, n: nat, steps: seq<Step>, r: RState, c: nat, i: nat)
    requires RunFrom(cfg, ps, n, steps, r) && cfg.policy.Fcfs? && Enabled(r, ScheduleStep(c))
    ensures n >= 1
    ensures var q, q' := r.s.rqs[c], Apply(cfg, r, ScheduleStep(c)).s.rqs[c]; var h := HistoryOf(cfg, ps, n, steps);
      if Running(r.s.tasks, q.cur) then q'.cur == q.cur && q'.queue == q.queue
      else if q.queue == [] then q'.cur == None && q'.queue == []
      else
        && q'.cur == Some(q.queue[0]) && q'.queue == q.queue[1..]
        && (i < |q'.queue| ==> LastEnq(h, q'.cur.value) < LastEnq(h, q'.queue[i]))
  {
    var boot := Boot(cfg, ps, n);
    BootInv(cfg, ps, n);
    RunInv(cfg, ps, n, steps, r);
    InvSys(r);
    assert NeverAsked(boot.s);
    hide RInv, SysOk, NeverAsked, Schedule, Stamp, Reaches, HistoryOf, LastEnq, BootSys;
    RunAsks(cfg, boot, steps, r);
    Unasked(r.s, c);
    NextInLine(cfg, r.s, r.now, r.ph, c);
    FirstComeFirstServed(cfg, ps, n, steps, r, c, 0, i + 1);
  }

  lemma Unasked(s: Sys, c: nat)
    requires NeverAsked(s) && c < |s.rqs|
    ensures Running(s.tasks, s.rqs[c].cur) ==> !s.rqs[c].needResched
  {
  }

  lemma Rotated(q: Rq, q': Rq, x: nat)
    requires if q.queue == [] then q'.cur == Some(x) && q'.queue == q.queue
             else q'.cur == Some(q.queue[0]) && q'.queue == q.queue[1..] + [x]
    ensures q'.cur.Some? && [q'.cur.value] + q'.queue == q.queue + [x]
  {
    if q.queue != [] { assert [q.queue[0]] + q.queue[1..] == q.queue; }
  }

  lemma RotatedBySchedule(cfg: Config, s: Sys, now: int, ph: seq<Phase>, c: nat)
    requires SysOk(s, now, ph) && WellFormed(s) && c < |s.rqs| && !SortedClass(cfg.policy)
    requires Running(s.tasks, s.rqs[c].cur) && s.rqs[c].needResched
    ensures var q, q' := s.rqs[c], Schedule(cfg, s, c, now).rqs[c];
      q'.cur.Some? && [q'.cur.value] + q'.queue == q.queue + [q.cur.value]
  {
    hide SysOk, Schedule, WellFormed;
    NextInLine(cfg, s, now, ph, c);
    Rotated(s.rqs[c], Schedule(cfg, s, c, now).rqs[c], s.rqs[c].cur.value);
  }

  /** In every run of RR: a requested `schedule` puts the running task at the end of the queue and brings in the first one. */
  lemma RrRotates(cfg: Config, ps: seq<Profile>, n: nat, steps: seq<Step>, r: RState, c: nat)
    requires RunFrom(cfg, ps, n, steps, r) && cfg.policy.Rr? && Enabled(r, ScheduleStep(c))
    requires Running(r.s.tasks, r.s.rqs[c].cur) && r.s.rqs[c].needResched
    ensures var q, q' := r.s.rqs[c], Apply(cfg, r, ScheduleStep(c)).s.rqs[c];
      q'.cur.Some? && [q'.cur.value] + q'.queue == q.queue + [q.cur.value]
  {
    RunInv(cfg, ps, n, steps, r);
    InvSys(r);
    ScheduleApplied(cfg, r, c);
    assert !SortedClass(cfg.policy);
    hide *;
    RotatedBySchedule(cfg, r.s, r.now, r.ph, c);
  }

  lemma ScheduleApplied(cfg: Config, r: RState, c: nat)
    requires Enabled(r, ScheduleStep(c))
    ensures WellFormed(r.s) && c < |r.s.rqs| && Apply(cfg, r, ScheduleStep(c)).s == Schedule(cfg, r.s, c, r.now)
  {
    hide WellFormed, Schedule, Stamp;
  }
}
