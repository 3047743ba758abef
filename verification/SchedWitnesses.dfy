/** Two concrete runs: a task that was asleep goes ahead of an equal that has waited longer, and a longer task waits
    while a shorter one runs. */
module SchedWitnesses {
  import opened Basics
  import opened SchedTypes
  import opened SchedSteps
  import opened SchedInvariant
  import opened SchedKeeps
  import opened SchedRuns
  import opened SchedTheorems
  import opened SchedHistory
  import opened SchedTies
  import opened Sequences

  // ---------------------------------------------------------------- sections of a single CPU

  /** A system with a single CPU in which no task has completed. */
  function Single(tasks: seq<Task>, q: Rq, evs: seq<Event>, now: int, p: Phase): RState {
    RState(Sys(tasks, [q], [evs], false), now, [p], map[])
  }

  ghost predicate SingleOk(tasks: seq<Task>, q: Rq, evs: seq<Event>) {
    && RqInRange(q, |tasks|) && EventsInRange(evs, |tasks|)
    && forall x :: 0 <= x < |tasks| ==> tasks[x].state != Completed
  }

  ghost predicate Goes(cfg: Config, r: RState, st: Step, r': RState, h: seq<Enq>) {
    Enabled(r, st) && Apply(cfg, r, st) == r' && Noted(cfg, r, st) == h
  }

  lemma NoneDone(tasks: seq<Task>, when: int)
    requires forall x :: 0 <= x < |tasks| ==> tasks[x].state != Completed
    ensures Stamp(map[], tasks, when) == map[]
  {
  }

  /** A section that leads to the system s'. */
  lemma OneAdvance(r: RState, tasks: seq<Task>, q: Rq, evs: seq<Event>, p: Phase)
    requires SingleOk(tasks, q, evs) && |r.ph| == 1 && r.doneAt == map[]
    ensures Advance(r, Sys(tasks, [q], [evs], false), 0, p) == Single(tasks, q, evs, r.now, p)
  {
    NoneDone(tasks, r.now + 1);
    assert r.ph[0 := p] == [p];
  }

  lemma OneOver(cfg: Config, tasks: seq<Task>, q: Rq, evs: seq<Event>, now: int)
    requires SingleOk(tasks, q, evs) && (evs == [] || evs[0].timeout != now + 1)
    ensures Goes(cfg, Single(tasks, q, evs, now, Ticked), EventsOver(0), Single(tasks, q, evs, now, Fired), [])
  {
    OneAdvance(Single(tasks, q, evs, now, Ticked), tasks, q, evs, Fired);
  }

  lemma OneRound(cfg: Config, tasks: seq<Task>, q: Rq, evs: seq<Event>, now: int)
    requires SingleOk(tasks, q, evs)
    ensures Goes(cfg, Single(tasks, q, evs, now, Done), NextRound, Single(tasks, q, evs, now + 1, Start), [])
  {
    var r := Single(tasks, q, evs, now, Done);
    assert seq(|r.ph|, _ => Start) == [Start];
  }

  lemma OneBegin(cfg: Config, tasks: seq<Task>, q: Rq, evs: seq<Event>, now: nat)
    requires SingleOk(tasks, q, evs) && q.nrRunnable != 0
    ensures Goes(cfg, Single(tasks, q, evs, now, Fired), BalanceBegin(0), Single(tasks, q, evs, now, Balanced), [])
  {
    OneAdvance(Single(tasks, q, evs, now, Fired), tasks, q, evs, Balanced);
  }

  lemma OnePick(cfg: Config, tasks: seq<Task>, q: Rq, evs: seq<Event>, x: nat)
    requires SingleOk(tasks, q, evs) && q.cur.None? && q.queue == [x]
    ensures x < |tasks|
    ensures Goes(cfg, Single(tasks, q, evs, -1, Fired), FirstPickStep(0),
      Single(tasks[x := tasks[x].(onRq := false, state := OnProc)], q.(queue := [], cur := Some(x)), evs, -1, Done), [])
  {
    hide EventsInRange;
    var r := Single(tasks, q, evs, -1, Fired);
    var tasks' := tasks[x := tasks[x].(onRq := false, state := OnProc)];
    assert q.queue[0] == x && q.queue[1..] == [];
    assert PickNext(r.s, 0).tasks[x := PickNext(r.s, 0).tasks[x].(state := OnProc)] == tasks';
    assert FirstPick(r.s, 0).rqs == [q.(queue := [], cur := Some(x))];
    OneAdvance(r, tasks', q.(queue := [], cur := Some(x)), evs, Done);
  }

  /** A tick that does not end the phase of the running task. */
  lemma OneTick(cfg: Config, tasks: seq<Task>, q: Rq, evs: seq<Event>, now: nat, x: nat, t: Task)
    requires SingleOk(tasks, q, evs) && q.cur == Some(x) && x < |tasks| && t == Charge(cfg, tasks[x], 0, now)
    requires t.ticksLeft != 0 && !Sliced(cfg.policy) && t.state != Completed
    ensures Goes(cfg, Single(tasks, q, evs, now, Start), TickStep(0), Single(tasks[x := t], q, evs, now, Ticked), [])
  {
    hide Charge, EventsInRange;
    var r := Single(tasks, q, evs, now, Start);
    assert Tick(cfg, r.s, 0, now).rqs == [q];
    OneAdvance(r, tasks[x := t], q, evs, Ticked);
  }

  /** The tasks and the run queue after task x, in state t, has been enqueued on the only CPU. */
  function Enqueued(cfg: Config, tasks: seq<Task>, q: Rq, x: nat, t: Task): (r: (seq<Task>, Rq))
    requires x < |tasks| && RqInRange(q, |tasks|) && q.cur != Some(x)
  {
    var pos := QueuePos(cfg.policy, QueueKeys(cfg.policy, tasks, q.queue), t);
    var hit := Preempts(cfg, tasks, q.cur, t);
    var tasks1 := tasks[x := t.(insertFront := false, onRq := true)];
    (if hit && q.cur.Some? then tasks1[q.cur.value := tasks[q.cur.value].(insertFront := true)] else tasks1,
     q.(queue := InsertAt(q.queue, pos, x), needResched := q.needResched || hit, nrRunnable := q.nrRunnable + 1))
  }

  lemma OneEnqueue(cfg: Config, tasks: seq<Task>, q: Rq, evs: seq<Event>, x: nat)
    requires SortedClass(cfg.policy) && !Sliced(cfg.policy) && cfg.preemptive
    requires x < |tasks| && !tasks[x].onRq && q.cur != Some(x) && tasks[x].lastCpu == 0
    requires RqInRange(q, |tasks|) && EventsInRange(evs, |tasks|)
    ensures var s := Sys(tasks, [q], [evs], false);
      var r := Enqueued(cfg, tasks, q, x, tasks[x]);
      WellFormed(s) && DoEnqueue(cfg, s, x, 0, false) == Sys(r.0, [r.1], [evs], false)
  {
    hide EventsInRange, QueuePos, QueueKeys, InsertAt;
    var s := Sys(tasks, [q], [evs], false);
    var s1 := ClassInsert(cfg, s, x, 0);
    var s2 := CheckPreemption(cfg, s1, x, 0);
    var r := DoEnqueue(cfg, s, x, 0, false);
    assert r.rqs == [r.rqs[0]];
  }

  /** What is on the queue does not change while a task wakes. */
  lemma EnqueuedSame(cfg: Config, tasks: seq<Task>, q: Rq, x: nat, t: Task)
    requires x < |tasks| && RqInRange(q, |tasks|) && q.cur != Some(x) && x !in q.queue
    ensures Enqueued(cfg, tasks[x := t], q, x, t) == Enqueued(cfg, tasks, q, x, t)
  {
    hide QueuePos, InsertAt, Key;
    var tasks1 := tasks[x := t];
    forall i | 0 <= i < |q.queue| ensures tasks1[q.queue[i]] == tasks[q.queue[i]] { assert q.queue[i] in q.queue; }
    assert QueueKeys(cfg.policy, tasks1, q.queue) == QueueKeys(cfg.policy, tasks, q.queue);
    assert tasks1[x := t.(insertFront := false, onRq := true)] == tasks[x := t.(insertFront := false, onRq := true)];
  }

  /** An event that wakes a task. */
  lemma OneFire(cfg: Config, tasks: seq<Task>, q: Rq, e: Event, rest: seq<Event>, now: int, k: nat)
    requires SortedClass(cfg.policy) && !Sliced(cfg.policy) && cfg.preemptive
    requires SingleOk(tasks, q, rest) && e.timeout == now + 1 && e.task < |tasks|
    requires k == WokenPhase(tasks[e.task], e) < |tasks[e.task].phases| && !PhaseIsIo(k)
    requires !tasks[e.task].onRq && tasks[e.task].lastCpu == 0 && q.cur != Some(e.task) && e.task !in q.queue
    ensures var r := Single(tasks, q, [e] + rest, now, Ticked);
      var r1 := Enqueued(cfg, tasks, q, e.task, Woken(tasks[e.task], k, now + 1));
      Goes(cfg, r, FireStep(0), Single(r1.0, r1.1, rest, now, Ticked),
           [NewEnq(cfg, r.s, [Ticked], 0, e.task, Woken(tasks[e.task], k, now + 1))])
  {
    hide QueuePos, InsertAt, DoEnqueue, Fire, QueueKeys, NewEnq, Preempts, Stamp;
    var r := Single(tasks, q, [e] + rest, now, Ticked);
    assert r.s.events[0][0] == e && r.s.events[0][1..] == rest;
    FireIsEnqueue(cfg, r.s, 0, now + 1, k);
    var tasks1 := tasks[e.task := Woken(tasks[e.task], k, now + 1)];
    OneEnqueue(cfg, tasks1, q, rest, e.task);
    EnqueuedSame(cfg, tasks, q, e.task, Woken(tasks[e.task], k, now + 1));
    var r1 := Enqueued(cfg, tasks, q, e.task, Woken(tasks[e.task], k, now + 1));
    assert Enabled(r, FireStep(0));
    assert Fire(cfg, r.s, 0, now + 1) == Sys(r1.0, [r1.1], [rest], false) by {
      assert r.s.events[0 := rest] == [rest];
    }
    assert forall y :: 0 <= y < |tasks| ==> r1.0[y].state != Completed;
    assert FireNote(cfg, r, 0) == [NewEnq(cfg, r.s, [Ticked], 0, e.task, Woken(tasks[e.task], k, now + 1))];
    NoneDone(r1.0, now + 1);
    assert [Ticked][0 := Ticked] == [Ticked];
  }

  ghost predicate Runs(cfg: Config, r: RState, steps: seq<Step>, r': RState, h: seq<Enq>) {
    Reaches(cfg, r, steps, r') && History(cfg, r, steps) == h
  }

  lemma RunsNot(cfg: Config, r: RState)
    ensures Runs(cfg, r, [], r, [])
  {
  }

  /** One section in front of a run. */
  lemma Prepend(cfg: Config, r: RState, st: Step, r1: RState, note: seq<Enq>, rest: seq<Step>, r': RState, h: seq<Enq>)
    returns (steps: seq<Step>, h': seq<Enq>)
    requires Goes(cfg, r, st, r1, note) && Runs(cfg, r1, rest, r', h)
    ensures Runs(cfg, r, steps, r', h') && h' == if note == [] then h else note + h
  {
    hide Apply, Enabled, Noted;
    steps, h' := [st] + rest, note + h;
    assert steps[0] == st && steps[1..] == rest;
  }

  function Fresh(prio: int, arrival: nat, phases: seq<int>): Task {
    Task(prio, arrival, phases, 0, Starting, 0, 0, 0, false, false, 0, 0, 0, 0, [])
  }

  function Waiting(t: Task, ticks: int, since: int): Task {
    t.(state := Runnable, ticksLeft := ticks, lastEnqueued := since, onRq := true)
  }

  function OnCpu(t: Task): Task {
    t.(state := OnProc, onRq := false)
  }

  // ---------------------------------------------------------------- unfair ties

  function Sleeper(): Task { Fresh(5, 0, [1, 1, 1]) }

  function Better(): Task { Fresh(3, 1, [3]) }

  function Equal(): Task { Fresh(5, 1, [5]) }

  function TieProfiles(): seq<Profile> {
    [Profile(5, 0, [1, 1, 1]), Profile(3, 1, [3]), Profile(5, 1, [5])]
  }

  const ARRIVE0 := Event(0, NewTask, 0)
  const ARRIVE1 := Event(1, NewTask, 1)
  const ARRIVE2 := Event(2, NewTask, 1)
  const AWAKE0 := Event(0, TaskAwake, 2)

  /** Task 0, in its sleep from step 1 to step 2. */
  function Asleep(front: bool): Task {
    Sleeper().(curPhase := 1, state := Sleep, insertFront := front, userTime := 1, realTime := 2, sysTime := 1,
               regs := [LogRegister(OnProc, 0, 0, 1), LogRegister(Sleep, 0, 1, 1)])
  }

  predicate PreemptivePrio(cfg: Config) {
    cfg.policy.Prio? && cfg.preemptive
  }

  lemma TieBoot(cfg: Config)
    requires PreemptivePrio(cfg)
    ensures Boot(cfg, TieProfiles(), 1)
         == Single([Sleeper(), Better(), Equal()], Rq([], None, false, 0, 0), [ARRIVE0, ARRIVE1, ARRIVE2], -1, Ticked)
  {
    var ps := TieProfiles();
    assert Arrivals(ps, 1, 0, 0) == [];
    assert Arrivals(ps, 1, 0, 1) == [ARRIVE0];
    assert Timeouts([ARRIVE0]) == [0];
    assert Arrivals(ps, 1, 0, 2) == [ARRIVE0, ARRIVE1];
    assert Timeouts([ARRIVE0, ARRIVE1]) == [0, 1];
    assert Arrivals(ps, 1, 0, 3) == [ARRIVE0, ARRIVE1, ARRIVE2];
    var b := BootSys(cfg, ps, 1);
    assert b.tasks == [Sleeper(), Better(), Equal()];
    assert b.rqs == [Rq([], None, false, 0, 0)];
    assert b.events == [Arrivals(ps, 1, 0, 3)];
    assert Boot(cfg, ps, 1).ph == [Ticked];
  }

  lemma TieFirst(cfg: Config)
    requires PreemptivePrio(cfg)
    ensures Goes(cfg,
      Single([Sleeper(), Better(), Equal()], Rq([], None, false, 0, 0), [ARRIVE0, ARRIVE1, ARRIVE2], -1, Ticked), FireStep(0),
      Single([Waiting(Sleeper(), 1, 0), Better(), Equal()], Rq([0], None, false, 1, 0), [ARRIVE1, ARRIVE2], -1, Ticked),
      [Enq(0, None, false, false, false)])
  {
    hide Goes;
    var tasks, q := [Sleeper(), Better(), Equal()], Rq([], None, false, 0, 0);
    OneFire(cfg, tasks, q, ARRIVE0, [ARRIVE1, ARRIVE2], -1, 0);
    var j := Enqueued(cfg, tasks, q, 0, Woken(tasks[0], 0, 0));
    assert !Preempts(cfg, tasks, q.cur, Woken(tasks[0], 0, 0));
    assert j.1 == Rq([0], None, false, 1, 0);
    assert j.0[0] == Waiting(Sleeper(), 1, 0);
    assert j.0 == [Waiting(Sleeper(), 1, 0), Better(), Equal()];
    assert [ARRIVE0] + [ARRIVE1, ARRIVE2] == [ARRIVE0, ARRIVE1, ARRIVE2];
  }

  /** Task 0 goes to sleep at the end of step 0. */
  lemma TieSleep(cfg: Config)
    requires PreemptivePrio(cfg)
    ensures Goes(cfg,
      Single([OnCpu(Waiting(Sleeper(), 1, 0)), Better(), Equal()], Rq([], Some(0), false, 1, 0), [ARRIVE1, ARRIVE2], 0, Start), TickStep(0),
      Single([Asleep(false), Better(), Equal()], Rq([], Some(0), true, 0, 0), [ARRIVE1, ARRIVE2, AWAKE0], 0, Ticked), [])
  {
    var evs, evs' := [ARRIVE1, ARRIVE2], [ARRIVE1, ARRIVE2, AWAKE0];
    var tasks, q := [OnCpu(Waiting(Sleeper(), 1, 0)), Better(), Equal()], Rq([], Some(0), false, 1, 0);
    var tasks', q' := [Asleep(false), Better(), Equal()], Rq([], Some(0), true, 0, 0);
    var s := Sys(tasks, [q], [evs], false);
    assert Timeouts(evs) == [1, 1];
    assert InsertEvent(evs, AWAKE0) == evs';
    var t := Charge(cfg, tasks[0], 0, 0);
    assert t.ticksLeft == 0 && t.regs == [LogRegister(OnProc, 0, 0, 1)] && !LeavesIntoCpuPhase(t);
    assert Leave(t, 0, 0).regs == [LogRegister(OnProc, 0, 0, 1), LogRegister(Sleep, 0, 1, 1)];
    assert Leave(t, 0, 0) == tasks'[0];
    var r := Tick(cfg, s, 0, 0);
    assert r.tasks == tasks' && r.rqs == [q'] && r.events == [evs'];
    OneAdvance(Single(tasks, q, evs, 0, Start), tasks', q', evs', Ticked);
  }

  /** Task 1 arrives and beats the sleeping task 0, which is still current. */
  lemma TieBeat(cfg: Config)
    requires PreemptivePrio(cfg)
    ensures Goes(cfg,
      Single([Asleep(false), Better(), Equal()], Rq([], Some(0), true, 0, 0), [ARRIVE1, ARRIVE2, AWAKE0], 0, Ticked), FireStep(0),
      Single([Asleep(true), Waiting(Better(), 3, 1), Equal()], Rq([1], Some(0), true, 1, 0), [ARRIVE2, AWAKE0], 0, Ticked),
      [Enq(1, Some(0), true, true, false)])
  {
    hide Goes;
    var tasks, q := [Asleep(false), Better(), Equal()], Rq([], Some(0), true, 0, 0);
    OneFire(cfg, tasks, q, ARRIVE1, [ARRIVE2, AWAKE0], 0, 0);
    var j := Enqueued(cfg, tasks, q, 1, Woken(tasks[1], 0, 1));
    assert Preempts(cfg, tasks, q.cur, Woken(tasks[1], 0, 1));
    assert j.1 == Rq([1], Some(0), true, 1, 0);
    assert j.0[1] == Waiting(Better(), 3, 1) && j.0[0] == Asleep(true);
    assert j.0 == [Asleep(true), Waiting(Better(), 3, 1), Equal()];
    assert [ARRIVE1] + [ARRIVE2, AWAKE0] == [ARRIVE1, ARRIVE2, AWAKE0];
  }

  lemma TieEqual(cfg: Config)
    requires PreemptivePrio(cfg)
    ensures Goes(cfg,
      Single([Asleep(true), Waiting(Better(), 3, 1), Equal()], Rq([1], Some(0), true, 1, 0), [ARRIVE2, AWAKE0], 0, Ticked), FireStep(0),
      Single([Asleep(true), Waiting(Better(), 3, 1), Waiting(Equal(), 5, 1)], Rq([1, 2], Some(0), true, 2, 0), [AWAKE0], 0, Ticked),
      [Enq(2, None, false, false, false)])
  {
    hide Goes;
    var tasks, q := [Asleep(true), Waiting(Better(), 3, 1), Equal()], Rq([1], Some(0), true, 1, 0);
    OneFire(cfg, tasks, q, ARRIVE2, [AWAKE0], 0, 0);
    var j := Enqueued(cfg, tasks, q, 2, Woken(tasks[2], 0, 1));
    assert QueueKeys(Prio, tasks, [1]) == [3];
    assert !Preempts(cfg, tasks, q.cur, Woken(tasks[2], 0, 1));
    assert j.1 == Rq([1, 2], Some(0), true, 2, 0);
    assert j.0[2] == Waiting(Equal(), 5, 1);
    assert j.0 == [Asleep(true), Waiting(Better(), 3, 1), Waiting(Equal(), 5, 1)];
    assert [ARRIVE2] + [AWAKE0] == [ARRIVE2, AWAKE0];
  }

  lemma TieSwitch(cfg: Config)
    requires PreemptivePrio(cfg)
    ensures Goes(cfg,
      Single([Asleep(true), Waiting(Better(), 3, 1), Waiting(Equal(), 5, 1)], Rq([1, 2], Some(0), true, 2, 0), [AWAKE0], 0, Balanced),
      ScheduleStep(0),
      Single([Asleep(true), OnCpu(Waiting(Better(), 3, 1)), Waiting(Equal(), 5, 1)], Rq([2], Some(1), false, 2, 0), [AWAKE0], 0, Done), [])
  {
    var tasks, q := [Asleep(true), Waiting(Better(), 3, 1), Waiting(Equal(), 5, 1)], Rq([1, 2], Some(0), true, 2, 0);
    var s := Sys(tasks, [q], [[AWAKE0]], false);
    var tasks' := [Asleep(true), OnCpu(Waiting(Better(), 3, 1)), Waiting(Equal(), 5, 1)];
    assert Requeue(cfg, s, 0) == s;
    assert q.queue[1..] == [2];
    var s2 := PickNext(s, 0);
    assert s2.rqs == [q.(queue := [2], cur := Some(1))];
    assert SwitchIn(s2.tasks[1], 0, 0) == tasks'[1];
    assert Schedule(cfg, s, 0, 0).tasks == tasks';
    assert Schedule(cfg, s, 0, 0).rqs == [Rq([2], Some(1), false, 2, 0)];
    OneAdvance(Single(tasks, q, [AWAKE0], 0, Balanced), tasks', Rq([2], Some(1), false, 2, 0), [AWAKE0], Done);
  }

  /** Task 0 wakes up, with the flag, and goes ahead of task 2. */
  lemma TieJump(cfg: Config, b: Task)
    requires PreemptivePrio(cfg) && b == OnCpu(Waiting(Better(), 3, 1)).(ticksLeft := 2, userTime := 1, realTime := 1, regs := [LogRegister(OnProc, 0, 1, 1)])
    ensures Goes(cfg,
      Single([Asleep(true), b, Waiting(Equal(), 5, 1)], Rq([2], Some(1), false, 2, 0), [AWAKE0], 1, Ticked), FireStep(0),
      Single([Waiting(Asleep(false).(curPhase := 2), 1, 2), b, Waiting(Equal(), 5, 1)], Rq([0, 2], Some(1), false, 3, 0), [], 1, Ticked),
      [Enq(0, None, false, false, false)])
  {
    hide Goes;
    var tasks, q := [Asleep(true), b, Waiting(Equal(), 5, 1)], Rq([2], Some(1), false, 2, 0);
    OneFire(cfg, tasks, q, AWAKE0, [], 1, 2);
    var j := Enqueued(cfg, tasks, q, 0, Woken(tasks[0], 2, 2));
    assert QueueKeys(Prio, tasks, [2]) == [5];
    assert !Preempts(cfg, tasks, q.cur, Woken(tasks[0], 2, 2));
    assert j.1 == Rq([0, 2], Some(1), false, 3, 0);
    assert j.0[0] == Waiting(Asleep(false).(curPhase := 2), 1, 2);
    assert j.0 == [Waiting(Asleep(false).(curPhase := 2), 1, 2), b, Waiting(Equal(), 5, 1)];
    assert [AWAKE0] + [] == [AWAKE0];
  }

  /** The second enqueue beats task 0 late, and it has another CPU phase. */
  function TieHistory(): seq<Enq> {
    [Enq(0, None, false, false, false), Enq(1, Some(0), true, true, false), Enq(2, None, false, false, false),
     Enq(0, None, false, false, false)]
  }

  /** From the end of the events of time 1 on. */
  lemma TieEnd(cfg: Config) returns (r: RState, steps: seq<Step>, r': RState)
    requires PreemptivePrio(cfg)
    ensures r == Single([Asleep(true), Waiting(Better(), 3, 1), Waiting(Equal(), 5, 1)], Rq([1, 2], Some(0), true, 2, 0), [AWAKE0], 0, Fired)
    ensures Runs(cfg, r, steps, r', TieHistory()[3..])
    ensures r'.s.rqs == [Rq([0, 2], Some(1), false, 3, 0)] && |r'.s.tasks| == 3
    ensures r'.s.tasks[0].lastEnqueued == 2 && r'.s.tasks[2].lastEnqueued == 1
  {
    hide Goes, Runs;
    var a, b, b', c := Asleep(true), Waiting(Better(), 3, 1), OnCpu(Waiting(Better(), 3, 1)), Waiting(Equal(), 5, 1);
    var b2 := b'.(ticksLeft := 2, userTime := 1, realTime := 1, regs := [LogRegister(OnProc, 0, 1, 1)]);
    var q, q', evs := Rq([1, 2], Some(0), true, 2, 0), Rq([2], Some(1), false, 2, 0), [AWAKE0];
    r := Single([a, b, c], q, evs, 0, Fired);
    var r1 := Single([a, b, c], q, evs, 0, Balanced);
    var r2 := Single([a, b', c], q', evs, 0, Done);
    var r3 := Single([a, b', c], q', evs, 1, Start);
    var r4 := Single([a, b2, c], q', evs, 1, Ticked);
    r' := Single([Waiting(Asleep(false).(curPhase := 2), 1, 2), b2, c], Rq([0, 2], Some(1), false, 3, 0), [], 1, Ticked);
    OneBegin(cfg, [a, b, c], q, evs, 0);
    TieSwitch(cfg);
    OneRound(cfg, [a, b', c], q', evs, 0);
    OneTick(cfg, [a, b', c], q', evs, 1, 1, b2);
    assert [a, b', c][1 := b2] == [a, b2, c];
    TieJump(cfg, b2);
    RunsNot(cfg, r');
    var h := [];
    steps, h := Prepend(cfg, r4, FireStep(0), r', [Enq(0, None, false, false, false)], [], r', h);
    steps, h := Prepend(cfg, r3, TickStep(0), r4, [], steps, r', h);
    steps, h := Prepend(cfg, r2, NextRound, r3, [], steps, r', h);
    steps, h := Prepend(cfg, r1, ScheduleStep(0), r2, [], steps, r', h);
    steps, h := Prepend(cfg, r, BalanceBegin(0), r1, [], steps, r', h);
    assert h == TieHistory()[3..];
  }

  /** From the start of step 0 on. */
  lemma TieStepZero(cfg: Config) returns (r: RState, steps: seq<Step>, r': RState)
    requires PreemptivePrio(cfg)
    ensures r == Single([OnCpu(Waiting(Sleeper(), 1, 0)), Better(), Equal()], Rq([], Some(0), false, 1, 0), [ARRIVE1, ARRIVE2], 0, Start)
    ensures Runs(cfg, r, steps, r', TieHistory()[1..])
    ensures r'.s.rqs == [Rq([0, 2], Some(1), false, 3, 0)] && |r'.s.tasks| == 3
    ensures r'.s.tasks[0].lastEnqueued == 2 && r'.s.tasks[2].lastEnqueued == 1
  {
    hide Goes, Runs;
    var a, b, c, c' := Asleep(true), Waiting(Better(), 3, 1), Equal(), Waiting(Equal(), 5, 1);
    var q := Rq([1, 2], Some(0), true, 2, 0);
    r := Single([OnCpu(Waiting(Sleeper(), 1, 0)), Better(), Equal()], Rq([], Some(0), false, 1, 0), [ARRIVE1, ARRIVE2], 0, Start);
    var r1 := Single([Asleep(false), Better(), c], Rq([], Some(0), true, 0, 0), [ARRIVE1, ARRIVE2, AWAKE0], 0, Ticked);
    var r2 := Single([a, b, c], Rq([1], Some(0), true, 1, 0), [ARRIVE2, AWAKE0], 0, Ticked);
    var r3 := Single([a, b, c'], q, [AWAKE0], 0, Ticked);
    TieSleep(cfg);
    TieBeat(cfg);
    TieEqual(cfg);
    OneOver(cfg, [a, b, c'], q, [AWAKE0], 0);
    var r4;
    r4, steps, r' := TieEnd(cfg);
    var h := TieHistory()[3..];
    steps, h := Prepend(cfg, r3, EventsOver(0), r4, [], steps, r', h);
    steps, h := Prepend(cfg, r2, FireStep(0), r3, [Enq(2, None, false, false, false)], steps, r', h);
    steps, h := Prepend(cfg, r1, FireStep(0), r2, [Enq(1, Some(0), true, true, false)], steps, r', h);
    steps, h := Prepend(cfg, r, TickStep(0), r1, [], steps, r', h);
    assert h == TieHistory()[1..];
  }

  lemma TieRun(cfg: Config) returns (steps: seq<Step>, r: RState)
    requires PreemptivePrio(cfg)
    ensures Runs(cfg, Boot(cfg, TieProfiles(), 1), steps, r, TieHistory())
    ensures r.s.rqs == [Rq([0, 2], Some(1), false, 3, 0)] && |r.s.tasks| == 3
    ensures r.s.tasks[0].lastEnqueued == 2 && r.s.tasks[2].lastEnqueued == 1
  {
    hide Goes, Runs;
    var b, c, evs := Better(), Equal(), [ARRIVE1, ARRIVE2];
    var t, t' := Waiting(Sleeper(), 1, 0), OnCpu(Waiting(Sleeper(), 1, 0));
    var q1, q2 := Rq([0], None, false, 1, 0), Rq([], Some(0), false, 1, 0);
    var r1 := Single([t, b, c], q1, evs, -1, Ticked);
    var r2 := Single([t, b, c], q1, evs, -1, Fired);
    var r3 := Single([t', b, c], q2, evs, -1, Done);
    TieFirst(cfg);
    OneOver(cfg, [t, b, c], q1, evs, -1);
    OnePick(cfg, [t, b, c], q1, evs, 0);
    assert [t, b, c][0 := t.(onRq := false, state := OnProc)] == [t', b, c];
    OneRound(cfg, [t', b, c], q2, evs, -1);
    var r4;
    r4, steps, r := TieStepZero(cfg);
    TieBoot(cfg);
    var h := TieHistory()[1..];
    steps, h := Prepend(cfg, r3, NextRound, r4, [], steps, r, h);
    steps, h := Prepend(cfg, r2, FirstPickStep(0), r3, [], steps, r, h);
    steps, h := Prepend(cfg, r1, EventsOver(0), r2, [], steps, r, h);
    steps, h := Prepend(cfg, Boot(cfg, TieProfiles(), 1), FireStep(0), r1, [Enq(0, None, false, false, false)], steps, r, h);
    assert h == TieHistory();
  }

  lemma TieUnfair()
    ensures !FairTies(TieHistory())
  {
    var h := TieHistory();
    assert h[..3][..2] == [h[0], h[1]];
    assert Beaten(h[..3][..2], 0);
    assert FrontAt(h, 3) && !Preempted(h, 3);
  }

  /** Ties are not always fair. With PRIO and preemption, on one CPU, task 0 ends a CPU phase in step 0 and sleeps; task 1,
      which is better, arrives before the scheduler has replaced task 0 as the current task, so task 0 is flagged; and when
      it wakes up at time 2 it goes ahead of its equal, task 2, which has waited since time 1. No task has been preempted:
      no enqueue in the history was made by `schedule`. */
  lemma SleeperJumpsAhead(cfg: Config) returns (steps: seq<Step>, r: RState)
    requires ConfigOk(cfg) && PreemptivePrio(cfg)
    ensures RunFrom(cfg, TieProfiles(), 1, steps, r)
    ensures |r.s.rqs| == 1 && r.s.rqs[0].queue == [0, 2] && |r.s.tasks| == 3
    ensures r.s.tasks[0].prio == r.s.tasks[2].prio && r.s.tasks[0].lastEnqueued == 2 && r.s.tasks[2].lastEnqueued == 1
    ensures var h := HistoryOf(cfg, TieProfiles(), 1, steps);
      !FairTies(h) && forall k :: 0 <= k < |h| ==> !h[k].requeued
  {
    hide Runs, Boot, Reaches, History, FairTies, RInv;
    steps, r := TieRun(cfg);
    RunsMeans(cfg, Boot(cfg, TieProfiles(), 1), steps, r, TieHistory());
    TieUnfair();
    RunInv(cfg, TieProfiles(), 1, steps, r);
  }

  lemma RunsMeans(cfg: Config, r: RState, steps: seq<Step>, r': RState, h: seq<Enq>)
    requires Runs(cfg, r, steps, r', h)
    ensures Reaches(cfg, r, steps, r') && History(cfg, r, steps) == h
  {
  }

  // ---------------------------------------------------------------- a longer task waits

  function ShortAndLong(): seq<Profile> {
    [Profile(1, 0, [3]), Profile(1, 1, [5])]
  }

  predicate PreemptiveTjf(cfg: Config) {
    cfg.policy.Tjf? && cfg.preemptive
  }

  lemma LongBoot(cfg: Config)
    requires PreemptiveTjf(cfg)
    ensures Boot(cfg, ShortAndLong(), 1)
         == Single([Fresh(1, 0, [3]), Fresh(1, 1, [5])], Rq([], None, false, 0, 0), [ARRIVE0, ARRIVE1], -1, Ticked)
  {
    var ps := ShortAndLong();
    assert Arrivals(ps, 1, 0, 0) == [];
    assert Arrivals(ps, 1, 0, 1) == [ARRIVE0];
    assert Timeouts([ARRIVE0]) == [0];
    assert Arrivals(ps, 1, 0, 2) == [ARRIVE0, ARRIVE1];
    var b := BootSys(cfg, ps, 1);
    assert b.tasks == [Fresh(1, 0, [3]), Fresh(1, 1, [5])];
    assert b.rqs == [Rq([], None, false, 0, 0)];
    assert b.events == [Arrivals(ps, 1, 0, 2)];
    assert Boot(cfg, ps, 1).ph == [Ticked];
  }

  lemma LongFirst(cfg: Config)
    requires PreemptiveTjf(cfg)
    ensures Goes(cfg,
      Single([Fresh(1, 0, [3]), Fresh(1, 1, [5])], Rq([], None, false, 0, 0), [ARRIVE0, ARRIVE1], -1, Ticked), FireStep(0),
      Single([Waiting(Fresh(1, 0, [3]), 3, 0), Fresh(1, 1, [5])], Rq([0], None, false, 1, 0), [ARRIVE1], -1, Ticked),
      [Enq(0, None, false, false, false)])
  {
    hide Goes;
    var tasks, q := [Fresh(1, 0, [3]), Fresh(1, 1, [5])], Rq([], None, false, 0, 0);
    OneFire(cfg, tasks, q, ARRIVE0, [ARRIVE1], -1, 0);
    var j := Enqueued(cfg, tasks, q, 0, Woken(tasks[0], 0, 0));
    assert !Preempts(cfg, tasks, q.cur, Woken(tasks[0], 0, 0));
    assert j.1 == Rq([0], None, false, 1, 0);
    assert j.0[0] == Waiting(Fresh(1, 0, [3]), 3, 0);
    assert j.0 == [Waiting(Fresh(1, 0, [3]), 3, 0), Fresh(1, 1, [5])];
    assert [ARRIVE0] + [ARRIVE1] == [ARRIVE0, ARRIVE1];
  }

  lemma LongArrives(cfg: Config, a: Task)
    requires PreemptiveTjf(cfg) && a.ticksLeft == 2 && a.state == OnProc
    ensures Goes(cfg,
      Single([a, Fresh(1, 1, [5])], Rq([], Some(0), false, 1, 0), [ARRIVE1], 0, Ticked), FireStep(0),
      Single([a, Waiting(Fresh(1, 1, [5]), 5, 1)], Rq([1], Some(0), false, 2, 0), [], 0, Ticked),
      [Enq(1, None, false, false, false)])
  {
    hide Goes;
    var tasks, q := [a, Fresh(1, 1, [5])], Rq([], Some(0), false, 1, 0);
    OneFire(cfg, tasks, q, ARRIVE1, [], 0, 0);
    var j := Enqueued(cfg, tasks, q, 1, Woken(tasks[1], 0, 1));
    assert !Preempts(cfg, tasks, q.cur, Woken(tasks[1], 0, 1));
    assert j.1 == Rq([1], Some(0), false, 2, 0);
    assert j.0[1] == Waiting(Fresh(1, 1, [5]), 5, 1);
    assert j.0 == [a, Waiting(Fresh(1, 1, [5]), 5, 1)];
    assert [ARRIVE1] + [] == [ARRIVE1];
  }

  /** A scheduler that is not asked to do anything. */
  lemma OneIdleSchedule(cfg: Config, tasks: seq<Task>, q: Rq, evs: seq<Event>, now: nat)
    requires SingleOk(tasks, q, evs) && q.cur.Some? && !q.needResched
    ensures Goes(cfg, Single(tasks, q, evs, now, Balanced), ScheduleStep(0), Single(tasks, q, evs, now, Done), [])
  {
    var s := Sys(tasks, [q], [evs], false);
    assert Schedule(cfg, s, 0, now).rqs == [q];
    OneAdvance(Single(tasks, q, evs, now, Balanced), tasks, q, evs, Done);
  }

  lemma LongStepZero(cfg: Config, a: Task) returns (steps: seq<Step>, h: seq<Enq>, r: RState)
    requires PreemptiveTjf(cfg) && a == OnCpu(Waiting(Fresh(1, 0, [3]), 3, 0))
    ensures Runs(cfg, Single([a, Fresh(1, 1, [5])], Rq([], Some(0), false, 1, 0), [ARRIVE1], 0, Start), steps, r, h)
    ensures r.ph == [Done] && |r.s.tasks| == 2 && r.s.rqs == [Rq([1], Some(0), false, 2, 0)]
    ensures r.s.tasks[0].state == OnProc && r.s.tasks[0].ticksLeft == 2 && r.s.tasks[1].ticksLeft == 5
  {
    hide Goes, Runs, Reaches;
    var b, b' := Fresh(1, 1, [5]), Waiting(Fresh(1, 1, [5]), 5, 1);
    var a' := a.(ticksLeft := 2, userTime := 1, realTime := 1, regs := [LogRegister(OnProc, 0, 0, 1)]);
    var q, q' := Rq([], Some(0), false, 1, 0), Rq([1], Some(0), false, 2, 0);
    OneTick(cfg, [a, b], q, [ARRIVE1], 0, 0, a');
    assert [a, b][0 := a'] == [a', b];
    LongArrives(cfg, a');
    OneOver(cfg, [a', b'], q', [], 0);
    OneBegin(cfg, [a', b'], q', [], 0);
    OneIdleSchedule(cfg, [a', b'], q', [], 0);
    var r1 := Single([a', b], q, [ARRIVE1], 0, Ticked);
    var r2 := Single([a', b'], q', [], 0, Ticked);
    var r3 := Single([a', b'], q', [], 0, Fired);
    var r4 := Single([a', b'], q', [], 0, Balanced);
    r := Single([a', b'], q', [], 0, Done);
    RunsNot(cfg, r);
    steps, h := Prepend(cfg, r4, ScheduleStep(0), r, [], [], r, []);
    steps, h := Prepend(cfg, r3, BalanceBegin(0), r4, [], steps, r, h);
    steps, h := Prepend(cfg, r2, EventsOver(0), r3, [], steps, r, h);
    steps, h := Prepend(cfg, r1, FireStep(0), r2, [Enq(1, None, false, false, false)], steps, r, h);
    steps, h := Prepend(cfg, Single([a, b], q, [ARRIVE1], 0, Start), TickStep(0), r1, [], steps, r, h);
  }

  lemma LongRun(cfg: Config) returns (steps: seq<Step>, h: seq<Enq>, r: RState)
    requires PreemptiveTjf(cfg)
    ensures Runs(cfg, Boot(cfg, ShortAndLong(), 1), steps, r, h)
    ensures r.ph == [Done] && |r.s.tasks| == 2 && r.s.rqs == [Rq([1], Some(0), false, 2, 0)]
    ensures r.s.tasks[0].state == OnProc && r.s.tasks[0].ticksLeft == 2 && r.s.tasks[1].ticksLeft == 5
  {
    hide Goes, Runs, Reaches;
    var a, b, evs := Fresh(1, 0, [3]), Fresh(1, 1, [5]), [ARRIVE1];
    var a1, a2 := Waiting(a, 3, 0), OnCpu(Waiting(a, 3, 0));
    var q1, q2 := Rq([0], None, false, 1, 0), Rq([], Some(0), false, 1, 0);
    LongFirst(cfg);
    OneOver(cfg, [a1, b], q1, evs, -1);
    OnePick(cfg, [a1, b], q1, evs, 0);
    assert [a1, b][0 := a1.(onRq := false, state := OnProc)] == [a2, b];
    OneRound(cfg, [a2, b], q2, evs, -1);
    steps, h, r := LongStepZero(cfg, a2);
    LongBoot(cfg);
    var r1 := Single([a1, b], q1, evs, -1, Ticked);
    var r2 := Single([a1, b], q1, evs, -1, Fired);
    var r3 := Single([a2, b], q2, evs, -1, Done);
    steps, h := Prepend(cfg, r3, NextRound, Single([a2, b], q2, evs, 0, Start), [], steps, r, h);
    steps, h := Prepend(cfg, r2, FirstPickStep(0), r3, [], steps, r, h);
    steps, h := Prepend(cfg, r1, EventsOver(0), r2, [], steps, r, h);
    steps, h := Prepend(cfg, Boot(cfg, ShortAndLong(), 1), FireStep(0), r1, [Enq(0, None, false, false, false)], steps, r, h);
  }

  /** Preemptive TJF does not run the longest task: task 0 has two ticks left when task 1 arrives with five, but only a
      shorter newcomer asks for a reschedule, so after `schedule` task 0 is still running and task 1 waits. */
  lemma LongerTaskWaits(cfg: Config) returns (steps: seq<Step>, r: RState)
    requires ConfigOk(cfg) && PreemptiveTjf(cfg)
    ensures RunFrom(cfg, ShortAndLong(), 1, steps, r)
    ensures r.ph == [Done] && |r.s.tasks| == 2 && r.s.rqs == [Rq([1], Some(0), false, 2, 0)]
    ensures r.s.tasks[0].state == OnProc && r.s.tasks[0].ticksLeft == 2 && r.s.tasks[1].ticksLeft == 5
  {
    hide Runs, Reaches, History, Boot;
    var h;
    steps, h, r := LongRun(cfg);
    RunsMeans(cfg, Boot(cfg, ShortAndLong(), 1), steps, r, h);
  }
}
