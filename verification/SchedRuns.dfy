/** Runs of the simulator: the CPU threads execute their lock-protected sections in any interleaving between
    two barriers, with arbitrary (stale) loads seen by the balancer. */
module SchedRuns {
  import opened Basics
  import opened SchedTypes
  import opened SchedSteps
  import opened SchedClocks
  import opened SchedInvariant
  import opened SchedKeeps
  import opened SchedEvolves
  import opened SchedBalance
  import opened Sequences

  /** One atomic section of one CPU thread, or the barrier that starts the next simulation step. */
  datatype Step =
    | TickStep(cpu: nat)
    | FireStep(cpu: nat)
    | EventsOver(cpu: nat)
    | BalanceBegin(cpu: nat)
    | BalanceTrial(cpu: nat, loads: seq<nat>)
    | BalanceEnd(cpu: nat)
    | FirstPickStep(cpu: nat)
    | ScheduleStep(cpu: nat)
    | NextRound

  /** Step -1 stands for the initialisation of the CPU threads: they fire the events of step 0 and pick a
      first task, and no thread balances before all have done so. */
  ghost predicate Enabled(r: RState, st: Step) {
    && WellFormed(r.s) && |r.ph| == |r.s.rqs|
    && match st
       case TickStep(c) => c < |r.ph| && r.ph[c].Start? && r.now >= 0
       case FireStep(c) => c < |r.ph| && r.ph[c].Ticked? && HasDue(r.s, c, r.now + 1)
       case EventsOver(c) => c < |r.ph| && r.ph[c].Ticked? && !HasDue(r.s, c, r.now + 1)
       case BalanceBegin(c) => c < |r.ph| && r.ph[c].Fired? && r.now >= 0
       case BalanceTrial(c, loads) =>
         c < |r.ph| && r.ph[c].Balancing? && r.ph[c].trials < MAX_TRIALS && |loads| == |r.ph|
       case BalanceEnd(c) => c < |r.ph| && r.ph[c].Balancing? && r.ph[c].trials >= MAX_TRIALS
       case FirstPickStep(c) => c < |r.ph| && r.ph[c].Fired? && r.now == -1
       case ScheduleStep(c) => c < |r.ph| && r.ph[c].Balanced?
       case NextRound => forall c :: 0 <= c < |r.ph| ==> r.ph[c].Done?
  }

  /** The auxiliary record of completion times. */
  function Stamp(doneAt: map<nat, int>, tasks: seq<Task>, when: int): map<nat, int> {
    map x: nat | x < |tasks| && tasks[x].state == Completed :: if x in doneAt then doneAt[x] else when
  }

  /** CPU c is at the end of a section that changed the system to s'. */
  function Advance(r: RState, s': Sys, c: nat, ph: Phase): RState
    requires c < |r.ph|
  {
    RState(s', r.now, r.ph[c := ph], Stamp(r.doneAt, s'.tasks, r.now + 1))
  }

  /** The start of `load_balance`: an idle CPU is always due, and nothing else is unless its time has come. */
  function BeginBalance(r: RState, c: nat): RState
    requires c < |r.ph| == |r.s.rqs|
  {
    var s := if r.s.rqs[c].nrRunnable == 0 then SetNextLb(r.s, c, r.now) else r.s;
    Advance(r, s, c, if |s.rqs| == 1 || s.rqs[c].nextLb != r.now then Balanced else Balancing(0))
  }

  /** One trial: the loads may be out of date, the recheck inside Rebalance is not. */
  function Trial(cfg: Config, r: RState, c: nat, loads: seq<nat>): RState
    requires WellFormed(r.s) && c < |r.ph| == |r.s.rqs| == |loads| && r.ph[c].Balancing?
  {
    var next := Balancing(r.ph[c].trials + 1);
    match Choose(loads, c)
    case SystemBalanced => Advance(r, r.s, c, Balancing(MAX_TRIALS))
    case PushTo(d) => if d < |loads| then Advance(r, Rebalance(cfg, r.s, c, d, r.now), c, next) else r
    case PullFrom(d) => if d < |loads| then Advance(r, Rebalance(cfg, r.s, d, c, r.now), c, next) else r
    case NothingToDo => Advance(r, r.s, c, next)
  }

  function Apply(cfg: Config, r: RState, st: Step): RState
    requires Enabled(r, st)
  {
    match st
    case TickStep(c) => Advance(r, Tick(cfg, r.s, c, r.now), c, Ticked)
    case FireStep(c) => Advance(r, Fire(cfg, r.s, c, r.now + 1), c, Ticked)
    case EventsOver(c) => Advance(r, r.s, c, Fired)
    case BalanceBegin(c) => BeginBalance(r, c)
    case BalanceTrial(c, loads) => Trial(cfg, r, c, loads)
    case BalanceEnd(c) => Advance(r, SetNextLb(r.s, c, r.s.rqs[c].nextLb + cfg.period), c, Balanced)
    case FirstPickStep(c) => Advance(r, FirstPick(r.s, c), c, Done)
    case ScheduleStep(c) => Advance(r, Schedule(cfg, r.s, c, r.now), c, Done)
    case NextRound => r.(now := r.now + 1, ph := seq(|r.ph|, _ => Start))
  }

  ghost predicate Reaches(cfg: Config, r: RState, steps: seq<Step>, r': RState)
    decreases |steps|
  {
    if steps == [] then r' == r
    else Enabled(r, steps[0]) && Reaches(cfg, Apply(cfg, r, steps[0]), steps[1..], r')
  }

  // ---------------------------------------------------------------- every step keeps the invariant

  ghost predicate TasksEvolve(s: Sys, s': Sys, now: int) {
    && |s'.tasks| == |s.tasks| && |s'.rqs| == |s.rqs|
    && forall x :: 0 <= x < |s.tasks| ==> EvolvesTask(s.tasks[x], s'.tasks[x], now)
  }

  lemma StampOk(s: Sys, s': Sys, now: int, doneAt: map<nat, int>)
    requires CompletionOk(s.tasks, doneAt) && TasksEvolve(s, s', now)
    ensures CompletionOk(s'.tasks, Stamp(doneAt, s'.tasks, now + 1))
  {
    var d := Stamp(doneAt, s'.tasks, now + 1);
    forall x | x in d ensures d[x] == End(s'.tasks[x]) {
      assert EvolvesTask(s.tasks[x], s'.tasks[x], now);
    }
  }

  lemma AdvanceOk(r: RState, s': Sys, c: nat, ph: Phase)
    requires RInv(r) && c < |r.ph| && TasksEvolve(r.s, s', r.now)
    requires forall d :: 0 <= d < |r.s.rqs| && d != c ==> s'.rqs[d].nextLb == r.s.rqs[d].nextLb
    requires r.now == -1 ==> Booting(s'.rqs[c], ph) && forall d :: 0 <= d < |r.s.rqs| && d != c ==> s'.rqs[d] == r.s.rqs[d]
    requires SysOk(s', r.now, r.ph[c := ph]) && (|r.ph| > 1 ==> BalanceOk(s'.rqs[c], r.now, ph))
    ensures RInv(Advance(r, s', c, ph))
  {
    hide CpuOk, TaskOk, Placed, EvolvesTask, CompletionOk;
    StampOk(r.s, s', r.now, r.doneAt);
    forall d | 0 <= d < |r.ph| && |r.ph| > 1 ensures BalanceOk(s'.rqs[d], r.now, r.ph[c := ph][d]) {
      assert BalanceOk(r.s.rqs[d], r.now, r.ph[d]);
    }
  }

  lemma SelfEvolves(s: Sys, now: int)
    ensures Evolves(s, s, now)
  {
    forall x | 0 <= x < |s.tasks| ensures EvolvesTask(s.tasks[x], s.tasks[x], now) {
      SameCoreEvolves(s.tasks[x], s.tasks[x], now);
    }
  }

  /** The phase of one CPU moves on without any other change. */
  lemma PhaseOk(s: Sys, now: int, ph: seq<Phase>, c: nat, p: Phase)
    requires SysOk(s, now, ph) && c < |ph|
    requires EventsDone(p) == EventsDone(ph[c]) || (p.Fired? && ph[c].Ticked? && WellFormed(s) && !HasDue(s, c, now + 1))
    requires p.Start? == ph[c].Start? && p.Done? == ph[c].Done?
    ensures SysOk(s, now, ph[c := p])
  {
    hide TaskOk, Placed, QueueOk, End;
    var q, evs := s.rqs[c], s.events[c];
    assert CpuOk(s.tasks, q, evs, c, now, ph[c]);
    assert EventsOk(s.tasks, evs, c, now, p) by {
      if EventsDone(p) == EventsDone(ph[c]) { EventsPhase(s.tasks, evs, c, now, ph[c], p); }
      else { NoDueLater(s.tasks, evs, c, now, ph[c]); }
    }
    Assemble(s, s, now, ph, ph[c := p], {c});
  }

  lemma NoDueLater(tasks: seq<Task>, evs: seq<Event>, c: nat, now: int, ph: Phase)
    requires EventsOk(tasks, evs, c, now, ph) && !EventsDone(ph)
    requires evs != [] ==> evs[0].timeout != now + 1
    ensures EventsOk(tasks, evs, c, now, Fired)
  {
    forall i | 0 <= i < |evs| ensures evs[i].timeout > now + 1 {
      assert Timeouts(evs)[0] <= Timeouts(evs)[i];
    }
  }

  lemma NextLbOk(s: Sys, now: int, ph: seq<Phase>, c: nat, when: int)
    requires SysOk(s, now, ph) && c < |s.rqs|
    ensures SysOk(SetNextLb(s, c, when), now, ph)
  {
    hide TaskOk, QueueOk, EventsOk, End;
    var s' := SetNextLb(s, c, when);
    assert CpuOk(s.tasks, s.rqs[c], s.events[c], c, now, ph[c]);
    forall y | 0 <= y < |s.tasks| && s.tasks[y].lastCpu == c
      ensures TaskOk(s'.tasks[y]) && Placed(s'.tasks[y], y, s'.rqs[c], s'.events[c])
    {
      assert TaskOk(s.tasks[y]) && Placed(s.tasks[y], y, s.rqs[c], s.events[c]);
    }
    Assemble(s, s', now, ph, ph, {c});
  }

  /** The first pick is a `schedule` at step -1 that leaves need_resched alone. */
  lemma FirstPickIsSchedule(cfg: Config, s: Sys, c: nat)
    requires WellFormed(s) && c < |s.rqs| && s.rqs[c].cur.None?
    requires s.rqs[c].queue != [] ==> s.tasks[s.rqs[c].queue[0]].lastEnqueued == 0
    ensures var f := FirstPick(s, c);
      Schedule(cfg, s, c, -1) == f.(rqs := f.rqs[c := f.rqs[c].(needResched := false)])
  {
    hide EventsInRange;
    var s2 := PickNext(s, c);
    if s.rqs[c].queue != [] {
      var x := s.rqs[c].queue[0];
      var t := s2.tasks[x];
      assert SwitchIn(t, c, -1) == t.(state := OnProc);
    } else {
      assert Schedule(cfg, s, c, -1).tasks == s.tasks;
    }
  }

  lemma NeedReschedOk(s: Sys, now: int, ph: seq<Phase>, c: nat, flag: bool)
    requires SysOk(s, now, ph) && c < |s.rqs| && ph[c].Done?
    ensures var s' := s.(rqs := s.rqs[c := s.rqs[c].(needResched := flag)]); SysOk(s', now, ph)
  {
    hide TaskOk, QueueOk, EventsOk, End;
    var s' := s.(rqs := s.rqs[c := s.rqs[c].(needResched := flag)]);
    assert CpuOk(s.tasks, s.rqs[c], s.events[c], c, now, ph[c]);
    forall y | 0 <= y < |s.tasks| && s.tasks[y].lastCpu == c
      ensures TaskOk(s'.tasks[y]) && Placed(s'.tasks[y], y, s'.rqs[c], s'.events[c])
    {
      assert TaskOk(s.tasks[y]) && Placed(s.tasks[y], y, s.rqs[c], s.events[c]);
    }
    Assemble(s, s', now, ph, ph, {c});
  }

  /** At step -1 a runnable task has just been enqueued. */
  lemma FreshlyQueued(s: Sys, ph: seq<Phase>, c: nat)
    requires SysOk(s, -1, ph) && c < |s.rqs| && s.rqs[c].queue != []
    ensures s.rqs[c].queue[0] < |s.tasks| && s.tasks[s.rqs[c].queue[0]].lastEnqueued == 0
  {
    assert CpuOk(s.tasks, s.rqs[c], s.events[c], c, -1, ph[c]);
    var x := s.rqs[c].queue[0];
    assert QueuedOk(s.tasks[x], c, -1) && TaskOk(s.tasks[x]);
    EndAfterStart(s.tasks[x].regs, s.tasks[x].arrival);
  }

  /** The first pick after `schedule` has been put in its place. */
  lemma FirstPickViaSchedule(cfg: Config, s: Sys, c: nat)
    requires WellFormed(s) && c < |s.rqs| && s.rqs[c].cur.None?
    requires s.rqs[c].queue != [] ==> s.tasks[s.rqs[c].queue[0]].lastEnqueued == 0
    ensures var f := FirstPick(s, c); var s' := Schedule(cfg, s, c, -1);
      && f == s'.(rqs := s'.rqs[c := s'.rqs[c].(needResched := f.rqs[c].needResched)])
      && f.tasks == s'.tasks && (forall d :: 0 <= d < |s.rqs| ==> f.rqs[d].nextLb == s'.rqs[d].nextLb)
  {
    hide Schedule, FirstPick, WellFormed;
    FirstPickIsSchedule(cfg, s, c);
    var f := FirstPick(s, c);
    assert f.rqs[c := f.rqs[c].(needResched := false)][c := f.rqs[c]] == f.rqs;
  }

  lemma FirstPickKeeps(cfg: Config, s: Sys, ph: seq<Phase>, c: nat)
    requires SysOk(s, -1, ph) && c < |s.rqs| && ph[c].Fired? && s.rqs[c].cur.None?
    ensures WellFormed(s) && SysOk(FirstPick(s, c), -1, ph[c := Done]) && Evolves(s, FirstPick(s, c), -1)
  {
    InvWellFormed(s, -1, ph);
    assert |s.rqs| == |ph| && EventsDone(ph[c]);
    hide *;
    if s.rqs[c].queue != [] { FreshlyQueued(s, ph, c); }
    FirstPickViaSchedule(cfg, s, c);
    ScheduleKeeps(cfg, s, -1, ph, c);
    ScheduleEvolves(cfg, s, -1, ph, c);
    var f := FirstPick(s, c);
    var s' := Schedule(cfg, s, c, -1);
    NeedReschedOk(s', -1, ph[c := Done], c, f.rqs[c].needResched);
    SameTasksEvolve(s, s', f, -1);
  }

  lemma SameTasksEvolve(s: Sys, s1: Sys, s2: Sys, now: int)
    requires Evolves(s, s1, now) && s2.tasks == s1.tasks && |s2.rqs| == |s1.rqs|
    requires forall d :: 0 <= d < |s1.rqs| ==> s2.rqs[d].nextLb == s1.rqs[d].nextLb
    ensures Evolves(s, s2, now)
  {
    hide EvolvesTask;
  }

  lemma FirstPickElsewhere(s: Sys, c: nat)
    requires WellFormed(s) && c < |s.rqs|
    ensures forall d :: 0 <= d < |s.rqs| && d != c ==> FirstPick(s, c).rqs[d] == s.rqs[d]
    ensures FirstPick(s, c).rqs[c].nextLb == s.rqs[c].nextLb
  {
  }

  lemma EnqueueElsewhere(cfg: Config, s: Sys, x: nat, c: nat)
    requires WellFormed(s) && x < |s.tasks| && c < |s.rqs|
    ensures var s' := DoEnqueue(cfg, s, x, c, false);
      && (forall d :: 0 <= d < |s.rqs| && d != c ==> s'.rqs[d] == s.rqs[d])
      && s'.rqs[c].cur == s.rqs[c].cur && s'.rqs[c].nextLb == s.rqs[c].nextLb
  {
    hide EventsInRange, InsertPos, QueuePos, QueueKeys, Queued, Preempts;
  }

  /** Firing an event concerns one CPU, and leaves its current task and its balancing time alone. */
  lemma FireElsewhere(cfg: Config, s: Sys, c: nat, step: int)
    requires WellFormed(s) && c < |s.rqs| && s.events[c] != []
    ensures var s' := Fire(cfg, s, c, step);
      && (forall d :: 0 <= d < |s.rqs| && d != c ==> s'.rqs[d] == s.rqs[d])
      && s'.rqs[c].cur == s.rqs[c].cur && s'.rqs[c].nextLb == s.rqs[c].nextLb
  {
    hide DoEnqueue;
    var e := s.events[c][0];
    var t := s.tasks[e.task];
    var k := if e.kind.NewTask? then t.curPhase else t.curPhase + 1;
    if !PhaseIsIo(k) && (e.kind.TaskAwake? ==> k < |t.phases|) {
      FireIsEnqueue(cfg, s, c, step, k);
      EnqueueElsewhere(cfg, s.(events := s.events[c := s.events[c][1..]], tasks := s.tasks[e.task := Woken(t, k, step)]), e.task, c);
    }
  }

  // ---------------------------------------------------------------- the step lemma

  lemma TickStepKeeps(cfg: Config, r: RState, c: nat)
    requires RInv(r) && Enabled(r, TickStep(c))
    ensures RInv(Apply(cfg, r, TickStep(c))) && TasksEvolve(r.s, Apply(cfg, r, TickStep(c)).s, r.now)
  {
    hide Tick, SysOk, EvolvesTask, WellFormed;
    SysLengths(r);
    assert |r.ph| > 1 ==> BalanceOk(r.s.rqs[c], r.now, r.ph[c]);
    TickKeeps(cfg, r.s, r.now, r.ph, c);
    TickEvolves(cfg, r.s, r.now, r.ph, c);
    AdvanceOk(r, Tick(cfg, r.s, c, r.now), c, Ticked);
  }

  lemma FireStepKeeps(cfg: Config, r: RState, c: nat)
    requires RInv(r) && Enabled(r, FireStep(c))
    ensures RInv(Apply(cfg, r, FireStep(c))) && TasksEvolve(r.s, Apply(cfg, r, FireStep(c)).s, r.now)
  {
    hide Fire, SysOk, EvolvesTask, WellFormed;
    SysLengths(r);
    assert |r.ph| > 1 ==> BalanceOk(r.s.rqs[c], r.now, r.ph[c]);
    FireKeeps(cfg, r.s, r.now, r.ph, c);
    assert r.ph[c := Ticked] == r.ph;
    FireEvolves(cfg, r.s, r.now, r.ph, c);
    FireElsewhere(cfg, r.s, c, r.now + 1);
    AdvanceOk(r, Fire(cfg, r.s, c, r.now + 1), c, Ticked);
  }

  lemma FirstPickStepKeeps(cfg: Config, r: RState, c: nat)
    requires RInv(r) && Enabled(r, FirstPickStep(c))
    ensures RInv(Apply(cfg, r, FirstPickStep(c))) && TasksEvolve(r.s, Apply(cfg, r, FirstPickStep(c)).s, r.now)
  {
    hide FirstPick, SysOk, EvolvesTask, WellFormed;
    SysLengths(r);
    assert |r.ph| > 1 ==> BalanceOk(r.s.rqs[c], r.now, r.ph[c]);
    FirstPickKeeps(cfg, r.s, r.ph, c);
    FirstPickElsewhere(r.s, c);
    AdvanceOk(r, FirstPick(r.s, c), c, Done);
  }

  lemma ScheduleStepKeeps(cfg: Config, r: RState, c: nat)
    requires RInv(r) && Enabled(r, ScheduleStep(c))
    ensures RInv(Apply(cfg, r, ScheduleStep(c))) && TasksEvolve(r.s, Apply(cfg, r, ScheduleStep(c)).s, r.now)
  {
    hide Schedule, SysOk, EvolvesTask, WellFormed;
    SysLengths(r);
    assert |r.ph| > 1 ==> BalanceOk(r.s.rqs[c], r.now, r.ph[c]);
    ScheduleKeeps(cfg, r.s, r.now, r.ph, c);
    ScheduleEvolves(cfg, r.s, r.now, r.ph, c);
    NotBooting(r, c);
    AdvanceOk(r, Schedule(cfg, r.s, c, r.now), c, Done);
  }

  lemma SysLengths(r: RState)
    requires RInv(r)
    ensures 1 <= |r.s.rqs| == |r.s.events| == |r.ph|
  {
  }

  lemma NotBooting(r: RState, c: nat)
    requires RInv(r) && c < |r.ph| && !r.ph[c].Ticked? && !r.ph[c].Fired? && !r.ph[c].Done?
    ensures r.now >= 0
  {
    assert r.now == -1 ==> Booting(r.s.rqs[c], r.ph[c]);
  }

  /** The begin, a trial and the end of load balancing on CPU c. */
  lemma BalanceStepKeeps(cfg: Config, r: RState, st: Step)
    requires ConfigOk(cfg) && RInv(r) && Enabled(r, st) && (st.EventsOver? || st.BalanceBegin? || st.BalanceEnd?)
    ensures RInv(Apply(cfg, r, st)) && TasksEvolve(r.s, Apply(cfg, r, st).s, r.now)
  {
    hide SysOk, EvolvesTask, WellFormed, TasksEvolve;
    SysLengths(r);
    var c := st.cpu;
    var q := r.s.rqs[c];
    assert |r.ph| > 1 ==> BalanceOk(q, r.now, r.ph[c]);
    assert r.now == -1 ==> Booting(q, r.ph[c]);
    match st
    case EventsOver(_) =>
      SelfTasksEvolve(r.s, r.s, r.now);
      PhaseOk(r.s, r.now, r.ph, c, Fired);
      AdvanceOk(r, r.s, c, Fired);
    case BalanceBegin(_) =>
      var s' := if q.nrRunnable == 0 then SetNextLb(r.s, c, r.now) else r.s;
      var p := if |s'.rqs| == 1 || s'.rqs[c].nextLb != r.now then Balanced else Balancing(0);
      SelfTasksEvolve(r.s, s', r.now);
      NextLbOk(r.s, r.now, r.ph, c, r.now);
      PhaseOk(s', r.now, r.ph, c, p);
      AdvanceOk(r, s', c, p);
    case BalanceEnd(_) =>
      var s' := SetNextLb(r.s, c, q.nextLb + cfg.period);
      SelfTasksEvolve(r.s, s', r.now);
      NextLbOk(r.s, r.now, r.ph, c, q.nextLb + cfg.period);
      PhaseOk(s', r.now, r.ph, c, Balanced);
      AdvanceOk(r, s', c, Balanced);
  }

  lemma SelfTasksEvolve(s: Sys, s': Sys, now: int)
    requires s'.tasks == s.tasks && |s'.rqs| == |s.rqs|
    ensures TasksEvolve(s, s', now)
  {
    SelfEvolves(s, now);
  }

  lemma TrialKeeps(cfg: Config, r: RState, c: nat, loads: seq<nat>)
    requires RInv(r) && Enabled(r, BalanceTrial(c, loads))
    ensures RInv(Apply(cfg, r, BalanceTrial(c, loads))) && TasksEvolve(r.s, Apply(cfg, r, BalanceTrial(c, loads)).s, r.now)
  {
    hide SysOk, EvolvesTask, TasksEvolve, Rebalance, WellFormed;
    SysLengths(r);
    RemoteIsNotLocal(loads, c);
    assert |r.ph| > 1 ==> BalanceOk(r.s.rqs[c], r.now, r.ph[c]);
    NotBooting(r, c);
    match Choose(loads, c)
    case PushTo(d) => MoveStepKeeps(cfg, r, c, c, d);
    case PullFrom(d) => MoveStepKeeps(cfg, r, c, d, c);
    case SystemBalanced =>
      SelfTasksEvolve(r.s, r.s, r.now);
      PhaseOk(r.s, r.now, r.ph, c, Balancing(MAX_TRIALS));
      AdvanceOk(r, r.s, c, Balancing(MAX_TRIALS));
    case NothingToDo =>
      SelfTasksEvolve(r.s, r.s, r.now);
      PhaseOk(r.s, r.now, r.ph, c, Balancing(r.ph[c].trials + 1));
      AdvanceOk(r, r.s, c, Balancing(r.ph[c].trials + 1));
  }

  lemma MoveStepKeeps(cfg: Config, r: RState, c: nat, src: nat, dst: nat)
    requires RInv(r) && c < |r.ph| && r.ph[c].Balancing? && r.now >= 0
    requires WellFormed(r.s) && src < |r.s.rqs| && dst < |r.s.rqs| && src != dst
    ensures RInv(Advance(r, Rebalance(cfg, r.s, src, dst, r.now), c, Balancing(r.ph[c].trials + 1)))
    ensures TasksEvolve(r.s, Rebalance(cfg, r.s, src, dst, r.now), r.now)
  {
    hide SysOk, EvolvesTask, Rebalance, WellFormed;
    SysLengths(r);
    assert |r.ph| > 1 ==> BalanceOk(r.s.rqs[c], r.now, r.ph[c]);
    var s' := Rebalance(cfg, r.s, src, dst, r.now);
    RebalanceKeeps(cfg, r.s, r.now, r.ph, src, dst);
    RebalanceEvolves(cfg, r.s, r.now, r.ph, src, dst);
    PhaseOk(s', r.now, r.ph, c, Balancing(r.ph[c].trials + 1));
    AdvanceOk(r, s', c, Balancing(r.ph[c].trials + 1));
  }

  lemma NextCpuOk(tasks: seq<Task>, q: Rq, evs: seq<Event>, c: nat, now: int)
    requires CpuOk(tasks, q, evs, c, now, Done)
    ensures CpuOk(tasks, q, evs, c, now + 1, Start)
  {
  }

  /** All threads have passed the barriers: the next step begins. */
  lemma NextRoundKeeps(cfg: Config, r: RState)
    requires RInv(r) && Enabled(r, NextRound)
    ensures RInv(Apply(cfg, r, NextRound)) && TasksEvolve(r.s, Apply(cfg, r, NextRound).s, r.now)
  {
    hide CpuOk, TaskOk, Placed, CompletionOk, TasksEvolve;
    SelfTasksEvolve(r.s, r.s, r.now);
    var r' := Apply(cfg, r, NextRound);
    forall c | 0 <= c < |r.ph|
      ensures CpuOk(r.s.tasks, r.s.rqs[c], r.s.events[c], c, r.now + 1, r'.ph[c])
      ensures |r.ph| > 1 ==> BalanceOk(r.s.rqs[c], r.now + 1, r'.ph[c])
    {
      assert r.ph[c].Done? && (|r.ph| > 1 ==> BalanceOk(r.s.rqs[c], r.now, r.ph[c]));
      NextCpuOk(r.s.tasks, r.s.rqs[c], r.s.events[c], c, r.now);
    }
  }

  /** Every section of every thread keeps the invariant. */
  lemma StepKeeps(cfg: Config, r: RState, st: Step)
    requires ConfigOk(cfg) && RInv(r) && Enabled(r, st)
    ensures RInv(Apply(cfg, r, st)) && TasksEvolve(r.s, Apply(cfg, r, st).s, r.now)
  {
    hide RInv, Apply, Enabled, TasksEvolve;
    match st
    case TickStep(c) => TickStepKeeps(cfg, r, c);
    case FireStep(c) => FireStepKeeps(cfg, r, c);
    case FirstPickStep(c) => FirstPickStepKeeps(cfg, r, c);
    case ScheduleStep(c) => ScheduleStepKeeps(cfg, r, c);
    case BalanceTrial(c, loads) => TrialKeeps(cfg, r, c, loads);
    case NextRound => NextRoundKeeps(cfg, r);
    case _ => BalanceStepKeeps(cfg, r, st);
  }

  ghost predicate SameProfiles(s: Sys, s': Sys) {
    && |s'.tasks| == |s.tasks| && |s'.rqs| == |s.rqs|
    && forall x :: 0 <= x < |s.tasks| ==> SameProfile(s.tasks[x], s'.tasks[x])
  }

  lemma {:induction false} RunKeeps(cfg: Config, r: RState, steps: seq<Step>, r': RState)
    requires ConfigOk(cfg) && RInv(r) && Reaches(cfg, r, steps, r')
    ensures RInv(r') && SameProfiles(r.s, r'.s)
    decreases |steps|
  {
    hide RInv, Apply, Enabled;
    if steps != [] {
      StepKeeps(cfg, r, steps[0]);
      RunKeeps(cfg, Apply(cfg, r, steps[0]), steps[1..], r');
    }
  }
}
