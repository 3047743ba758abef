/** The clocks and log registers of one task: what "the times add up" means. */
module SchedClocks {
  import opened SchedTypes
  import opened SchedSteps

  /** The first k phases of one kind, added up. */
  function Work(phases: seq<int>, k: nat, io: bool): int
    requires k <= |phases|
  {
    if k == 0 then 0
    else Work(phases, k - 1, io) + (if PhaseIsIo(k - 1) == io then phases[k - 1] else 0)
  }

  /** Time spent in one state according to the log. */
  function Logged(regs: seq<LogRegister>, state: TaskState): int {
    if regs == [] then 0
    else Logged(regs[..|regs| - 1], state)
         + (if regs[|regs| - 1].state == state then regs[|regs| - 1].howLong else 0)
  }

  /** Where the log ends, for a task that entered the system at `start`. */
  function LogEnd(regs: seq<LogRegister>, start: int): int {
    if regs == [] then start else regs[|regs| - 1].when + regs[|regs| - 1].howLong
  }

  ghost predicate ActiveState(s: TaskState) {
    s.Runnable? || s.OnProc? || s.Sleep?
  }

  /** The registers are nonempty intervals that cover [start, LogEnd) with no gap and no overlap. */
  ghost predicate Tiles(regs: seq<LogRegister>, start: int) {
    regs == []
    || (var init, last := regs[..|regs| - 1], regs[|regs| - 1];
        Tiles(init, start) && last.howLong > 0 && ActiveState(last.state) && last.when == LogEnd(init, start))
  }

  ghost predicate ProfileOk(t: Task) {
    && 1 <= |t.phases| <= MAX_EXEC_PHASES
    && (forall i :: 0 <= i < |t.phases| ==> t.phases[i] >= 1)
  }

  /** How far the task has got in its profile, and what user and system time it has been charged.
      I/O time is charged in advance when the task goes to sleep. */
  ghost predicate ProgressOk(t: Task) {
    match t.state
    case Starting => t.curPhase == 0 && t.regs == [] && t.userTime == 0 && t.sysTime == 0 && t.realTime == 0
    case Runnable => OnCpuPhase(t)
    case OnProc => OnCpuPhase(t)
    case Sleep =>
      && PhaseIsIo(t.curPhase) && t.curPhase < |t.phases|
      && t.userTime == Work(t.phases, t.curPhase, false)
      && t.sysTime == Work(t.phases, t.curPhase + 1, true)
    case Completed =>
      && t.curPhase == |t.phases|
      && t.userTime == Work(t.phases, |t.phases|, false)
      && t.sysTime == Work(t.phases, |t.phases|, true)
  }

  ghost predicate OnCpuPhase(t: Task) {
    && !PhaseIsIo(t.curPhase) && t.curPhase < |t.phases|
    && 1 <= t.ticksLeft <= t.phases[t.curPhase]
    && t.userTime + t.ticksLeft == Work(t.phases, t.curPhase + 1, false)
    && t.sysTime == Work(t.phases, t.curPhase, true)
  }

  ghost predicate LogOk(t: Task) {
    && Tiles(t.regs, t.arrival)
    && LogEnd(t.regs, t.arrival) == t.arrival + t.realTime
    && Logged(t.regs, OnProc) == t.userTime
    && Logged(t.regs, Sleep) == t.sysTime
  }

  ghost predicate TaskOk(t: Task) {
    ProfileOk(t) && ProgressOk(t) && LogOk(t)
  }

  function End(t: Task): int {
    LogEnd(t.regs, t.arrival)
  }

  /** Adding a register that starts where the log ends keeps the tiling, even when it is merged into the
      last register. */
  lemma AddLogKeeps(regs: seq<LogRegister>, start: int, state: TaskState, cpu: nat, when: int, howLong: int)
    requires Tiles(regs, start) && ActiveState(state)
    requires howLong >= 0 && (howLong > 0 ==> when == LogEnd(regs, start))
    ensures var r := AddLog(regs, state, cpu, when, howLong);
      && Tiles(r, start)
      && LogEnd(r, start) == LogEnd(regs, start) + howLong
      && forall st :: Logged(r, st) == Logged(regs, st) + (if st == state then howLong else 0)
  {
    hide *;
    AddLogTiles(regs, start, state, cpu, when, howLong);
    AddLogLogged(regs, state, cpu, when, howLong);
  }

  lemma AddLogTiles(regs: seq<LogRegister>, start: int, state: TaskState, cpu: nat, when: int, howLong: int)
    requires Tiles(regs, start) && ActiveState(state)
    requires howLong >= 0 && (howLong > 0 ==> when == LogEnd(regs, start))
    ensures var r := AddLog(regs, state, cpu, when, howLong);
      Tiles(r, start) && LogEnd(r, start) == LogEnd(regs, start) + howLong
  {
    var r := AddLog(regs, state, cpu, when, howLong);
    if howLong != 0 {
      var n := |r| - 1;
      assert r[..n] == if |r| == |regs| then regs[..n] else regs;
    }
  }

  lemma AddLogLogged(regs: seq<LogRegister>, state: TaskState, cpu: nat, when: int, howLong: int)
    ensures forall st :: Logged(AddLog(regs, state, cpu, when, howLong), st)
                      == Logged(regs, st) + (if st == state then howLong else 0)
  {
    var r := AddLog(regs, state, cpu, when, howLong);
    if howLong != 0 {
      var n := |r| - 1;
      assert r[..n] == if |r| == |regs| then regs[..n] else regs;
    }
  }

  /** The three kinds of logged time add up to the length of the tiled interval. */
  lemma {:induction false} TilesAddUp(regs: seq<LogRegister>, start: int)
    requires Tiles(regs, start)
    ensures LogEnd(regs, start) == start + Logged(regs, OnProc) + Logged(regs, Sleep) + Logged(regs, Runnable)
  {
    if regs != [] {
      TilesAddUp(regs[..|regs| - 1], start);
    }
  }

  lemma {:induction false} TilesMonotone(regs: seq<LogRegister>, start: int)
    requires Tiles(regs, start)
    ensures forall i, j :: 0 <= i < j < |regs| ==> regs[i].when + regs[i].howLong <= regs[j].when
  {
    if regs != [] {
      var n := |regs| - 1;
      var init := regs[..n];
      TilesMonotone(init, start);
      forall i | 0 <= i < n ensures regs[i].when + regs[i].howLong <= regs[n].when {
        if i < n - 1 { assert init[i].when + init[i].howLong <= init[n - 1].when; }
      }
    }
  }

  lemma {:induction false} EndAfterStart(regs: seq<LogRegister>, start: int)
    requires Tiles(regs, start)
    ensures LogEnd(regs, start) >= start
  {
    if regs != [] {
      EndAfterStart(regs[..|regs| - 1], start);
    }
  }

  ghost predicate Covers(regs: seq<LogRegister>, i: nat, when: int) {
    i < |regs| && regs[i].when <= when < regs[i].when + regs[i].howLong
  }

  lemma {:induction false} TilesReach(regs: seq<LogRegister>, start: int, when: int)
    requires Tiles(regs, start) && start <= when < LogEnd(regs, start)
    ensures exists i :: Covers(regs, i, when)
  {
    var n := |regs| - 1;
    var init := regs[..n];
    if when < LogEnd(init, start) {
      TilesReach(init, start, when);
      var i :| Covers(init, i, when);
      assert Covers(regs, i, when);
    } else {
      assert Covers(regs, n, when);
    }
  }

  lemma {:induction false} TilesInside(regs: seq<LogRegister>, start: int, i: nat, when: int)
    requires Tiles(regs, start) && Covers(regs, i, when)
    ensures start <= when < LogEnd(regs, start)
  {
    var n := |regs| - 1;
    var init := regs[..n];
    if i < n {
      TilesInside(init, start, i, when);
    } else {
      EndAfterStart(init, start);
    }
  }

  /** An instant lies in some register exactly when it is in [start, LogEnd), and in no more than one. */
  lemma TilesCover(regs: seq<LogRegister>, start: int, when: int)
    requires Tiles(regs, start)
    ensures (exists i :: Covers(regs, i, when)) <==> start <= when < LogEnd(regs, start)
    ensures forall i, j :: Covers(regs, i, when) && Covers(regs, j, when) ==> i == j
  {
    TilesMonotone(regs, start);
    if start <= when < LogEnd(regs, start) { TilesReach(regs, start, when); }
    forall i | Covers(regs, i, when) ensures start <= when < LogEnd(regs, start) {
      TilesInside(regs, start, i, when);
    }
  }

  /** A completed task: its real time is its CPU time plus its I/O time plus the time it spent ready. */
  lemma CompletedTimes(t: Task)
    requires TaskOk(t) && t.state == Completed
    ensures t.userTime == Work(t.phases, |t.phases|, false)
    ensures t.sysTime == Work(t.phases, |t.phases|, true)
    ensures t.realTime == t.userTime + t.sysTime + Logged(t.regs, Runnable)
  {
    TilesAddUp(t.regs, t.arrival);
  }
}
