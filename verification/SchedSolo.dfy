/** The loop of a single CPU is a run of the interleaved model, so what holds of every run holds of it. */
module SchedSolo {
  import opened SchedTypes
  import opened SchedSteps
  import opened SchedClocks
  import opened SchedInvariant
  import opened SchedBalance
  import opened SchedRuns
  import opened SchedTheorems
  import opened SchedOneCpu

  lemma {:induction false} Joined(cfg: Config, a: RState, s1: seq<Step>, b: RState, s2: seq<Step>, c: RState)
    requires Reaches(cfg, a, s1, b) && Reaches(cfg, b, s2, c)
    ensures Reaches(cfg, a, s1 + s2, c)
    decreases |s1|
  {
    hide Apply, Enabled;
    if s1 == [] {
      assert s1 + s2 == s2;
    } else {
      Joined(cfg, Apply(cfg, a, s1[0]), s1[1..], b, s2, c);
      assert (s1 + s2)[0] == s1[0] && (s1 + s2)[1..] == s1[1..] + s2;
    }
  }

  /** One more section at the end of a run. */
  lemma OneMore(cfg: Config, a: RState, steps: seq<Step>, b: RState, st: Step)
    requires Reaches(cfg, a, steps, b) && Enabled(b, st)
    ensures Reaches(cfg, a, steps + [st], Apply(cfg, b, st))
  {
    hide Apply, Enabled;
    var c := Apply(cfg, b, st);
    assert Reaches(cfg, c, [], c) && [st][1..] == [];
    Joined(cfg, a, steps, b, [st], c);
  }

  /** The single CPU at the given place in its loop. */
  ghost predicate Alone(r: RState, ph: Phase) {
    RInv(r) && WellFormed(r.s) && |r.s.rqs| == 1 && |r.s.events| == 1 && r.ph == [ph]
  }

  lemma AloneAfter(cfg: Config, r: RState, st: Step, ph: Phase)
    requires ConfigOk(cfg) && RInv(r) && Enabled(r, st) && |r.s.rqs| == 1 && Apply(cfg, r, st).ph == [ph]
    ensures Alone(Apply(cfg, r, st), ph)
  {
    hide Apply, Enabled;
    StepKeeps(cfg, r, st);
    InvWellFormed(Apply(cfg, r, st).s, Apply(cfg, r, st).now, Apply(cfg, r, st).ph);
  }

  lemma AloneFacts(r: RState, ph: Phase)
    requires Alone(r, ph)
    ensures !r.s.aborted && r.now >= -1
  {
  }

  lemma OneFirst(cfg: Config, r: RState, st: Step, rest: seq<Step>, r': RState)
    requires Enabled(r, st) && Reaches(cfg, Apply(cfg, r, st), rest, r')
    ensures Reaches(cfg, r, [st] + rest, r')
  {
    assert ([st] + rest)[0] == st && ([st] + rest)[1..] == rest;
  }

  lemma FireOnce(cfg: Config, r: RState) returns (r1: RState)
    requires ConfigOk(cfg) && Alone(r, Ticked) && HasDue(r.s, 0, r.now + 1)
    ensures Enabled(r, FireStep(0)) && r1 == Apply(cfg, r, FireStep(0)) && Alone(r1, Ticked) && r1.now == r.now
    ensures |r1.s.events[0]| < |r.s.events[0]| && FireAll(cfg, r1.s, 0, r.now + 1) == FireAll(cfg, r.s, 0, r.now + 1)
  {
    hide RInv, WellFormed, Fire, FireAll;
    AloneFacts(r, Ticked);
    r1 := Apply(cfg, r, FireStep(0));
    assert r1.ph == [Ticked];
    AloneAfter(cfg, r, FireStep(0), Ticked);
    FireShrinks(cfg, r.s, 0, r.now + 1);
    FireAllStep(cfg, r.s, r.now + 1);
  }

  lemma FireAllStep(cfg: Config, s: Sys, step: int)
    requires WellFormed(s) && 0 < |s.rqs| && HasDue(s, 0, step) && !s.aborted
    ensures FireAll(cfg, s, 0, step) == FireAll(cfg, Fire(cfg, s, 0, step), 0, step)
  {
    hide Fire;
  }

  lemma NoMoreToFire(cfg: Config, r: RState) returns (r1: RState)
    requires ConfigOk(cfg) && Alone(r, Ticked) && !HasDue(r.s, 0, r.now + 1)
    ensures Enabled(r, EventsOver(0)) && r1 == Apply(cfg, r, EventsOver(0)) && Alone(r1, Fired) && r1.now == r.now
    ensures r1.s == FireAll(cfg, r.s, 0, r.now + 1)
  {
    hide RInv, WellFormed, Fire;
    r1 := Apply(cfg, r, EventsOver(0));
    assert r1.ph == [Fired];
    AloneAfter(cfg, r, EventsOver(0), Fired);
  }

  lemma AloneShape(r: RState, ph: Phase)
    requires Alone(r, ph)
    ensures WellFormed(r.s) && |r.s.rqs| == 1 && |r.s.events| == 1 && r.ph == [ph]
  {
  }

  /** Firing all due events, one section each. */
  lemma {:induction false} FiresAll(cfg: Config, r: RState) returns (steps: seq<Step>, r': RState)
    requires ConfigOk(cfg) && Alone(r, Ticked)
    ensures Reaches(cfg, r, steps, r') && Alone(r', Fired) && r'.now == r.now
    ensures r'.s == FireAll(cfg, r.s, 0, r.now + 1)
    decreases |r.s.events[0]|
  {
    hide *;
    AloneShape(r, Ticked);
    if HasDue(r.s, 0, r.now + 1) {
      var r1 := FireOnce(cfg, r);
      var rest;
      rest, r' := FiresAll(cfg, r1);
      OneFirst(cfg, r, FireStep(0), rest, r');
      steps := [FireStep(0)] + rest;
    } else {
      r' := NoMoreToFire(cfg, r);
      ReachesItself(cfg, r');
      OneFirst(cfg, r, EventsOver(0), [], r');
      steps := [EventsOver(0)] + [];
    }
  }

  /** From the end of the events to the start of the next round. */
  lemma RestOfRound(cfg: Config, r: RState) returns (steps: seq<Step>, r': RState)
    requires ConfigOk(cfg) && Alone(r, Fired) && r.now >= 0
    ensures Reaches(cfg, r, steps, r') && Alone(r', Start) && r'.now == r.now + 1
    ensures r'.s == Schedule(cfg, SoloBalance(r.s, r.now), 0, r.now)
  {
    hide RInv, WellFormed, Schedule, Reaches;
    var r1 := Apply(cfg, r, BalanceBegin(0));
    assert r1.ph == [Balanced] && r1.s == SoloBalance(r.s, r.now);
    AloneAfter(cfg, r, BalanceBegin(0), Balanced);
    var r2 := Apply(cfg, r1, ScheduleStep(0));
    assert r2.ph == [Done];
    AloneAfter(cfg, r1, ScheduleStep(0), Done);
    r' := Apply(cfg, r2, NextRound);
    assert r'.ph == [Start];
    AloneAfter(cfg, r2, NextRound, Start);
    ReachesItself(cfg, r);
    OneMore(cfg, r, [], r, BalanceBegin(0));
    OneMore(cfg, r, [] + [BalanceBegin(0)], r1, ScheduleStep(0));
    OneMore(cfg, r, [] + [BalanceBegin(0)] + [ScheduleStep(0)], r2, NextRound);
    steps := [] + [BalanceBegin(0)] + [ScheduleStep(0)] + [NextRound];
  }

  lemma ReachesItself(cfg: Config, r: RState)
    ensures Reaches(cfg, r, [], r)
  {
  }

  lemma RoundRuns(cfg: Config, r: RState) returns (steps: seq<Step>, r': RState)
    requires ConfigOk(cfg) && Alone(r, Start) && r.now >= 0
    ensures Reaches(cfg, r, steps, r') && Alone(r', Start) && r'.now == r.now + 1
    ensures r'.s == Round(cfg, r.s, r.now)
  {
    hide RInv, WellFormed, Schedule, Reaches, Tick, FireAll, SoloBalance;
    var r1 := Apply(cfg, r, TickStep(0));
    assert r1.ph == [Ticked] && r1.s == Tick(cfg, r.s, 0, r.now);
    AloneAfter(cfg, r, TickStep(0), Ticked);
    ReachesItself(cfg, r);
    OneMore(cfg, r, [], r, TickStep(0));
    var fires, r2 := FiresAll(cfg, r1);
    var rest, r3 := RestOfRound(cfg, r2);
    Joined(cfg, r, [] + [TickStep(0)], r1, fires, r2);
    Joined(cfg, r, [] + [TickStep(0)] + fires, r2, rest, r3);
    steps, r' := [] + [TickStep(0)] + fires + rest, r3;
  }

  lemma BootAlone(cfg: Config, ps: seq<Profile>) returns (r: RState)
    requires ConfigOk(cfg) && ProfilesOk(ps)
    ensures r == Boot(cfg, ps, 1) && Alone(r, Ticked) && r.s == BootSys(cfg, ps, 1) && r.now == -1
  {
    r := Boot(cfg, ps, 1);
    BootInv(cfg, ps, 1);
    hide RInv;
    InvWellFormed(r.s, -1, [Ticked]) by { assert r.ph == [Ticked]; InvSys(r); }
  }

  lemma PickAndGo(cfg: Config, r: RState) returns (r1: RState, r2: RState)
    requires ConfigOk(cfg) && Alone(r, Fired) && r.now == -1
    ensures Enabled(r, FirstPickStep(0)) && r1 == Apply(cfg, r, FirstPickStep(0))
    ensures Enabled(r1, NextRound) && r2 == Apply(cfg, r1, NextRound)
    ensures Alone(r2, Start) && r2.now == 0 && r2.s == FirstPick(r.s, 0)
  {
    hide RInv, WellFormed, FirstPick;
    r1 := Apply(cfg, r, FirstPickStep(0));
    assert r1.ph == [Done];
    AloneAfter(cfg, r, FirstPickStep(0), Done);
    r2 := Apply(cfg, r1, NextRound);
    assert r2.ph == [Start];
    AloneAfter(cfg, r1, NextRound, Start);
  }

  /** The thread's start: the events of step 0, the first pick, and on to step 0. */
  lemma StartRuns(cfg: Config, ps: seq<Profile>) returns (steps: seq<Step>, r: RState)
    requires ConfigOk(cfg) && ProfilesOk(ps)
    ensures RunFrom(cfg, ps, 1, steps, r) && Alone(r, Start) && r.now == 0 && r.s == Started(cfg, ps)
  {
    var r0 := BootAlone(cfg, ps);
    hide Alone, WellFormed, BootSys, FireAll, FirstPick, Reaches, Apply, Enabled, Boot;
    var fires, r1 := FiresAll(cfg, r0);
    var r2;
    r2, r := PickAndGo(cfg, r1);
    OneMore(cfg, r0, fires, r1, FirstPickStep(0));
    OneMore(cfg, r0, fires + [FirstPickStep(0)], r2, NextRound);
    steps := fires + [FirstPickStep(0)] + [NextRound];
  }

  /** The state of the one-CPU loop after k turns is reached by a run of the interleaved model. */
  lemma {:induction false} RoundsAreRuns(cfg: Config, ps: seq<Profile>, k: nat) returns (steps: seq<Step>, r: RState)
    requires ConfigOk(cfg) && ProfilesOk(ps)
    ensures RunFrom(cfg, ps, 1, steps, r) && Alone(r, Start) && r.now == k
    ensures r.s == Rounds(cfg, Started(cfg, ps), 0, k)
  {
    hide RInv, WellFormed, Reaches, Round, Started;
    if k == 0 {
      steps, r := StartRuns(cfg, ps);
    } else {
      var before, r1 := RoundsAreRuns(cfg, ps, k - 1);
      var turn;
      turn, r := RoundRuns(cfg, r1);
      Joined(cfg, Boot(cfg, ps, 1), before, r1, turn, r);
      steps := before + turn;
    }
  }

  /** No completion is recorded later than the end of the current step. */
  ghost predicate DoneInTime(r: RState) {
    && (forall x :: x in r.doneAt ==> r.doneAt[x] <= r.now + 1)
    && ((forall c :: 0 <= c < |r.ph| ==> r.ph[c].Start?) ==> forall x :: x in r.doneAt ==> r.doneAt[x] <= r.now)
  }

  lemma AdvanceInTime(r: RState, s': Sys, c: nat, ph: Phase)
    requires DoneInTime(r) && c < |r.ph| && !ph.Start?
    ensures DoneInTime(Advance(r, s', c, ph))
  {
    assert Advance(r, s', c, ph).ph[c] == ph;
  }

  lemma StepInTime(cfg: Config, r: RState, st: Step)
    requires DoneInTime(r) && Enabled(r, st)
    ensures DoneInTime(Apply(cfg, r, st))
  {
    hide DoneInTime, Advance, WellFormed, Tick, Fire, Schedule, FirstPick, OneTrial, Rebalance, Choose;
    match st
    case TickStep(c) => AdvanceInTime(r, Tick(cfg, r.s, c, r.now), c, Ticked);
    case FireStep(c) => AdvanceInTime(r, Fire(cfg, r.s, c, r.now + 1), c, Ticked);
    case EventsOver(c) => AdvanceInTime(r, r.s, c, Fired);
    case BalanceBegin(c) =>
      var s := if r.s.rqs[c].nrRunnable == 0 then SetNextLb(r.s, c, r.now) else r.s;
      AdvanceInTime(r, s, c, if |s.rqs| == 1 || s.rqs[c].nextLb != r.now then Balanced else Balancing(0));
    case BalanceTrial(c, loads) => TrialInTime(cfg, r, c, loads);
    case BalanceEnd(c) => AdvanceInTime(r, SetNextLb(r.s, c, r.s.rqs[c].nextLb + cfg.period), c, Balanced);
    case FirstPickStep(c) => AdvanceInTime(r, FirstPick(r.s, c), c, Done);
    case ScheduleStep(c) => AdvanceInTime(r, Schedule(cfg, r.s, c, r.now), c, Done);
    case NextRound => NextInTime(r);
  }

  lemma NextInTime(r: RState)
    requires DoneInTime(r)
    ensures DoneInTime(r.(now := r.now + 1, ph := seq(|r.ph|, _ => Start)))
  {
  }

  lemma TrialInTime(cfg: Config, r: RState, c: nat, loads: seq<nat>)
    requires DoneInTime(r) && Enabled(r, BalanceTrial(c, loads))
    ensures DoneInTime(Apply(cfg, r, BalanceTrial(c, loads)))
  {
    hide WellFormed, Rebalance, Choose;
    assert Apply(cfg, r, BalanceTrial(c, loads)) == Trial(cfg, r, c, loads);
    var t := Trial(cfg, r, c, loads);
    AdvanceInTime(r, t.s, c, t.ph[c]);
  }

  lemma {:induction false} RunInTime(cfg: Config, r: RState, steps: seq<Step>, r': RState)
    requires DoneInTime(r) && Reaches(cfg, r, steps, r')
    ensures DoneInTime(r')
    decreases |steps|
  {
    hide DoneInTime, Apply, Enabled;
    if steps != [] {
      StepInTime(cfg, r, steps[0]);
      RunInTime(cfg, Apply(cfg, r, steps[0]), steps[1..], r');
    }
  }

  lemma DoneByNow(cfg: Config, ps: seq<Profile>, steps: seq<Step>, r: RState, x: nat)
    requires RunFrom(cfg, ps, 1, steps, r) && r.ph == [Start] && x in r.doneAt
    ensures r.doneAt[x] <= r.now
  {
    hide Reaches, BootSys;
    assert DoneInTime(Boot(cfg, ps, 1));
    RunInTime(cfg, Boot(cfg, ps, 1), steps, r);
  }

  lemma {:induction false} SumNonNegative(a: seq<int>)
    requires forall i :: 0 <= i < |a| ==> a[i] >= 0
    ensures Sum(a) >= 0
  {
    if a != [] { SumNonNegative(a[..|a| - 1]); }
  }

  lemma {:induction false} RestNonNegative(phases: seq<int>, k: nat)
    requires forall i :: 0 <= i < |phases| ==> phases[i] >= 1
    ensures Rest(phases, k) >= 0
    decreases |phases| - k
  {
    if k < |phases| { RestNonNegative(phases, k + 1); }
  }

  lemma BoundIsNat(ps: seq<Profile>) returns (bound: nat)
    requires ProfilesOk(ps)
    ensures bound == MaxArrival(ps) + TotalWork(ps)
  {
    var a := seq(|ps|, i requires 0 <= i < |ps| => Rest(ps[i].phases, 0));
    forall i | 0 <= i < |a| ensures a[i] >= 0 { RestNonNegative(ps[i].phases, 0); }
    SumNonNegative(a);
    bound := MaxArrival(ps) + TotalWork(ps);
  }

  lemma AloneParts(r: RState, ph: Phase)
    requires Alone(r, ph)
    ensures r.ph == [ph]
  {
  }

  /** On one CPU, whatever the scheduling class: after max(arrival) + (sum of all phase lengths) turns every task has
      completed, and its turnaround (its real time) is exact, consists of its phases and its waiting, and ends within
      the bound. */
  lemma TurnaroundBounded(cfg: Config, ps: seq<Profile>, x: nat)
    requires ConfigOk(cfg) && ProfilesOk(ps) && x < |ps|
    ensures var bound := MaxArrival(ps) + TotalWork(ps);
      && bound >= 0
      && var t := Rounds(cfg, Started(cfg, ps), 0, bound).tasks[x];
        && t.state == Completed
        && t.realTime == Work(ps[x].phases, |ps[x].phases|, false) + Work(ps[x].phases, |ps[x].phases|, true)
                         + Logged(t.regs, Runnable)
        && ps[x].arrival + t.realTime <= bound
  {
    hide *;
    var bound := BoundIsNat(ps);
    BoundedMakespan(cfg, ps, bound);
    var steps, r := RoundsAreRuns(cfg, ps, bound);
    TimesAddUp(cfg, ps, 1, steps, r, x);
    AloneParts(r, Start);
    DoneByNow(cfg, ps, steps, r, x);
  }
}
