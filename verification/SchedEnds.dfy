/** The simulation ends: a measure that every move of the threads decreases, and what has been done by then. */
module SchedEnds {
  import opened Basics
  import opened SchedTypes
  import opened SchedSteps
  import opened SchedInvariant
  import opened SchedKeeps
  import opened SchedBalance
  import opened SchedRuns
  import opened SchedTheorems
  import opened SchedOneCpu
  import opened SchedFlags
  import opened SchedBarrier
  import opened SchedSolo
  import opened SchedMakespan

  /** How much of the loop body is ahead of a CPU in this phase. */
  function PhaseRank(p: Phase): (r: nat)
    ensures 1 <= r <= MAX_TRIALS + 6
  {
    match p
    case Start => MAX_TRIALS + 6
    case Ticked => MAX_TRIALS + 5
    case Fired => MAX_TRIALS + 4
    case Balancing(k) => if k < MAX_TRIALS then MAX_TRIALS + 3 - k else 3
    case Balanced => 2
    case Done => 1
  }

  /** How much of the loop is ahead of a thread. */
  function PcRank(p: Pc): (r: nat)
    ensures r <= 6
  {
    match p
    case AtLoop => 6
    case InBody => 5
    case AtReset => 4
    case AtBarrier0 => 3
    case AtCheck => 2
    case AtBarrier1 => 1
    case Exited => 0
  }

  const MAX_RANK := MAX_TRIALS + 12

  /** What thread c has ahead of it in this step: a tick adds at most one event. */
  function Ahead(g: Threads, c: nat): (r: nat)
    requires c < |g.pc| == |g.r.ph| && |g.r.s.events| == |g.pc|
  {
    2 * (PcRank(g.pc[c]) + PhaseRank(g.r.ph[c])) + |g.r.s.events[c]|
  }

  function AllAhead(g: Threads): (r: seq<int>)
    ensures |r| == |g.pc|
  {
    seq(|g.pc|, c requires 0 <= c < |g.pc| =>
      if |g.pc| == |g.r.ph| == |g.r.s.events| then Ahead(g, c) else 0)
  }

  function StepsLeft(g: Threads, maxSteps: int): nat {
    if g.r.now < maxSteps then maxSteps - g.r.now else 0
  }

  /** A step of the simulation weighs more than all that can be ahead of the threads in one. */
  function Measure(g: Threads, maxSteps: int): int {
    (2 * MAX_RANK * |g.pc| + 1) * StepsLeft(g, maxSteps) + Sum(AllAhead(g))
  }

  lemma AheadNonNegative(g: Threads)
    ensures Sum(AllAhead(g)) >= 0
  {
    hide Ahead;
    SumPositive(AllAhead(g));
  }

  // ---------------------------------------------------------------- moves within a step

  /** Thread c comes closer to the end of the step, the others stay where they are. */
  lemma OneAhead(g: Threads, g': Threads, c: nat, maxSteps: int)
    requires |g'.pc| == |g.pc| == |g.r.ph| == |g'.r.ph| == |g.r.s.events| == |g'.r.s.events| && c < |g.pc| && g'.r.now == g.r.now
    requires Ahead(g', c) < Ahead(g, c)
    requires forall d :: 0 <= d < |g.pc| && d != c ==>
      g'.pc[d] == g.pc[d] && g'.r.ph[d] == g.r.ph[d] && |g'.r.s.events[d]| == |g.r.s.events[d]|
    ensures Measure(g', maxSteps) < Measure(g, maxSteps)
  {
    hide PcRank, PhaseRank;
    SumLess(AllAhead(g'), AllAhead(g), c);
    assert StepsLeft(g', maxSteps) == StepsLeft(g, maxSteps);
  }

  /** Sections other than those that fire or add an event leave the event lists alone. */
  lemma BodyEvents(cfg: Config, r: RState, st: Step)
    requires RInv(r) && Enabled(r, st) && BodyStep(st)
    ensures var r' := Apply(cfg, r, st); var c := st.cpu;
      && c < |r.ph| == |r'.ph| == |r.s.events| == |r'.s.events| && r'.now == r.now
      && (forall d :: 0 <= d < |r.ph| && d != c ==> r'.ph[d] == r.ph[d] && r'.s.events[d] == r.s.events[d])
      && 2 * PhaseRank(r'.ph[c]) + |r'.s.events[c]| < 2 * PhaseRank(r.ph[c]) + |r.s.events[c]|
  {
    hide RInv, SysOk, WellFormed, Tick, Fire, Schedule, Rebalance, Stamp;
    RunSysOk(r);
    match st
    case TickStep(c) => TickEvents(cfg, r.s, c, r.now);
    case FireStep(c) => FireEvents(cfg, r.s, c, r.now + 1);
    case ScheduleStep(c) => ScheduleEvents(cfg, r.s, c, r.now);
    case BalanceTrial(c, loads) => TrialEvents(cfg, r, c, loads);
    case _ =>
  }

  lemma TickEvents(cfg: Config, s: Sys, c: nat, now: int)
    requires WellFormed(s) && c < |s.rqs|
    ensures var s' := Tick(cfg, s, c, now);
      && |s'.events| == |s.events| && (forall d :: 0 <= d < |s.events| && d != c ==> s'.events[d] == s.events[d])
      && |s'.events[c]| <= |s.events[c]| + 1
  {
    hide Charge, Leave, EventsInRange;
  }

  lemma EnqueueEvents(cfg: Config, s: Sys, x: nat, c: nat, runnable: bool)
    requires WellFormed(s) && x < |s.tasks| && c < |s.rqs|
    ensures DoEnqueue(cfg, s, x, c, runnable).events == s.events
  {
    hide EventsInRange, QueuePos, QueueKeys, Queued, Preempts;
  }

  lemma FireEvents(cfg: Config, s: Sys, c: nat, step: int)
    requires WellFormed(s) && c < |s.rqs| && s.events[c] != []
    ensures Fire(cfg, s, c, step).events == s.events[c := s.events[c][1..]]
  {
    hide DoEnqueue;
    var e := s.events[c][0];
    var t := s.tasks[e.task];
    var k := if e.kind.NewTask? then t.curPhase else t.curPhase + 1;
    if !PhaseIsIo(k) && (e.kind.TaskAwake? ==> k < |t.phases|) {
      FireIsEnqueue(cfg, s, c, step, k);
      EnqueueEvents(cfg, s.(events := s.events[c := s.events[c][1..]], tasks := s.tasks[e.task := Woken(t, k, step)]), e.task, c, false);
    }
  }

  lemma ScheduleEvents(cfg: Config, s: Sys, c: nat, now: int)
    requires WellFormed(s) && c < |s.rqs|
    ensures Schedule(cfg, s, c, now).events == s.events
  {
    hide DoEnqueue, EventsInRange, Switch;
    var cur := s.rqs[c].cur;
    if cur.Some? { EnqueueEvents(cfg, s, cur.value, c, true); }
  }

  lemma RebalanceEvents(cfg: Config, s: Sys, src: nat, dst: nat, now: int)
    requires WellFormed(s) && src < |s.rqs| && dst < |s.rqs|
    ensures Rebalance(cfg, s, src, dst, now).events == s.events
  {
    hide DoEnqueue, Migrated;
    if s.rqs[src].queue != [] {
      EnqueueEvents(cfg, Steal(s, src), s.rqs[src].queue[|s.rqs[src].queue| - 1], dst, false);
    }
  }

  lemma TrialEvents(cfg: Config, r: RState, c: nat, loads: seq<nat>)
    requires RInv(r) && Enabled(r, BalanceTrial(c, loads))
    ensures var r' := Apply(cfg, r, BalanceTrial(c, loads));
      && |r'.ph| == |r.ph| && r'.now == r.now && r'.s.events == r.s.events
      && c < |r.ph| && (forall d :: 0 <= d < |r.ph| && d != c ==> r'.ph[d] == r.ph[d])
      && PhaseRank(r'.ph[c]) < PhaseRank(r.ph[c])
  {
    hide RInv, SysOk, WellFormed, Rebalance, Stamp;
    RunSysOk(r);
    RemoteIsNotLocal(loads, c);
    match Choose(loads, c)
    case PushTo(d) => RebalanceEvents(cfg, r.s, c, d, r.now);
    case PullFrom(d) => RebalanceEvents(cfg, r.s, d, c, r.now);
    case _ =>
  }

  lemma BodyDecreases(cfg: Config, maxSteps: int, g: Threads, st: Step)
    requires Protocol(g, maxSteps) && CanMove(g, Body(st))
    ensures Measure(MoveTo(cfg, maxSteps, g, Body(st)), maxSteps) < Measure(g, maxSteps)
  {
    hide RInv, WellFormed, Apply, Enabled, Measure, PhaseRank;
    BodyEvents(cfg, g.r, st);
    OneAhead(g, MoveTo(cfg, maxSteps, g, Body(st)), st.cpu, maxSteps);
  }

  // ---------------------------------------------------------------- moves to the next step

  lemma {:induction false} SumBound(a: seq<int>, b: seq<int>, k: int)
    requires |a| == |b| && forall i :: 0 <= i < |a| ==> a[i] <= b[i] + k
    ensures Sum(a) <= Sum(b) + k * |a|
  {
    if a != [] {
      var n := |a| - 1;
      SumBound(a[..n], b[..n], k);
      assert k * |a| == k * n + k;
    }
  }

  /** The next step begins. */
  lemma NextDecreases(g: Threads, g': Threads, maxSteps: int)
    requires |g'.pc| == |g.pc| == |g.r.ph| == |g'.r.ph| == |g.r.s.events| && g'.r.s == g.r.s
    requires g'.r.now == g.r.now + 1 && g.r.now < maxSteps
    ensures Measure(g', maxSteps) < Measure(g, maxSteps)
  {
    hide PcRank, PhaseRank;
    var n := |g.pc|;
    var k := 2 * MAX_RANK;
    forall c | 0 <= c < n ensures AllAhead(g')[c] <= AllAhead(g)[c] + k {}
    SumBound(AllAhead(g'), AllAhead(g), k);
    assert StepsLeft(g', maxSteps) == StepsLeft(g, maxSteps) - 1;
    OneStepLess(k * n + 1, StepsLeft(g, maxSteps));
  }

  lemma OneStepLess(w: int, s: int)
    ensures w * (s - 1) == w * s - w
  {
  }

  lemma ReleaseDecreases(cfg: Config, maxSteps: int, g: Threads)
    requires Protocol(g, maxSteps) && CanMove(g, Release1)
    ensures Measure(MoveTo(cfg, maxSteps, g, Release1), maxSteps) < Measure(g, maxSteps)
  {
    assert g.r.now < maxSteps && |g.r.s.events| == |g.pc| by { assert g.pc[0].AtBarrier1?; }
    hide RInv, WellFormed, Measure, Protocol;
    NextDecreases(g, MoveTo(cfg, maxSteps, g, Release1), maxSteps);
  }

  /** With one thread the end of the body is the start of the next step. */
  lemma LeaveDecreases(cfg: Config, maxSteps: int, g: Threads, c: nat)
    requires Protocol(g, maxSteps) && CanMove(g, LeaveBody(c))
    ensures Measure(MoveTo(cfg, maxSteps, g, LeaveBody(c)), maxSteps) < Measure(g, maxSteps)
  {
    assert BeforeBarrier(g.pc[c]) && |g.r.s.events| == |g.pc| && g.r.now < maxSteps;
    hide RInv, WellFormed, Measure, Protocol;
    var g' := MoveTo(cfg, maxSteps, g, LeaveBody(c));
    if |g.pc| == 1 {
      NextDecreases(g, g', maxSteps);
    } else {
      OneAhead(g, g', c, maxSteps);
    }
  }

  lemma ReleaseAllDecreases(cfg: Config, maxSteps: int, g: Threads)
    requires Protocol(g, maxSteps) && CanMove(g, Release0)
    ensures Measure(MoveTo(cfg, maxSteps, g, Release0), maxSteps) < Measure(g, maxSteps)
  {
    assert |g.r.s.events| == |g.pc|;
    hide RInv, WellFormed, PhaseRank, Protocol, Measure;
    AllCloser(g, MoveTo(cfg, maxSteps, g, Release0), maxSteps);
  }

  lemma AllCloser(g: Threads, g': Threads, maxSteps: int)
    requires 1 <= |g'.pc| == |g.pc| == |g.r.ph| == |g.r.s.events| && g'.r == g.r
    requires forall c :: 0 <= c < |g.pc| ==> PcRank(g'.pc[c]) < PcRank(g.pc[c])
    ensures Measure(g', maxSteps) < Measure(g, maxSteps)
  {
    hide PcRank, PhaseRank;
    forall c | 0 <= c < |g.pc| ensures AllAhead(g')[c] < AllAhead(g)[c] {
      assert PcRank(g'.pc[c]) < PcRank(g.pc[c]);
    }
    SumLess(AllAhead(g'), AllAhead(g), 0);
    assert StepsLeft(g', maxSteps) == StepsLeft(g, maxSteps);
  }

  /** Every move of every thread brings the simulation closer to its end. */
  lemma MoveDecreases(cfg: Config, maxSteps: int, g: Threads, m: Move)
    requires Protocol(g, maxSteps) && CanMove(g, m)
    ensures Measure(MoveTo(cfg, maxSteps, g, m), maxSteps) < Measure(g, maxSteps)
  {
    assert |g.r.s.events| == |g.pc|;
    hide RInv, WellFormed, Measure, PhaseRank, Protocol;
    match m
    case Body(st) => BodyDecreases(cfg, maxSteps, g, st);
    case LeaveBody(c) => LeaveDecreases(cfg, maxSteps, g, c);
    case Release0 => ReleaseAllDecreases(cfg, maxSteps, g);
    case Release1 => ReleaseDecreases(cfg, maxSteps, g);
    case LoopTest(c) => OneAhead(g, MoveTo(cfg, maxSteps, g, m), c, maxSteps);
    case Reset(c) => OneAhead(g, MoveTo(cfg, maxSteps, g, m), c, maxSteps);
    case Check(c) => OneAhead(g, MoveTo(cfg, maxSteps, g, m), c, maxSteps);
  }

  // ---------------------------------------------------------------- runs of the threads

  lemma MeasureNonNegative(g: Threads, maxSteps: int)
    ensures Measure(g, maxSteps) >= 0
  {
    AheadNonNegative(g);
    hide AllAhead, StepsLeft;
  }

  lemma {:induction false} MovesDecrease(cfg: Config, maxSteps: int, g: Threads, moves: seq<Move>, g': Threads)
    requires ConfigOk(cfg) && Protocol(g, maxSteps) && Leads(cfg, maxSteps, g, moves, g')
    ensures |moves| + Measure(g', maxSteps) <= Measure(g, maxSteps)
    decreases |moves|
  {
    hide Protocol, CanMove, MoveTo, Measure;
    if moves != [] {
      MoveDecreases(cfg, maxSteps, g, moves[0]);
      MoveKeeps(cfg, maxSteps, g, moves[0]);
      MovesDecrease(cfg, maxSteps, MoveTo(cfg, maxSteps, g, moves[0]), moves[1..], g');
    }
  }

  /** The simulation terminates, whatever the interleaving: the number of moves is bounded from the start, and when no thread
      can move any more, all have left the loop. */
  lemma EveryRunEnds(cfg: Config, maxSteps: int, ps: seq<Profile>, n: nat, boot: seq<Step>,
                     g: Threads, moves: seq<Move>, g': Threads)
    requires Launched(cfg, ps, n, boot, g) && Leads(cfg, maxSteps, g, moves, g')
    ensures |moves| <= Measure(g, maxSteps)
    ensures (forall m :: !CanMove(g', m)) ==> forall c :: 0 <= c < |g'.pc| ==> g'.pc[c].Exited?
  {
    hide *;
    LaunchedOk(cfg, maxSteps, ps, n, boot, g);
    LaunchedConfig(cfg, ps, n, boot, g);
    MovesDecrease(cfg, maxSteps, g, moves, g');
    MeasureNonNegative(g', maxSteps);
    if c :| 0 <= c < |g'.pc| && !g'.pc[c].Exited? {
      var m := SomeThreadMoves(cfg, maxSteps, ps, n, boot, g, moves, g');
    }
  }

  /** What one move does to the simulated system: at most one section. */
  lemma MoveIsStep(cfg: Config, maxSteps: int, g: Threads, m: Move) returns (steps: seq<Step>)
    requires Protocol(g, maxSteps) && CanMove(g, m)
    ensures Reaches(cfg, g.r, steps, MoveTo(cfg, maxSteps, g, m).r)
  {
    hide RInv, WellFormed, Apply, Published, AllComplete;
    var r := g.r;
    steps := match m case Body(st) => [st] case Release1 => [NextRound] case LeaveBody(_) => if |g.pc| == 1 then [NextRound] else [] case _ => [];
    assert steps != [] ==> Reaches(cfg, Apply(cfg, r, steps[0]), [], Apply(cfg, r, steps[0])) && steps[1..] == [];
  }

  lemma {:induction false} MovesAreSteps(cfg: Config, maxSteps: int, g: Threads, moves: seq<Move>, g': Threads) returns (steps: seq<Step>)
    requires ConfigOk(cfg) && Protocol(g, maxSteps) && Leads(cfg, maxSteps, g, moves, g')
    ensures Reaches(cfg, g.r, steps, g'.r)
    decreases |moves|
  {
    hide Protocol, CanMove, MoveTo;
    if moves == [] {
      steps := [];
    } else {
      var g1 := MoveTo(cfg, maxSteps, g, moves[0]);
      var s1 := MoveIsStep(cfg, maxSteps, g, moves[0]);
      MoveKeeps(cfg, maxSteps, g, moves[0]);
      var s2 := MovesAreSteps(cfg, maxSteps, g1, moves[1..], g');
      Joined(cfg, g.r, s1, g1.r, s2, g'.r);
      steps := s1 + s2;
    }
  }

  lemma LeavingLate(g: Threads, maxSteps: int, c: nat)
    requires Protocol(g, maxSteps) && c < |g.pc| && g.pc[c].Exited?
    ensures g.completed >= |g.pc| || g.r.now >= maxSteps
  {
    hide RInv, WellFormed, Published, AllComplete;
  }

  /** With a step limit of at least max(arrival) + (sum of all phase lengths), every task has completed when a thread leaves
      the loop, whichever of the two exit conditions it found. */
  lemma ExitMeansComplete(cfg: Config, maxSteps: int, ps: seq<Profile>, n: nat, boot: seq<Step>,
                          g: Threads, moves: seq<Move>, g': Threads, c: nat)
    requires Launched(cfg, ps, n, boot, g) && Leads(cfg, maxSteps, g, moves, g')
    requires maxSteps >= MaxArrival(ps) + TotalWork(ps) && c < |g'.pc| && g'.pc[c].Exited?
    ensures |g'.r.s.tasks| == |ps| && forall x :: 0 <= x < |ps| ==> g'.r.s.tasks[x].state == Completed
  {
    hide *;
    LaunchedOk(cfg, maxSteps, ps, n, boot, g);
    LaunchedConfig(cfg, ps, n, boot, g);
    MovesKeep(cfg, maxSteps, g, moves, g');
    var steps := MovesAreSteps(cfg, maxSteps, g, moves, g');
    RunGoesOn(cfg, ps, n, boot, g, steps, g'.r);
    RunInv(cfg, ps, n, boot + steps, g'.r);
    LeavingLate(g', maxSteps, c);
    if g'.completed >= |g'.pc| {
      CounterMeansComplete(cfg, maxSteps, ps, n, boot, g, moves, g', c);
    } else {
      AllDoneInTime(cfg, ps, n, boot + steps, g'.r);
    }
  }

  lemma RunGoesOn(cfg: Config, ps: seq<Profile>, n: nat, boot: seq<Step>, g: Threads, steps: seq<Step>, r: RState)
    requires Launched(cfg, ps, n, boot, g) && Reaches(cfg, g.r, steps, r)
    ensures RunFrom(cfg, ps, n, boot + steps, r)
  {
    hide Reaches, Boot;
    Joined(cfg, Boot(cfg, ps, n), boot, g.r, steps, r);
  }
}
