/** The loop of the CPU threads and their two-barrier synchronisation: `sched_cpu` and `synchronize_cpus`.
    Between two barriers the threads run the sections of module SchedRuns in any order. */
module SchedBarrier {
  import opened SchedTypes
  import opened SchedSteps
  import opened SchedClocks
  import opened SchedInvariant
  import opened SchedBalance
  import opened SchedRuns
  import opened SchedTheorems

  /** Where a CPU thread is: about to test the loop condition, in the loop body, about to enter
      `synchronize_cpus`, waiting at the first barrier, about to publish its status, waiting at the second
      barrier, or out of the loop. */
  datatype Pc = AtLoop | InBody | AtReset | AtBarrier0 | AtCheck | AtBarrier1 | Exited

  datatype Threads = Threads(r: RState, pc: seq<Pc>, step: seq<nat>, completed: nat)

  datatype Move =
    | LoopTest(cpu: nat)
    | Body(st: Step)
    | LeaveBody(cpu: nat)
    | Reset(cpu: nat)
    | Release0
    | Check(cpu: nat)
    | Release1

  predicate BodyStep(st: Step) {
    !st.NextRound? && !st.FirstPickStep?
  }

  ghost predicate Shape(g: Threads) {
    && WellFormed(g.r.s)
    && 1 <= |g.pc| == |g.step| == |g.r.ph| == |g.r.s.rqs|
  }

  /** A barrier releases its threads when all nr_cpus of them have arrived. */
  ghost predicate CanMove(g: Threads, m: Move) {
    && Shape(g)
    && match m
       case LoopTest(c) => c < |g.pc| && g.pc[c].AtLoop?
       case Body(st) => BodyStep(st) && st.cpu < |g.pc| && g.pc[st.cpu].InBody? && Enabled(g.r, st)
       case LeaveBody(c) => c < |g.pc| && g.pc[c].InBody? && g.r.ph[c].Done?
       case Reset(c) => c < |g.pc| && g.pc[c].AtReset?
       case Release0 => forall c :: 0 <= c < |g.pc| ==> g.pc[c].AtBarrier0?
       case Check(c) => c < |g.pc| && g.pc[c].AtCheck?
       case Release1 => AllDone(g.r) && forall c :: 0 <= c < |g.pc| ==> g.pc[c].AtBarrier1?
  }

  ghost predicate AllDone(r: RState) {
    forall c :: 0 <= c < |r.ph| ==> r.ph[c].Done?
  }

  predicate Continues(g: Threads, c: nat, maxSteps: int)
    requires c < |g.step|
  {
    g.completed < |g.pc| && g.step[c] < maxSteps
  }

  /** The next step number of every thread. */
  function NextSteps(step: seq<nat>): (r: seq<nat>)
    ensures |r| == |step|
  {
    seq(|step|, c requires 0 <= c < |step| => step[c] + 1)
  }

  function MoveTo(cfg: Config, maxSteps: int, g: Threads, m: Move): Threads
    requires CanMove(g, m)
  {
    match m
    case LoopTest(c) => g.(pc := g.pc[c := if Continues(g, c, maxSteps) then InBody else Exited])
    case Body(st) => g.(r := Apply(cfg, g.r, st))
    case LeaveBody(c) =>
      if |g.pc| == 1 then
        g.(pc := [AtLoop], step := NextSteps(g.step), completed := if HasCompleted(g.r.s, c) then 1 else 0,
           r := Apply(cfg, g.r, NextRound))
      else g.(pc := g.pc[c := AtReset])
    case Reset(c) => g.(pc := g.pc[c := AtBarrier0], completed := if c == 0 then 0 else g.completed)
    case Release0 => g.(pc := seq(|g.pc|, _ => AtCheck))
    case Check(c) =>
      g.(pc := g.pc[c := AtBarrier1], completed := g.completed + if HasCompleted(g.r.s, c) then 1 else 0)
    case Release1 =>
      g.(pc := seq(|g.pc|, _ => AtLoop), step := NextSteps(g.step), r := Apply(cfg, g.r, NextRound))
  }

  ghost predicate Leads(cfg: Config, maxSteps: int, g: Threads, moves: seq<Move>, g': Threads)
    decreases |moves|
  {
    if moves == [] then g' == g
    else CanMove(g, moves[0]) && Leads(cfg, maxSteps, MoveTo(cfg, maxSteps, g, moves[0]), moves[1..], g')
  }

  // ---------------------------------------------------------------- the invariant of the protocol

  /** How many of the first k threads have published that they are complete. */
  function Published(g: Threads, k: nat): (r: nat)
    requires WellFormed(g.r.s) && k <= |g.pc| == |g.r.s.rqs|
    ensures r <= k
    ensures r == k ==> forall c :: 0 <= c < k ==> HasCompleted(g.r.s, c)
  {
    if k == 0 then 0
    else Published(g, k - 1) + (if g.pc[k - 1].AtBarrier1? && HasCompleted(g.r.s, k - 1) then 1 else 0)
  }

  predicate BeforeBarrier(p: Pc) {
    p.InBody? || p.AtReset? || p.AtBarrier0?
  }

  ghost predicate AllComplete(s: Sys)
    requires WellFormed(s)
  {
    forall c :: 0 <= c < |s.rqs| ==> HasCompleted(s, c)
  }

  ghost predicate AllAtLoop(g: Threads) {
    forall c :: 0 <= c < |g.pc| ==> g.pc[c].AtLoop?
  }

  /** All threads are at the loop test, in the body or at the first barrier: those that have passed the test
      have found that the simulation continues, and so will the others. */
  ghost predicate Working(g: Threads, maxSteps: int)
    requires Shape(g)
  {
    && (forall c :: 0 <= c < |g.pc| ==> g.pc[c].AtLoop? || BeforeBarrier(g.pc[c]))
    && ((exists c :: 0 <= c < |g.pc| && BeforeBarrier(g.pc[c])) ==> g.completed < |g.pc| && g.r.now < maxSteps)
    && (g.pc[0].AtBarrier0? ==> g.completed == 0)
    && (|g.pc| == 1 ==> g.pc[0].AtLoop? || g.pc[0].InBody?)
    && (forall c :: 0 <= c < |g.pc| ==>
          if g.pc[c].AtLoop? then g.r.ph[c].Start? else g.pc[c].InBody? || g.r.ph[c].Done?)
    && (g.completed >= |g.pc| ==> AllComplete(g.r.s))
    && (g.r.now >= 1 && AllAtLoop(g) && AllComplete(g.r.s) ==> g.completed >= |g.pc|)
  }

  /** Between the barriers: the counter counts the threads that have published. */
  ghost predicate Publishing(g: Threads, maxSteps: int)
    requires Shape(g)
  {
    && |g.pc| > 1
    && (forall c :: 0 <= c < |g.pc| ==> g.pc[c].AtCheck? || g.pc[c].AtBarrier1?)
    && AllDone(g.r) && g.r.now < maxSteps
    && g.completed == Published(g, |g.pc|)
  }

  /** Some thread has left the loop: all of them will. */
  ghost predicate Leaving(g: Threads, maxSteps: int)
    requires Shape(g)
  {
    && (forall c :: 0 <= c < |g.pc| ==> g.pc[c].AtLoop? || g.pc[c].Exited?)
    && !(g.completed < |g.pc| && g.r.now < maxSteps)
    && (g.completed >= |g.pc| ==> AllComplete(g.r.s))
    && (g.r.now >= 1 && AllComplete(g.r.s) ==> g.completed >= |g.pc|)
  }

  ghost predicate Protocol(g: Threads, maxSteps: int) {
    && RInv(g.r) && g.r.now >= 0 && Shape(g)
    && (forall c :: 0 <= c < |g.step| ==> g.step[c] == g.r.now)
    && (Working(g, maxSteps) || Publishing(g, maxSteps) || Leaving(g, maxSteps))
  }

  lemma {:induction false} PublishedNone(g: Threads, k: nat)
    requires WellFormed(g.r.s) && k <= |g.pc| == |g.r.s.rqs|
    requires forall c :: 0 <= c < |g.pc| ==> g.pc[c].AtCheck?
    ensures Published(g, k) == 0
  {
    if k > 0 { PublishedNone(g, k - 1); }
  }

  lemma {:induction false} PublishedOneMore(g: Threads, g': Threads, c: nat, k: nat)
    requires WellFormed(g.r.s) && k <= |g.pc| == |g.r.s.rqs| && c < |g.pc| && g.pc[c].AtCheck?
    requires g'.r == g.r && g'.pc == g.pc[c := AtBarrier1]
    ensures Published(g', k) == Published(g, k) + (if c < k && HasCompleted(g.r.s, c) then 1 else 0)
  {
    if k > 0 { PublishedOneMore(g, g', c, k - 1); }
  }

  /** If all have arrived and all are complete, the counter is full. */
  lemma {:induction false} PublishedAll(g: Threads, k: nat)
    requires WellFormed(g.r.s) && k <= |g.pc| == |g.r.s.rqs| && AllComplete(g.r.s)
    requires forall c :: 0 <= c < |g.pc| ==> g.pc[c].AtBarrier1?
    ensures Published(g, k) == k
  {
    if k > 0 { PublishedAll(g, k - 1); }
  }

  lemma BodyPhases(cfg: Config, r: RState, st: Step)
    requires Enabled(r, st) && BodyStep(st) && RInv(r)
    ensures var r' := Apply(cfg, r, st);
      && r'.now == r.now && |r'.ph| == |r.ph| && st.cpu < |r.ph| && |r'.s.rqs| == |r.s.rqs|
      && forall c :: 0 <= c < |r.ph| && c != st.cpu ==> r'.ph[c] == r.ph[c]
  {
    hide RInv, Tick, Fire, Schedule, Rebalance, FirstPick, WellFormed, Stamp;
    match st
    case BalanceTrial(c, loads) => RemoteIsNotLocal(loads, c);
    case _ =>
  }

  lemma InvShape(r: RState)
    requires RInv(r)
    ensures WellFormed(r.s) && 1 <= |r.ph| == |r.s.rqs| == |r.s.events|
  {
    InvWellFormed(r.s, r.now, r.ph);
  }

  lemma BodyKeeps(cfg: Config, maxSteps: int, g: Threads, st: Step)
    requires ConfigOk(cfg) && Protocol(g, maxSteps) && CanMove(g, Body(st))
    ensures Protocol(MoveTo(cfg, maxSteps, g, Body(st)), maxSteps)
  {
    hide RInv, Enabled, Apply, WellFormed, AllComplete;
    StepKeeps(cfg, g.r, st);
    BodyPhases(cfg, g.r, st);
    InvShape(Apply(cfg, g.r, st));
    assert BeforeBarrier(g.pc[st.cpu]);
  }

  lemma RoundKeeps(cfg: Config, r: RState)
    requires RInv(r) && Enabled(r, NextRound)
    ensures var r' := Apply(cfg, r, NextRound);
      && RInv(r') && r'.s == r.s && r'.now == r.now + 1 && |r'.ph| == |r.ph|
      && forall c :: 0 <= c < |r'.ph| ==> r'.ph[c].Start?
  {
    NextRoundKeeps(cfg, r);
  }

  lemma LoopTestKeeps(cfg: Config, maxSteps: int, g: Threads, c: nat)
    requires Protocol(g, maxSteps) && CanMove(g, LoopTest(c))
    ensures Protocol(MoveTo(cfg, maxSteps, g, LoopTest(c)), maxSteps)
  {
    hide RInv, WellFormed, AllComplete;
    var g' := MoveTo(cfg, maxSteps, g, LoopTest(c));
    if Continues(g, c, maxSteps) {
      assert g'.pc[c].InBody?;
      assert Working(g', maxSteps);
    } else {
      assert Working(g, maxSteps) ==> AllAtLoop(g);
      assert Leaving(g', maxSteps);
    }
  }

  lemma LeaveBodyKeeps(cfg: Config, maxSteps: int, g: Threads, c: nat)
    requires Protocol(g, maxSteps) && CanMove(g, LeaveBody(c))
    ensures Protocol(MoveTo(cfg, maxSteps, g, LeaveBody(c)), maxSteps)
  {
    hide RInv, WellFormed;
    var g' := MoveTo(cfg, maxSteps, g, LeaveBody(c));
    assert BeforeBarrier(g.pc[c]);
    if |g.pc| == 1 {
      RoundKeeps(cfg, g.r);
    } else {
      assert BeforeBarrier(g'.pc[c]);
    }
    assert Working(g', maxSteps);
  }

  lemma ResetKeeps(cfg: Config, maxSteps: int, g: Threads, c: nat)
    requires Protocol(g, maxSteps) && CanMove(g, Reset(c))
    ensures Protocol(MoveTo(cfg, maxSteps, g, Reset(c)), maxSteps)
  {
    hide RInv, WellFormed, AllComplete;
    var g' := MoveTo(cfg, maxSteps, g, Reset(c));
    assert BeforeBarrier(g.pc[c]) && g'.pc[c].AtBarrier0?;
    assert Working(g', maxSteps);
  }

  lemma Release0Keeps(cfg: Config, maxSteps: int, g: Threads)
    requires Protocol(g, maxSteps) && CanMove(g, Release0)
    ensures Protocol(MoveTo(cfg, maxSteps, g, Release0), maxSteps)
  {
    hide RInv, WellFormed;
    var g' := MoveTo(cfg, maxSteps, g, Release0);
    assert BeforeBarrier(g.pc[0]);
    PublishedNone(g', |g'.pc|);
    assert Publishing(g', maxSteps);
  }

  lemma CheckKeeps(cfg: Config, maxSteps: int, g: Threads, c: nat)
    requires Protocol(g, maxSteps) && CanMove(g, Check(c))
    ensures Protocol(MoveTo(cfg, maxSteps, g, Check(c)), maxSteps)
  {
    hide RInv, WellFormed;
    var g' := MoveTo(cfg, maxSteps, g, Check(c));
    PublishedOneMore(g, g', c, |g.pc|);
    assert Publishing(g', maxSteps);
  }

  lemma Release1Keeps(cfg: Config, maxSteps: int, g: Threads)
    requires Protocol(g, maxSteps) && CanMove(g, Release1)
    ensures Protocol(MoveTo(cfg, maxSteps, g, Release1), maxSteps)
  {
    hide RInv, WellFormed;
    RoundKeeps(cfg, g.r);
    assert g.pc[0].AtBarrier1?;
    if AllComplete(g.r.s) { PublishedAll(g, |g.pc|); }
    assert Working(MoveTo(cfg, maxSteps, g, Release1), maxSteps);
  }

  lemma MoveKeeps(cfg: Config, maxSteps: int, g: Threads, m: Move)
    requires ConfigOk(cfg) && Protocol(g, maxSteps) && CanMove(g, m)
    ensures Protocol(MoveTo(cfg, maxSteps, g, m), maxSteps)
  {
    hide Protocol, CanMove, MoveTo;
    match m
    case LoopTest(c) => LoopTestKeeps(cfg, maxSteps, g, c);
    case Body(st) => BodyKeeps(cfg, maxSteps, g, st);
    case LeaveBody(c) => LeaveBodyKeeps(cfg, maxSteps, g, c);
    case Reset(c) => ResetKeeps(cfg, maxSteps, g, c);
    case Release0 => Release0Keeps(cfg, maxSteps, g);
    case Check(c) => CheckKeeps(cfg, maxSteps, g, c);
    case Release1 => Release1Keeps(cfg, maxSteps, g);
  }

  lemma {:induction false} MovesKeep(cfg: Config, maxSteps: int, g: Threads, moves: seq<Move>, g': Threads)
    requires ConfigOk(cfg) && Protocol(g, maxSteps) && Leads(cfg, maxSteps, g, moves, g')
    ensures Protocol(g', maxSteps)
    decreases |moves|
  {
    hide Protocol, CanMove, MoveTo;
    if moves != [] {
      MoveKeeps(cfg, maxSteps, g, moves[0]);
      MovesKeep(cfg, maxSteps, MoveTo(cfg, maxSteps, g, moves[0]), moves[1..], g');
    }
  }

  // ---------------------------------------------------------------- what it means for the threads

  /** The threads when every CPU has made its first pick and step 0 is about to begin. */
  ghost predicate Launched(cfg: Config, ps: seq<Profile>, n: nat, boot: seq<Step>, g: Threads) {
    && RunFrom(cfg, ps, n, boot, g.r)
    && g == Threads(g.r, seq(n, _ => AtLoop), seq(n, _ => 0), 0)
    && g.r.now == 0 && forall c :: 0 <= c < |g.r.ph| ==> g.r.ph[c].Start?
  }

  lemma LaunchedOk(cfg: Config, maxSteps: int, ps: seq<Profile>, n: nat, boot: seq<Step>, g: Threads)
    requires Launched(cfg, ps, n, boot, g)
    ensures Protocol(g, maxSteps)
  {
    hide RInv, RunFrom, WellFormed;
    assert ConfigOk(cfg) && n >= 1 by { RunFromParts(cfg, ps, n, boot, g.r); }
    RunInv(cfg, ps, n, boot, g.r);
    InvShape(g.r);
    assert Working(g, maxSteps);
  }

  lemma RunFromParts(cfg: Config, ps: seq<Profile>, n: nat, steps: seq<Step>, r: RState)
    requires RunFrom(cfg, ps, n, steps, r)
    ensures ConfigOk(cfg) && n >= 1
  {
  }

  /** Termination agreement: when one thread has left the loop, every other one has left it too or is at its loop
      test in the same step and will find the condition false; no thread is at a barrier or in the loop body. */
  lemma ThreadsLeaveTogether(cfg: Config, maxSteps: int, ps: seq<Profile>, n: nat, boot: seq<Step>,
                             g: Threads, moves: seq<Move>, g': Threads, c: nat, d: nat)
    requires Launched(cfg, ps, n, boot, g) && Leads(cfg, maxSteps, g, moves, g')
    requires c < |g'.pc| && d < |g'.pc| && g'.pc[c].Exited?
    ensures d < |g'.step| && c < |g'.step| && g'.step[d] == g'.step[c]
    ensures g'.pc[d].Exited? || (g'.pc[d].AtLoop? && !Continues(g', d, maxSteps))
  {
    hide *;
    LaunchedOk(cfg, maxSteps, ps, n, boot, g);
    LaunchedConfig(cfg, ps, n, boot, g);
    MovesKeep(cfg, maxSteps, g, moves, g');
    OneHasLeft(g', maxSteps, c, d);
  }

  lemma OneHasLeft(g: Threads, maxSteps: int, c: nat, d: nat)
    requires Protocol(g, maxSteps) && c < |g.pc| && d < |g.pc| && g.pc[c].Exited?
    ensures d < |g.step| && c < |g.step| && g.step[d] == g.step[c]
    ensures g.pc[d].Exited? || (g.pc[d].AtLoop? && !Continues(g, d, maxSteps))
  {
    hide RInv, WellFormed, AllComplete;
  }

  /** Leaving the loop with the counter at nr_cpus: every run queue and event list is empty and every task has
      completed. */
  lemma CounterMeansComplete(cfg: Config, maxSteps: int, ps: seq<Profile>, n: nat, boot: seq<Step>,
                             g: Threads, moves: seq<Move>, g': Threads, c: nat)
    requires Launched(cfg, ps, n, boot, g) && Leads(cfg, maxSteps, g, moves, g')
    requires c < |g'.pc| && g'.pc[c].Exited? && g'.completed >= |g'.pc|
    ensures forall d :: 0 <= d < |g'.r.s.rqs| ==> g'.r.s.rqs[d].queue == [] && !Running(g'.r.s.tasks, g'.r.s.rqs[d].cur)
    ensures forall d :: 0 <= d < |g'.r.s.events| ==> g'.r.s.events[d] == []
    ensures forall x :: 0 <= x < |g'.r.s.tasks| ==> g'.r.s.tasks[x].state == Completed
  {
    LaunchedOk(cfg, maxSteps, ps, n, boot, g);
    assert Protocol(g', maxSteps) && AllComplete(g'.r.s) by {
      hide RInv, RunFrom, WellFormed, AllComplete, Leads;
      assert ConfigOk(cfg) by { RunFromParts(cfg, ps, n, boot, g.r); }
      MovesKeep(cfg, maxSteps, g, moves, g');
    }
    CompleteMeansFinished(g'.r);
  }

  lemma CompleteMeansFinished(r: RState)
    requires RInv(r) && WellFormed(r.s) && AllComplete(r.s)
    ensures forall d :: 0 <= d < |r.s.rqs| ==> r.s.rqs[d].queue == [] && !Running(r.s.tasks, r.s.rqs[d].cur)
    ensures forall d :: 0 <= d < |r.s.events| ==> r.s.events[d] == []
    ensures forall x :: 0 <= x < |r.s.tasks| ==> r.s.tasks[x].state == Completed
  {
    hide TaskOk, QueueOk, EventsOk, CurrentOk;
    forall d | 0 <= d < |r.s.rqs|
      ensures r.s.rqs[d].queue == [] && !Running(r.s.tasks, r.s.rqs[d].cur) && r.s.events[d] == []
    {
      assert HasCompleted(r.s, d) && CpuOk(r.s.tasks, r.s.rqs[d], r.s.events[d], d, r.now, r.ph[d]);
    }
    forall x | 0 <= x < |r.s.tasks| ensures r.s.tasks[x].state == Completed {
      var c := r.s.tasks[x].lastCpu;
      assert TaskOk(r.s.tasks[x]) && c < |r.s.rqs|;
      assert Placed(r.s.tasks[x], x, r.s.rqs[c], r.s.events[c]);
    }
  }

  /** A CPU has completed exactly if no unfinished task belongs to it. */
  lemma CompletedExactly(cfg: Config, ps: seq<Profile>, n: nat, steps: seq<Step>, r: RState, c: nat)
    requires RunFrom(cfg, ps, n, steps, r) && c < n
    ensures WellFormed(r.s) && |r.s.rqs| == n
    ensures HasCompleted(r.s, c) <==> forall x :: 0 <= x < |r.s.tasks| && r.s.tasks[x].lastCpu == c ==> r.s.tasks[x].state == Completed
  {
    RunInv(cfg, ps, n, steps, r);
    InvShape(r);
    hide RunFrom, TaskOk;
    CpuCompleted(r, c);
  }

  lemma CpuCompleted(r: RState, c: nat)
    requires RInv(r) && WellFormed(r.s) && c < |r.s.rqs|
    ensures HasCompleted(r.s, c) <==> forall x :: 0 <= x < |r.s.tasks| && r.s.tasks[x].lastCpu == c ==> r.s.tasks[x].state == Completed
  {
    hide TaskOk, End;
    var q, evs := r.s.rqs[c], r.s.events[c];
    assert CpuOk(r.s.tasks, q, evs, c, r.now, r.ph[c]);
    forall x | HasCompleted(r.s, c) && 0 <= x < |r.s.tasks| && r.s.tasks[x].lastCpu == c ensures r.s.tasks[x].state == Completed {
      assert Placed(r.s.tasks[x], x, q, evs);
    }
    assert q.queue != [] ==> QueuedOk(r.s.tasks[q.queue[0]], c, r.now);
    assert evs != [] ==> EventOk(r.s.tasks[evs[0].task], evs[0], c);
  }

  /** When all threads are at the loop test, from the second step on, the counter is full exactly if every CPU has
      completed. */
  lemma CounterTellsExactly(cfg: Config, maxSteps: int, ps: seq<Profile>, n: nat, boot: seq<Step>,
                            g: Threads, moves: seq<Move>, g': Threads)
    requires Launched(cfg, ps, n, boot, g) && Leads(cfg, maxSteps, g, moves, g')
    requires AllAtLoop(g') && g'.r.now >= 1
    ensures WellFormed(g'.r.s) && |g'.pc| >= 1
    ensures g'.completed >= |g'.pc| <==> forall c :: 0 <= c < |g'.r.s.rqs| ==> HasCompleted(g'.r.s, c)
  {
    hide *;
    LaunchedOk(cfg, maxSteps, ps, n, boot, g);
    LaunchedConfig(cfg, ps, n, boot, g);
    MovesKeep(cfg, maxSteps, g, moves, g');
    CounterAtLoop(g', maxSteps);
  }

  lemma CounterAtLoop(g: Threads, maxSteps: int)
    requires Protocol(g, maxSteps) && AllAtLoop(g) && g.r.now >= 1
    ensures WellFormed(g.r.s) && |g.pc| >= 1
    ensures g.completed >= |g.pc| <==> forall c :: 0 <= c < |g.r.s.rqs| ==> HasCompleted(g.r.s, c)
  {
    hide RInv, WellFormed, HasCompleted;
    assert g.pc[0].AtLoop?;
  }

  /** All threads are at the loop test or out of the loop, and the counter is full. */
  ghost predicate Over(g: Threads, r: RState) {
    g.r == r && g.completed >= |g.pc| >= 1 && forall c :: 0 <= c < |g.pc| ==> g.pc[c].AtLoop? || g.pc[c].Exited?
  }

  lemma {:induction false} StaysOver(cfg: Config, maxSteps: int, g: Threads, r: RState, moves: seq<Move>, g': Threads)
    requires Over(g, r) && Leads(cfg, maxSteps, g, moves, g')
    ensures Over(g', r)
    decreases |moves|
  {
    hide WellFormed, Enabled, Apply;
    if moves != [] {
      OverStep(cfg, maxSteps, g, r, moves[0]);
      StaysOver(cfg, maxSteps, MoveTo(cfg, maxSteps, g, moves[0]), r, moves[1..], g');
    }
  }

  lemma OverStep(cfg: Config, maxSteps: int, g: Threads, r: RState, m: Move)
    requires Over(g, r) && CanMove(g, m)
    ensures Over(MoveTo(cfg, maxSteps, g, m), r)
  {
    hide WellFormed, Enabled, Apply;
    assert g.pc[0].AtLoop? || g.pc[0].Exited?;
  }

  /** The simulation stops when it is complete: if every CPU has completed when all threads are at the loop test, from the
      second step on, then no thread enters the loop body again, and nothing changes any more. */
  lemma StopsWhenComplete(cfg: Config, maxSteps: int, ps: seq<Profile>, n: nat, boot: seq<Step>, g: Threads,
                          moves: seq<Move>, g1: Threads, more: seq<Move>, g2: Threads, c: nat)
    requires Launched(cfg, ps, n, boot, g) && Leads(cfg, maxSteps, g, moves, g1) && Leads(cfg, maxSteps, g1, more, g2)
    requires AllAtLoop(g1) && g1.r.now >= 1 && WellFormed(g1.r.s) && forall d :: 0 <= d < |g1.r.s.rqs| ==> HasCompleted(g1.r.s, d)
    ensures g2.r == g1.r && (c < |g2.pc| ==> g2.pc[c].AtLoop? || g2.pc[c].Exited?)
  {
    CounterTellsExactly(cfg, maxSteps, ps, n, boot, g, moves, g1);
    hide RInv, RunFrom, WellFormed, Leads, HasCompleted, Launched;
    StaysOver(cfg, maxSteps, g1, g1.r, more, g2);
  }

  /** A move that some thread can make inside the loop body. */
  function NextSection(r: RState, c: nat): Step
    requires WellFormed(r.s) && c < |r.ph| == |r.s.rqs|
  {
    match r.ph[c]
    case Start => TickStep(c)
    case Ticked => if HasDue(r.s, c, r.now + 1) then FireStep(c) else EventsOver(c)
    case Fired => BalanceBegin(c)
    case Balancing(k) => if k < MAX_TRIALS then BalanceTrial(c, seq(|r.ph|, _ => 0)) else BalanceEnd(c)
    case _ => ScheduleStep(c)
  }

  /** No thread is stranded: until all threads have left the loop, some thread can move. */
  lemma SomeThreadMoves(cfg: Config, maxSteps: int, ps: seq<Profile>, n: nat, boot: seq<Step>,
                        g: Threads, moves: seq<Move>, g': Threads) returns (m: Move)
    requires Launched(cfg, ps, n, boot, g) && Leads(cfg, maxSteps, g, moves, g')
    requires exists c :: 0 <= c < |g'.pc| && !g'.pc[c].Exited?
    ensures CanMove(g', m)
  {
    hide *;
    LaunchedOk(cfg, maxSteps, ps, n, boot, g);
    assert ConfigOk(cfg) by { LaunchedConfig(cfg, ps, n, boot, g); }
    MovesKeep(cfg, maxSteps, g, moves, g');
    m := MoveOf(g', maxSteps);
  }

  lemma LaunchedConfig(cfg: Config, ps: seq<Profile>, n: nat, boot: seq<Step>, g: Threads)
    requires Launched(cfg, ps, n, boot, g)
    ensures ConfigOk(cfg)
  {
    hide RInv, RunFrom, WellFormed;
    RunFromParts(cfg, ps, n, boot, g.r);
  }

  lemma MoveOf(g: Threads, maxSteps: int) returns (m: Move)
    requires Protocol(g, maxSteps) && exists c :: 0 <= c < |g.pc| && !g.pc[c].Exited?
    ensures CanMove(g, m)
  {
    hide RInv, WellFormed, AllComplete, NextSection, Enabled;
    if c :| 0 <= c < |g.pc| && g.pc[c].AtLoop? {
      m := LoopTest(c);
    } else if c :| 0 <= c < |g.pc| && g.pc[c].InBody? {
      m := BodyMove(g, c);
    } else if c :| 0 <= c < |g.pc| && g.pc[c].AtReset? {
      m := Reset(c);
    } else if c :| 0 <= c < |g.pc| && g.pc[c].AtCheck? {
      m := Check(c);
    } else if g.pc[0].AtBarrier0? {
      m := Release0;
    } else {
      m := Release1;
    }
  }

  lemma BodyMove(g: Threads, c: nat) returns (m: Move)
    requires Shape(g) && c < |g.pc| && g.pc[c].InBody? && g.r.now >= 0
    ensures CanMove(g, m)
  {
    m := if g.r.ph[c].Done? then LeaveBody(c) else Body(NextSection(g.r, c));
  }
}
