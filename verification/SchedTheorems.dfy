/** What holds in every run of the simulator, from any task file, with any number of CPUs, any scheduling class
    and any interleaving of the CPU threads. */
module SchedTheorems {
  import opened Basics
  import opened SchedTypes
  import opened SchedSteps
  import opened SchedClocks
  import opened SchedInvariant
  import opened SchedKeeps
  import opened SchedBalance
  import opened SchedRuns
  import opened Sequences

  /** A line of the task file. */
  datatype Profile = Profile(prio: int, arrival: nat, phases: seq<int>)

  ghost predicate ProfilesOk(ps: seq<Profile>) {
    forall i :: 0 <= i < |ps| ==>
      1 <= |ps[i].phases| <= MAX_EXEC_PHASES && forall k :: 0 <= k < |ps[i].phases| ==> ps[i].phases[k] >= 1
  }

  /** A task as `sched_start` leaves it: zero-initialised, assigned to the CPUs in turn. */
  function Loaded(cfg: Config, p: Profile, i: nat, n: nat): Task
    requires n >= 1
  {
    Task(p.prio, p.arrival, p.phases, 0, Starting, i % n, 0, 0, false, false,
         if Sliced(cfg.policy) then Quantum(cfg) else 0, 0, 0, 0, [])
  }

  function LoadTasks(cfg: Config, ps: seq<Profile>, n: nat): (r: seq<Task>)
    requires n >= 1
    ensures |r| == |ps|
  {
    seq(|ps|, i requires 0 <= i < |ps| => Loaded(cfg, ps[i], i, n))
  }

  /** The arrival events of CPU c for the first k tasks, inserted one by one. */
  function Arrivals(ps: seq<Profile>, n: nat, c: nat, k: nat): (r: seq<Event>)
    requires n >= 1 && k <= |ps|
    ensures EventsInRange(r, k)
  {
    if k == 0 then []
    else
      var evs := Arrivals(ps, n, c, k - 1);
      if (k - 1) % n != c then evs
      else
        InsertEventInRange(evs, Event(k - 1, NewTask, ps[k - 1].arrival), k);
        InsertEvent(evs, Event(k - 1, NewTask, ps[k - 1].arrival))
  }

  function BootSys(cfg: Config, ps: seq<Profile>, n: nat): Sys
    requires n >= 1
  {
    Sys(LoadTasks(cfg, ps, n),
        seq(n, c requires 0 <= c < n => Rq([], None, false, 0, c % n)),
        seq(n, c requires 0 <= c < n => Arrivals(ps, n, c, |ps|)),
        false)
  }

  /** The state in which the CPU threads start. */
  function Boot(cfg: Config, ps: seq<Profile>, n: nat): RState
    requires n >= 1
  {
    RState(BootSys(cfg, ps, n), -1, seq(n, _ => Ticked), map[])
  }

  lemma {:induction false} ArrivalsOk(cfg: Config, ps: seq<Profile>, n: nat, c: nat, k: nat)
    requires n >= 1 && k <= |ps| && c < n
    ensures EventsOk(LoadTasks(cfg, ps, n), Arrivals(ps, n, c, k), c, -1, Ticked)
    ensures forall y: nat :: HasEvent(Arrivals(ps, n, c, k), y) <==> y < k && y % n == c
  {
    hide InsertEvent, EventsInRange, EventsOk;
    if k == 0 {
      EmptyEventsOk(LoadTasks(cfg, ps, n), c);
    } else {
      ArrivalsOk(cfg, ps, n, c, k - 1);
      if (k - 1) % n == c {
        var tasks := LoadTasks(cfg, ps, n);
        var evs := Arrivals(ps, n, c, k - 1);
        var e := Event(k - 1, NewTask, ps[k - 1].arrival);
        assert forall i :: 0 <= i < |evs| ==> HasEvent(evs, evs[i].task);
        InsertEventOk(tasks, tasks, evs, e, c, -1, Ticked, Ticked);
        forall y: nat ensures HasEvent(InsertEvent(evs, e), y) <==> y < k && y % n == c {
          InsertEventHas(evs, e, y);
        }
      }
    }
  }

  lemma EmptyEventsOk(tasks: seq<Task>, c: nat)
    ensures EventsOk(tasks, [], c, -1, Ticked)
  {
  }

  lemma BootInv(cfg: Config, ps: seq<Profile>, n: nat)
    requires n >= 1 && ProfilesOk(ps)
    ensures RInv(Boot(cfg, ps, n))
  {
    hide EventsOk, InsertEvent;
    var r := Boot(cfg, ps, n);
    forall x | 0 <= x < |ps| ensures TaskOk(r.s.tasks[x]) && r.s.tasks[x].lastCpu < n {
      assert r.s.tasks[x] == Loaded(cfg, ps[x], x, n);
    }
    forall c | 0 <= c < n ensures CpuOk(r.s.tasks, r.s.rqs[c], r.s.events[c], c, -1, r.ph[c]) {
      ArrivalsOk(cfg, ps, n, c, |ps|);
    }
    forall x | 0 <= x < |ps|
      ensures Placed(r.s.tasks[x], x, r.s.rqs[r.s.tasks[x].lastCpu], r.s.events[r.s.tasks[x].lastCpu])
    {
      ArrivalsOk(cfg, ps, n, x % n, |ps|);
    }
  }

  ghost predicate RunFrom(cfg: Config, ps: seq<Profile>, n: nat, steps: seq<Step>, r: RState) {
    ConfigOk(cfg) && n >= 1 && ProfilesOk(ps) && Reaches(cfg, Boot(cfg, ps, n), steps, r)
  }

  lemma RunInv(cfg: Config, ps: seq<Profile>, n: nat, steps: seq<Step>, r: RState)
    requires RunFrom(cfg, ps, n, steps, r)
    ensures RInv(r) && |r.s.tasks| == |ps| && |r.s.rqs| == n
    ensures forall x :: 0 <= x < |ps| ==>
      r.s.tasks[x].phases == ps[x].phases && r.s.tasks[x].arrival == ps[x].arrival && r.s.tasks[x].prio == ps[x].prio
  {
    hide Reaches, RInv;
    BootInv(cfg, ps, n);
    RunKeeps(cfg, Boot(cfg, ps, n), steps, r);
    assert forall x :: 0 <= x < |ps| ==> SameProfile(BootSys(cfg, ps, n).tasks[x], r.s.tasks[x]);
  }

  /** Exact time accounting: whatever the interleaving and however often it migrated, a completed task's real
      time is the time from its arrival to its completion, and splits into its CPU phases, its I/O phases and
      the time it was ready. */
  lemma TimesAddUp(cfg: Config, ps: seq<Profile>, n: nat, steps: seq<Step>, r: RState, x: nat)
    requires RunFrom(cfg, ps, n, steps, r) && x < |ps| == |r.s.tasks| && r.s.tasks[x].state == Completed
    ensures x in r.doneAt
    ensures var t := r.s.tasks[x];
      && t.realTime == r.doneAt[x] - ps[x].arrival
      && t.realTime == t.userTime + t.sysTime + Logged(t.regs, Runnable)
      && t.userTime == Work(ps[x].phases, |ps[x].phases|, false)
      && t.sysTime == Work(ps[x].phases, |ps[x].phases|, true)
  {
    RunInv(cfg, ps, n, steps, r);
    assert TaskOk(r.s.tasks[x]);
    CompletedTimes(r.s.tasks[x]);
  }

  /** The log registers of a completed task tile [arrival, completion): every instant is in exactly one. */
  lemma LogTilesLifetime(cfg: Config, ps: seq<Profile>, n: nat, steps: seq<Step>, r: RState, x: nat, when: int)
    requires RunFrom(cfg, ps, n, steps, r) && x < |ps| && x in r.doneAt
    ensures |r.s.tasks| == |ps|
    ensures (exists i :: Covers(r.s.tasks[x].regs, i, when)) <==> ps[x].arrival <= when < r.doneAt[x]
    ensures forall i, j :: Covers(r.s.tasks[x].regs, i, when) && Covers(r.s.tasks[x].regs, j, when) ==> i == j
  {
    RunInv(cfg, ps, n, steps, r);
    var t := r.s.tasks[x];
    assert TaskOk(t) && End(t) == r.doneAt[x];
    TilesCover(t.regs, t.arrival, when);
  }

  datatype Place = InQueue(cpu: nat) | OnCpu(cpu: nat) | InEvents(cpu: nat)

  ghost predicate At(s: Sys, x: nat, p: Place) {
    && p.cpu < |s.rqs| && p.cpu < |s.events|
    && match p
       case InQueue(c) => x in s.rqs[c].queue
       case OnCpu(c) => s.rqs[c].cur == Some(x) && Running(s.tasks, s.rqs[c].cur)
       case InEvents(c) => HasEvent(s.events[c], x)
  }

  /** Task conservation: an unfinished task is in exactly one event list, one run queue or on one processor, once;
      a completed one is nowhere; and the counter of each CPU counts its queue and its running task. */
  lemma TasksConserved(cfg: Config, ps: seq<Profile>, n: nat, steps: seq<Step>, r: RState, x: nat)
    requires RunFrom(cfg, ps, n, steps, r) && x < |ps|
    ensures |r.s.tasks| == |ps|
    ensures (exists p :: At(r.s, x, p)) <==> r.s.tasks[x].state != Completed
    ensures forall p, p' :: At(r.s, x, p) && At(r.s, x, p') ==> p == p'
    ensures |r.s.rqs| == |r.s.events| == n
    ensures forall c :: 0 <= c < n ==>
      && NoDup(r.s.rqs[c].queue)
      && (forall i, j :: 0 <= i < j < |r.s.events[c]| ==> r.s.events[c][i].task != r.s.events[c][j].task)
      && r.s.rqs[c].nrRunnable == |r.s.rqs[c].queue| + (if Running(r.s.tasks, r.s.rqs[c].cur) then 1 else 0)
  {
    RunInv(cfg, ps, n, steps, r);
    var t := r.s.tasks[x];
    forall c | 0 <= c < n ensures CpuOk(r.s.tasks, r.s.rqs[c], r.s.events[c], c, r.now, r.ph[c]) {
    }
    assert t.lastCpu < n && Placed(t, x, r.s.rqs[t.lastCpu], r.s.events[t.lastCpu]);
    forall p | At(r.s, x, p)
      ensures p.cpu == t.lastCpu
      ensures match t.state case Runnable => p.InQueue? case OnProc => p.OnCpu? case Completed => false case _ => p.InEvents?
    {
      PlaceFits(r.s.tasks, r.s.rqs[p.cpu], r.s.events[p.cpu], r.s, r.now, r.ph[p.cpu], x, p);
    }
    match t.state
    case Runnable => assert At(r.s, x, InQueue(t.lastCpu));
    case OnProc => assert At(r.s, x, OnCpu(t.lastCpu));
    case Starting => assert At(r.s, x, InEvents(t.lastCpu));
    case Sleep => assert At(r.s, x, InEvents(t.lastCpu));
    case Completed =>
  }

  lemma PlaceFits(tasks: seq<Task>, q: Rq, evs: seq<Event>, s: Sys, now: int, ph: Phase, x: nat, p: Place)
    requires s.tasks == tasks && x < |tasks| && At(s, x, p) && q == s.rqs[p.cpu] && evs == s.events[p.cpu]
    requires CpuOk(tasks, q, evs, p.cpu, now, ph)
    ensures tasks[x].lastCpu == p.cpu
    ensures match tasks[x].state
      case Runnable => p.InQueue? case OnProc => p.OnCpu? case Completed => false case _ => p.InEvents?
  {
    match p
    case InQueue(c) =>
      var i :| 0 <= i < |q.queue| && q.queue[i] == x;
      assert QueuedOk(tasks[q.queue[i]], c, now);
    case OnCpu(c) =>
      assert CurrentOk(tasks[x], q, c, now, ph);
    case InEvents(c) =>
      var i :| 0 <= i < |evs| && evs[i].task == x;
      assert EventOk(tasks[x], evs[i], c);
  }

  /** No wake-up is lost: the pending events of a CPU are sorted and all lie after the last step it has
      processed, so that each fires exactly at its timeout, and no run ends in a critical error or follows a
      null task; a task is in a CPU phase while it is runnable and in an I/O phase while it sleeps. */
  lemma NoWakeUpLost(cfg: Config, ps: seq<Profile>, n: nat, steps: seq<Step>, r: RState, c: nat)
    requires RunFrom(cfg, ps, n, steps, r) && c < n
    ensures !r.s.aborted && |r.s.events| == |r.ph| == n && |r.s.tasks| == |ps|
    ensures forall i, j :: 0 <= i < j < |r.s.events[c]| ==> r.s.events[c][i].timeout <= r.s.events[c][j].timeout
    ensures forall i :: 0 <= i < |r.s.events[c]| ==>
      && r.s.events[c][i].timeout > (if EventsDone(r.ph[c]) then r.now + 1 else r.now)
      && r.s.events[c][i].task < |ps|
      && var t := r.s.tasks[r.s.events[c][i].task];
         r.s.events[c][i].timeout == (if r.s.events[c][i].kind.NewTask? then t.arrival else End(t))
    ensures forall x :: 0 <= x < |ps| ==>
      && (r.s.tasks[x].state == Runnable || r.s.tasks[x].state == OnProc ==> !PhaseIsIo(r.s.tasks[x].curPhase))
      && (r.s.tasks[x].state == Sleep ==> PhaseIsIo(r.s.tasks[x].curPhase))
  {
    RunInv(cfg, ps, n, steps, r);
    assert CpuOk(r.s.tasks, r.s.rqs[c], r.s.events[c], c, r.now, r.ph[c]);
    var evs := r.s.events[c];
    forall i, j | 0 <= i < j < |evs| ensures evs[i].timeout <= evs[j].timeout {
      assert Timeouts(evs)[i] <= Timeouts(evs)[j];
    }
    forall i | 0 <= i < |evs| ensures evs[i].kind.NewTask? ==> End(r.s.tasks[evs[i].task]) == r.s.tasks[evs[i].task].arrival {
      assert EventOk(r.s.tasks[evs[i].task], evs[i], c) && TaskOk(r.s.tasks[evs[i].task]);
    }
    forall x | 0 <= x < |ps|
      ensures r.s.tasks[x].state == Runnable || r.s.tasks[x].state == OnProc ==> !PhaseIsIo(r.s.tasks[x].curPhase)
      ensures r.s.tasks[x].state == Sleep ==> PhaseIsIo(r.s.tasks[x].curPhase)
    {
      assert TaskOk(r.s.tasks[x]);
    }
  }

  /** With several CPUs, the next balancing of a CPU never falls behind the current step. */
  lemma BalancingOnTime(cfg: Config, ps: seq<Profile>, n: nat, steps: seq<Step>, r: RState, c: nat)
    requires RunFrom(cfg, ps, n, steps, r) && c < n && n > 1
    ensures |r.ph| == |r.s.rqs| == n && r.s.rqs[c].nextLb >= r.now
    ensures r.ph[c].Balanced? || r.ph[c].Done? ==> r.s.rqs[c].nextLb > r.now
  {
    RunInv(cfg, ps, n, steps, r);
    assert BalanceOk(r.s.rqs[c], r.now, r.ph[c]);
  }

  /** Balancing under stale reads: whatever loads a trial has seen, it either changes nothing or moves one task,
      conserving the total load and strictly decreasing the sum of the squared loads. */
  lemma TrialMakesProgress(cfg: Config, ps: seq<Profile>, n: nat, steps: seq<Step>, r: RState, c: nat, loads: seq<nat>)
    requires RunFrom(cfg, ps, n, steps, r) && Enabled(r, BalanceTrial(c, loads))
    ensures var s' := Apply(cfg, r, BalanceTrial(c, loads)).s;
      || s' == r.s
      || (Sum(Loads(s')) == Sum(Loads(r.s)) && Sum(Squares(Loads(s'))) < Sum(Squares(Loads(r.s))))
  {
    RunInv(cfg, ps, n, steps, r);
    SysLengths(r);
    hide RInv, Rebalance, Loads, Squares, Sum, SysOk;
    assert SysOk(r.s, r.now, r.ph) by { InvSys(r); }
    RemoteIsNotLocal(loads, c);
    match Choose(loads, c)
    case PushTo(d) => RebalanceProgress(cfg, r.s, r.now, r.ph, c, d);
    case PullFrom(d) => RebalanceProgress(cfg, r.s, r.now, r.ph, d, c);
    case _ =>
  }

  lemma InvSys(r: RState)
    requires RInv(r)
    ensures SysOk(r.s, r.now, r.ph)
  {
  }

  // ---------------------------------------------------------------- the order of events and the start

  /** A new event goes behind all that are due no later than it, and ahead of all that are due later. */
  lemma EventPlaced(evs: seq<Event>, e: Event) returns (p: nat)
    requires Ordered(Timeouts(evs), true)
    ensures p <= |evs| && InsertEvent(evs, e) == evs[..p] + [e] + evs[p..]
    ensures forall i :: 0 <= i < |evs| ==> (i < p <==> evs[i].timeout <= e.timeout)
  {
    hide InsertPos;
    var times := Timeouts(evs);
    p := InsertPos(times, e.timeout, true, false);
    forall i | 0 <= i < |evs| ensures i < p <==> evs[i].timeout <= e.timeout {
      assert times[i] == evs[i].timeout;
      if i < p { assert !StopsAt(times[i], e.timeout, true, false); } else { assert times[p] <= times[i]; }
    }
  }

  predicate Before(e: Event, f: Event) {
    e.timeout < f.timeout || (e.timeout == f.timeout && e.task < f.task)
  }

  ghost predicate InFileOrder(evs: seq<Event>) {
    forall i, j :: 0 <= i < j < |evs| ==> Before(evs[i], evs[j])
  }

  function ArrivalOf(ps: seq<Profile>, x: nat): Event
    requires x < |ps|
  {
    Event(x, NewTask, ps[x].arrival)
  }

  ghost predicate OnlyArrivals(ps: seq<Profile>, evs: seq<Event>, n: nat, c: nat, k: nat)
    requires n >= 1 && k <= |ps|
  {
    forall i :: 0 <= i < |evs| ==> evs[i].task < k && evs[i].task % n == c && evs[i] == ArrivalOf(ps, evs[i].task)
  }

  ghost predicate AllArrivals(ps: seq<Profile>, evs: seq<Event>, n: nat, c: nat, k: nat)
    requires n >= 1 && k <= |ps|
  {
    forall x: nat :: x < k && x % n == c ==> ArrivalOf(ps, x) in evs
  }

  lemma InsertedAt(evs: seq<Event>, e: Event, p: nat)
    requires p <= |evs|
    ensures var r := evs[..p] + [e] + evs[p..];
      && |r| == |evs| + 1 && (forall i :: 0 <= i < |r| ==> r[i] == if i < p then evs[i] else if i == p then e else evs[i - 1])
      && (forall f :: f in r <==> f == e || f in evs)
  {
    var r := evs[..p] + [e] + evs[p..];
    forall i | 0 <= i < |evs| ensures evs[i] == r[if i < p then i else i + 1] {}
  }

  /** The arrivals of a CPU: in the order of their times, and those of the same time in the order of the task file. */
  lemma {:induction false} ArrivalOrder(ps: seq<Profile>, n: nat, c: nat, k: nat)
    requires n >= 1 && k <= |ps|
    ensures var evs := Arrivals(ps, n, c, k);
      InFileOrder(evs) && OnlyArrivals(ps, evs, n, c, k) && AllArrivals(ps, evs, n, c, k)
  {
    if k > 0 {
      ArrivalOrder(ps, n, c, k - 1);
      var evs := Arrivals(ps, n, c, k - 1);
      if (k - 1) % n == c {
        ArrivalInserted(ps, evs, n, c, k);
      } else {
        OtherArrival(ps, evs, n, c, k);
      }
    }
  }

  lemma OtherArrival(ps: seq<Profile>, evs: seq<Event>, n: nat, c: nat, k: nat)
    requires n >= 1 && 0 < k <= |ps| && (k - 1) % n != c
    requires OnlyArrivals(ps, evs, n, c, k - 1) && AllArrivals(ps, evs, n, c, k - 1)
    ensures OnlyArrivals(ps, evs, n, c, k) && AllArrivals(ps, evs, n, c, k)
  {
  }

  lemma ArrivalInserted(ps: seq<Profile>, evs: seq<Event>, n: nat, c: nat, k: nat)
    requires n >= 1 && 0 < k <= |ps| && (k - 1) % n == c
    requires InFileOrder(evs) && OnlyArrivals(ps, evs, n, c, k - 1) && AllArrivals(ps, evs, n, c, k - 1)
    ensures var r := InsertEvent(evs, ArrivalOf(ps, k - 1));
      InFileOrder(r) && OnlyArrivals(ps, r, n, c, k) && AllArrivals(ps, r, n, c, k)
  {
    hide InsertEvent;
    var e := ArrivalOf(ps, k - 1);
    assert Ordered(Timeouts(evs), true) by { FileOrderSorted(evs); }
    var p := EventPlaced(evs, e);
    InsertedAt(evs, e, p);
    var r := InsertEvent(evs, e);
    forall i, j | 0 <= i < j < |r| ensures Before(r[i], r[j]) {
      if i != p && j != p { assert Before(evs[if i < p then i else i - 1], evs[if j < p then j else j - 1]); }
    }
  }

  lemma FileOrderSorted(evs: seq<Event>)
    requires InFileOrder(evs)
    ensures Ordered(Timeouts(evs), true)
  {
    var times := Timeouts(evs);
    forall i, j | 0 <= i < j < |times| ensures times[i] <= times[j] { assert Before(evs[i], evs[j]); }
  }

  /** How a simulation starts: task x belongs to CPU x mod n and has not started; its arrival, and nothing else, is on the
      event list of that CPU; nothing is queued or running, and CPU c balances first at step c. */
  lemma BootIs(cfg: Config, ps: seq<Profile>, n: nat, x: nat, c: nat)
    requires n >= 1 && x < |ps| && c < n
    ensures var s := Boot(cfg, ps, n).s; var t := s.tasks[x]; var evs := s.events[c];
      && |s.tasks| == |ps| && |s.rqs| == |s.events| == n && !s.aborted
      && t.lastCpu == x % n && t.state.Starting? && !t.onRq && !t.insertFront && t.regs == []
      && t.prio == ps[x].prio && t.arrival == ps[x].arrival && t.phases == ps[x].phases
      && s.rqs[c] == Rq([], None, false, 0, c)
      && (Event(x, NewTask, ps[x].arrival) in evs <==> x % n == c)
      && (forall i :: 0 <= i < |evs| ==> evs[i].kind.NewTask? && evs[i].task < |ps| && evs[i].timeout == ps[evs[i].task].arrival)
      && (forall i, j :: 0 <= i < j < |evs| ==>
            evs[i].timeout < evs[j].timeout || (evs[i].timeout == evs[j].timeout && evs[i].task < evs[j].task))
  {
    hide Arrivals;
    ArrivalOrder(ps, n, c, |ps|);
    var evs := Boot(cfg, ps, n).s.events[c];
    assert evs == Arrivals(ps, n, c, |ps|);
    SmallMod(c, n);
    forall i, j | 0 <= i < j < |evs|
      ensures evs[i].timeout < evs[j].timeout || (evs[i].timeout == evs[j].timeout && evs[i].task < evs[j].task)
    {
      assert Before(evs[i], evs[j]);
    }
    assert x % n == c ==> ArrivalOf(ps, x) in evs;
  }

  lemma SmallMod(c: nat, n: nat)
    requires c < n
    ensures c % n == c
  {
  }
}
