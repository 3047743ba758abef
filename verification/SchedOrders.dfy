/** What the orders of the sorted classes mean for the fields of the tasks, class by class. */
module SchedOrders {
  import opened Basics
  import opened SchedTypes
  import opened SchedSteps
  import opened SchedInvariant
  import opened SchedRuns
  import opened SchedTheorems
  import opened SchedPreempt

  /** In every run the queues are in order: under SJF by the ticks left, the fewest first; under PRIO by the priority, the
      smallest first; under TJF and TJFEX by the ticks left, the most first. */
  lemma QueuesInOrder(cfg: Config, ps: seq<Profile>, n: nat, steps: seq<Step>, r: RState, c: nat, i: nat, j: nat)
    requires RunFrom(cfg, ps, n, steps, r) && c < n
    ensures |r.s.rqs| == n && RqInRange(r.s.rqs[c], |r.s.tasks|)
    ensures var q := r.s.rqs[c].queue; i < j < |q| ==>
      && (cfg.policy.Sjf? ==> r.s.tasks[q[i]].ticksLeft <= r.s.tasks[q[j]].ticksLeft)
      && (cfg.policy.Prio? ==> r.s.tasks[q[i]].prio <= r.s.tasks[q[j]].prio)
      && (cfg.policy.Tjf? || cfg.policy.TjfEx? ==> r.s.tasks[q[i]].ticksLeft >= r.s.tasks[q[j]].ticksLeft)
  {
    RunInv(cfg, ps, n, steps, r);
    InvWellFormed(r.s, r.now, r.ph);
    hide RunFrom, RInv, SysOk;
    if SortedClass(cfg.policy) { NoBetterTaskWaits(cfg, ps, n, steps, r, c); }
  }

  /** In every run of preemptive SJF and PRIO, at every point where no reschedule is pending, no waiting task has fewer ticks
      left, or a smaller priority, than the running one. */
  lemma NoneWaitsUnnoticed(cfg: Config, ps: seq<Profile>, n: nat, steps: seq<Step>, r: RState, c: nat, i: nat)
    requires RunFrom(cfg, ps, n, steps, r) && c < n && cfg.preemptive
    ensures |r.s.rqs| == n && RqInRange(r.s.rqs[c], |r.s.tasks|)
    ensures var q := r.s.rqs[c];
      !q.needResched && Running(r.s.tasks, q.cur) && i < |q.queue| ==>
        && (cfg.policy.Sjf? ==> r.s.tasks[q.cur.value].ticksLeft <= r.s.tasks[q.queue[i]].ticksLeft)
        && (cfg.policy.Prio? ==> r.s.tasks[q.cur.value].prio <= r.s.tasks[q.queue[i]].prio)
  {
    RunInv(cfg, ps, n, steps, r);
    InvWellFormed(r.s, r.now, r.ph);
    hide RunFrom, RInv, SysOk;
    if SortedClass(cfg.policy) { NoBetterTaskWaits(cfg, ps, n, steps, r, c); }
  }

  /** In every run: after a requested `schedule` a task waits only if another one runs, which under SJF has at most its ticks,
      under PRIO at most its priority, and under TJF and TJFEX at least its ticks. */
  lemma FirstRunsAfterSchedule(cfg: Config, ps: seq<Profile>, n: nat, steps: seq<Step>, r: RState, c: nat, i: nat)
    requires RunFrom(cfg, ps, n, steps, r) && SortedClass(cfg.policy) && Enabled(r, ScheduleStep(c)) && r.s.rqs[c].needResched
    ensures var s' := Apply(cfg, r, ScheduleStep(c)).s; var q := s'.rqs[c];
      RqInRange(q, |s'.tasks|)
      && (i < |q.queue| ==>
            && q.cur.Some?
            && (cfg.policy.Sjf? ==> s'.tasks[q.cur.value].ticksLeft <= s'.tasks[q.queue[i]].ticksLeft)
            && (cfg.policy.Prio? ==> s'.tasks[q.cur.value].prio <= s'.tasks[q.queue[i]].prio)
            && (cfg.policy.Tjf? || cfg.policy.TjfEx? ==> s'.tasks[q.cur.value].ticksLeft >= s'.tasks[q.queue[i]].ticksLeft))
  {
    hide RunFrom, Schedule, Stamp;
    BestRunsAfterSchedule(cfg, ps, n, steps, r, c);
    assert BestIsCurrent(cfg.policy, Schedule(cfg, r.s, c, r.now).tasks, Schedule(cfg, r.s, c, r.now).rqs[c]);
  }

  /** In every run: a requested `schedule` takes the processor from the running task exactly if some task waits and the first
      one that does has fewer ticks left (SJF), a smaller priority (PRIO) or more ticks left (TJF, TJFEX) than the running
      one, or as many and the running task does not have the flag. */
  lemma WhoYields(cfg: Config, ps: seq<Profile>, n: nat, steps: seq<Step>, r: RState, c: nat)
    requires RunFrom(cfg, ps, n, steps, r) && SortedClass(cfg.policy) && Enabled(r, ScheduleStep(c))
    requires r.s.rqs[c].needResched && Running(r.s.tasks, r.s.rqs[c].cur)
    ensures RqInRange(r.s.rqs[c], |r.s.tasks|)
    ensures var q, q' := r.s.rqs[c], Apply(cfg, r, ScheduleStep(c)).s.rqs[c];
      if q.queue == [] then q'.cur == q.cur
      else
        var t, first := r.s.tasks[q.cur.value], r.s.tasks[q.queue[0]];
        && (q'.cur == q.cur || q'.cur == Some(q.queue[0]))
        && (cfg.policy.Sjf? ==> (q'.cur != q.cur <==> first.ticksLeft < t.ticksLeft || (first.ticksLeft == t.ticksLeft && !t.insertFront)))
        && (cfg.policy.Prio? ==> (q'.cur != q.cur <==> first.prio < t.prio || (first.prio == t.prio && !t.insertFront)))
        && (cfg.policy.Tjf? || cfg.policy.TjfEx? ==>
              (q'.cur != q.cur <==> first.ticksLeft > t.ticksLeft || (first.ticksLeft == t.ticksLeft && !t.insertFront)))
  {
    hide RunFrom, Schedule, Stamp;
    RequestOutcome(cfg, ps, n, steps, r, c);
  }

  /** The preemption test of each class, on a task x that is put on the queue of CPU c and not by `schedule`: a reschedule is
      requested if and only if the class is preemptive and x has a smaller priority (PRIO) or fewer ticks left (SJF, TJF and
      TJFEX) than the current task, the idle task having priority 0 and no ticks; RR and FCFS never request one. The current
      task is flagged in exactly these cases. */
  lemma WhenPreempted(cfg: Config, s: Sys, x: nat, c: nat)
    requires WellFormed(s) && x < |s.tasks| && c < |s.rqs| && !s.tasks[x].onRq && s.rqs[c].cur != Some(x)
    ensures var s' := DoEnqueue(cfg, s, x, c, false);
      var t, cur := s.tasks[x], s.rqs[c].cur;
      var better :=
        match cfg.policy
        case Rr => false
        case Fcfs => false
        case Prio => t.prio < (if cur.None? then 0 else s.tasks[cur.value].prio)
        case _ => t.ticksLeft < (if cur.None? then 0 else s.tasks[cur.value].ticksLeft);
      && (s'.rqs[c].needResched <==> s.rqs[c].needResched || (cfg.preemptive && better))
      && (cur.Some? ==> (s'.tasks[cur.value].insertFront <==> s.tasks[cur.value].insertFront || (cfg.preemptive && better)))
  {
    hide EventsInRange, QueueKeys, QueuePos;
  }
}
