/** The invariant that every lock-protected section keeps: where each task is, what the redundant
    counter counts, which events are pending, and how far each task's clocks have got. */
module SchedInvariant {
  import opened Basics
  import opened SchedTypes
  import opened SchedSteps
  import opened SchedClocks
  import opened Sequences

  /** Where a CPU thread is inside simulation step `now`. `Balancing(k)` has made k trials. */
  datatype Phase = Start | Ticked | Fired | Balancing(trials: nat) | Balanced | Done

  predicate EventsDone(ph: Phase) {
    !ph.Start? && !ph.Ticked?
  }

  ghost predicate QueuedOk(t: Task, c: nat, now: int) {
    t.state == Runnable && t.lastCpu == c && t.onRq && t.lastEnqueued == End(t) <= now + 1
  }

  ghost predicate QueueOk(tasks: seq<Task>, queue: seq<nat>, c: nat, now: int) {
    && NoDup(queue)
    && forall i :: 0 <= i < |queue| ==> queue[i] < |tasks| && QueuedOk(tasks[queue[i]], c, now)
  }

  /** The current task is running, or it has just gone to sleep or completed in this step and the
      scheduler is going to be invoked. */
  ghost predicate CurrentOk(t: Task, q: Rq, c: nat, now: int, ph: Phase) {
    && t.lastCpu == c && !t.onRq
    && (|| (t.state == OnProc && End(t) == (if ph.Start? then now else now + 1))
        || ((t.state == Sleep || t.state == Completed) && q.needResched && !ph.Start? && !ph.Done?
            && (t.state == Sleep ==> End(t) > now + 1)))
  }

  ghost predicate EventOk(t: Task, e: Event, c: nat) {
    && t.lastCpu == c && !t.onRq
    && t.state == (if e.kind.NewTask? then Starting else Sleep)
    && e.timeout == End(t)
  }

  /** A CPU's pending events: sorted, one per waiting task, none of them missed. */
  ghost predicate EventsOk(tasks: seq<Task>, evs: seq<Event>, c: nat, now: int, ph: Phase) {
    && Ordered(Timeouts(evs), true)
    && (forall i, j :: 0 <= i < j < |evs| ==> evs[i].task != evs[j].task)
    && (forall i :: 0 <= i < |evs| ==>
          && evs[i].task < |tasks|
          && EventOk(tasks[evs[i].task], evs[i], c)
          && evs[i].timeout > (if EventsDone(ph) then now + 1 else now))
  }

  predicate Running(tasks: seq<Task>, cur: Option<nat>) {
    cur.Some? && cur.value < |tasks| && tasks[cur.value].state == OnProc
  }

  ghost predicate CpuOk(tasks: seq<Task>, q: Rq, evs: seq<Event>, c: nat, now: int, ph: Phase) {
    && QueueOk(tasks, q.queue, c, now)
    && (q.cur.Some? ==> q.cur.value < |tasks| && CurrentOk(tasks[q.cur.value], q, c, now, ph))
    && EventsOk(tasks, evs, c, now, ph)
    && q.nrRunnable == |q.queue| + (if Running(tasks, q.cur) then 1 else 0)
  }

  ghost predicate HasEvent(evs: seq<Event>, x: nat) {
    exists i :: 0 <= i < |evs| && evs[i].task == x
  }

  /** An unfinished task is where its state says: on the queue, the processor or the event list of the
      CPU it was last assigned to. */
  ghost predicate Placed(t: Task, x: nat, q: Rq, evs: seq<Event>) {
    match t.state
    case Runnable => x in q.queue
    case OnProc => q.cur == Some(x)
    case Starting => HasEvent(evs, x)
    case Sleep => HasEvent(evs, x)
    case Completed => true
  }

  /** When the next load balancing of a CPU is due (with a single CPU the due time is never used). */
  ghost predicate BalanceOk(q: Rq, now: int, ph: Phase) {
    && q.nextLb >= 0
    && match ph
       case Balancing(_) => q.nextLb == now
       case Balanced => q.nextLb >= now + 1
       case Done => q.nextLb >= now + 1
       case _ => q.nextLb >= now
  }

  /** The system together with the common step number, the phase of each CPU thread, and (an auxiliary
      record) the time at which each task completed. */
  datatype RState = RState(s: Sys, now: int, ph: seq<Phase>, doneAt: map<nat, int>)

  ghost predicate SysOk(s: Sys, now: int, ph: seq<Phase>) {
    && !s.aborted
    && 1 <= |s.rqs| == |s.events| == |ph|
    && (forall x :: 0 <= x < |s.tasks| ==> TaskOk(s.tasks[x]) && s.tasks[x].lastCpu < |s.rqs|)
    && (forall c :: 0 <= c < |s.rqs| ==> CpuOk(s.tasks, s.rqs[c], s.events[c], c, now, ph[c]))
    && (forall x :: 0 <= x < |s.tasks| ==>
          Placed(s.tasks[x], x, s.rqs[s.tasks[x].lastCpu], s.events[s.tasks[x].lastCpu]))
  }

  ghost predicate CompletionOk(tasks: seq<Task>, doneAt: map<nat, int>) {
    && (forall x :: x in doneAt ==> x < |tasks| && tasks[x].state == Completed && doneAt[x] == End(tasks[x]))
    && (forall x :: 0 <= x < |tasks| && tasks[x].state == Completed ==> x in doneAt)
  }

  /** Until its first pick a CPU has no current task. */
  predicate Booting(q: Rq, ph: Phase) {
    ph.Done? || ((ph.Ticked? || ph.Fired?) && q.cur.None?)
  }

  ghost predicate RInv(r: RState) {
    && SysOk(r.s, r.now, r.ph)
    && r.now >= -1
    && (r.now == -1 ==> forall c :: 0 <= c < |r.ph| ==> Booting(r.s.rqs[c], r.ph[c]))
    && (|r.ph| > 1 ==> forall c :: 0 <= c < |r.ph| ==> BalanceOk(r.s.rqs[c], r.now, r.ph[c]))
    && CompletionOk(r.s.tasks, r.doneAt)
  }

  /** The fields the invariant looks at; the class-private ones may differ. */
  predicate SameCore(a: Task, b: Task) {
    a.(insertFront := b.insertFront, slice := b.slice) == b
  }

  /** A CPU is untouched by a step that changes only tasks assigned to other CPUs. */
  lemma CpuFrame(tasks: seq<Task>, tasks': seq<Task>, q: Rq, evs: seq<Event>, c: nat, now: int, ph: Phase)
    requires CpuOk(tasks, q, evs, c, now, ph) && |tasks| == |tasks'|
    requires forall x :: 0 <= x < |tasks| && tasks[x].lastCpu == c ==> SameCore(tasks[x], tasks'[x])
    ensures CpuOk(tasks', q, evs, c, now, ph)
  {
  }

  lemma InvWellFormed(s: Sys, now: int, ph: seq<Phase>)
    requires SysOk(s, now, ph)
    ensures WellFormed(s)
  {
    forall c | 0 <= c < |s.rqs| ensures RqInRange(s.rqs[c], |s.tasks|) && EventsInRange(s.events[c], |s.tasks|) {
      assert CpuOk(s.tasks, s.rqs[c], s.events[c], c, now, ph[c]);
    }
  }

  predicate SameProfile(t: Task, t': Task) {
    t'.phases == t.phases && t'.arrival == t.arrival && t'.prio == t.prio
  }

  /** A completed task is frozen, and a task that completes has a log that ends at the next step. */
  predicate EvolvesTask(t: Task, t': Task, now: int) {
    && SameProfile(t, t')
    && (t.state == Completed ==> SameCore(t, t'))
    && (t.state != Completed && t'.state == Completed ==> End(t') == now + 1)
  }
}
