/** Values of the multi-CPU scheduling simulator: tasks, events, run queues and the whole system. */
module SchedTypes {
  import opened Basics

  datatype TaskState = Starting | Runnable | OnProc | Sleep | Completed

  datatype LogRegister = LogRegister(state: TaskState, cpu: nat, when: int, howLong: int)

  /** A task descriptor. `phases` alternates CPU and I/O lengths by index; `slice` is the private
      counter of the round-robin and quantum classes; `insertFront` is the flag TF_INSERT_FRONT. */
  datatype Task = Task(
    prio: int,
    arrival: nat,
    phases: seq<int>,
    curPhase: nat,
    state: TaskState,
    lastCpu: nat,
    lastEnqueued: int,
    ticksLeft: int,
    onRq: bool,
    insertFront: bool,
    slice: int,
    userTime: int,
    realTime: int,
    sysTime: int,
    regs: seq<LogRegister>)

  datatype EventKind = NewTask | TaskAwake

  datatype Event = Event(task: nat, kind: EventKind, timeout: int)

  /** A per-CPU run queue; `cur == None` stands for the idle task. */
  datatype Rq = Rq(queue: seq<nat>, cur: Option<nat>, needResched: bool, nrRunnable: int, nextLb: int)

  /** `aborted` is set by the branches that end the simulator ("Critical error") or that would follow a
      null task pointer. */
  datatype Sys = Sys(tasks: seq<Task>, rqs: seq<Rq>, events: seq<seq<Event>>, aborted: bool)

  datatype Policy = Rr | Fcfs | Sjf | Prio | Tjf | TjfEx

  datatype Config = Config(policy: Policy, preemptive: bool, rrQuantum: int, period: int)

  /** `int tjf_quantum=3`: fixed, no command-line option changes it. */
  const TJF_QUANTUM := 3

  const MAX_EXEC_PHASES := 10

  ghost predicate ConfigOk(cfg: Config) {
    cfg.rrQuantum >= 1 && cfg.period >= 1
  }

  /** The task array is zero-initialised, so a phase beyond the last one has length 0. */
  function PhaseLen(t: Task, i: nat): int {
    if i < |t.phases| then t.phases[i] else 0
  }

  predicate PhaseIsIo(i: nat) {
    i % 2 == 1
  }

  /** Every index stored anywhere in the system points inside the task array. */
  ghost predicate RqInRange(q: Rq, n: nat) {
    && (q.cur.Some? ==> q.cur.value < n)
    && (forall i :: 0 <= i < |q.queue| ==> q.queue[i] < n)
  }

  ghost predicate EventsInRange(evs: seq<Event>, n: nat) {
    forall i :: 0 <= i < |evs| ==> evs[i].task < n
  }

  ghost predicate WellFormed(s: Sys) {
    && |s.events| == |s.rqs|
    && (forall c :: 0 <= c < |s.rqs| ==> RqInRange(s.rqs[c], |s.tasks|))
    && (forall c :: 0 <= c < |s.events| ==> EventsInRange(s.events[c], |s.tasks|))
  }
}
