/** The history of a run: which tasks have been enqueued, and which running or departing tasks each of them has beaten.
    It is an auxiliary record, kept beside the run like the completion times. */
module SchedHistory {
  import opened Basics
  import opened SchedTypes
  import opened SchedSteps
  import opened SchedInvariant
  import opened SchedKeeps
  import opened SchedBalance
  import opened SchedRuns

  /** A task has been enqueued. `beaten` is the current task of that CPU, if the class is preemptive and the newcomer
      strictly better; `late` says that the beaten task was not going to be put back by `schedule`, and `again` that it
      had another CPU phase to come. `requeued` marks the enqueues of `schedule` itself. */
  datatype Enq = Enq(task: nat, beaten: Option<nat>, late: bool, again: bool, requeued: bool)

  /** The task has gone to sleep or completed, or it is running and will do so at its next tick, which comes before the
      next `schedule` of its CPU. */
  predicate Doomed(t: Task, p: Phase) {
    t.state.Sleep? || t.state.Completed? || (t.state.OnProc? && t.ticksLeft == 1 && (p.Start? || p.Done?))
  }

  /** The task has a CPU phase after the one it is in, or after the sleep it is in. */
  predicate Again(t: Task) {
    !t.state.Completed? && (if t.state.Sleep? then t.curPhase + 1 else t.curPhase + 2) < |t.phases|
  }

  /** Task x, in the state t, is enqueued on CPU c, and not by `schedule`. */
  function NewEnq(cfg: Config, s: Sys, ph: seq<Phase>, c: nat, x: nat, t: Task): Enq
    requires c < |s.rqs| && c < |ph| && (s.rqs[c].cur.Some? ==> s.rqs[c].cur.value < |s.tasks|)
  {
    var cur := s.rqs[c].cur;
    if cur.Some? && Preempts(cfg, s.tasks, cur, t)
    then Enq(x, cur, Doomed(s.tasks[cur.value], ph[c]), Again(s.tasks[cur.value]), false)
    else Enq(x, None, false, false, false)
  }

  lemma NewEnqFields(cfg: Config, s: Sys, ph: seq<Phase>, c: nat, x: nat, t: Task)
    requires c < |s.rqs| && c < |ph| && (s.rqs[c].cur.Some? ==> s.rqs[c].cur.value < |s.tasks|)
    ensures var e := NewEnq(cfg, s, ph, c, x, t); e.task == x && !e.requeued
  {
  }

  /** The phase in which the task of an event goes on. */
  function WokenPhase(t: Task, e: Event): nat {
    if e.kind.NewTask? then t.curPhase else t.curPhase + 1
  }

  ghost function FireNote(cfg: Config, r: RState, c: nat): (h: seq<Enq>)
    requires Enabled(r, FireStep(c))
  {
    var e := r.s.events[c][0];
    var t := r.s.tasks[e.task];
    var k := WokenPhase(t, e);
    if k < |t.phases| then [NewEnq(cfg, r.s, r.ph, c, e.task, Woken(t, k, r.now + 1))] else []
  }

  ghost function MoveNote(cfg: Config, s: Sys, ph: seq<Phase>, src: nat, dst: nat): (h: seq<Enq>)
    requires WellFormed(s) && src < |s.rqs| && dst < |s.rqs| == |ph|
  {
    var q := s.rqs[src];
    if q.nrRunnable - s.rqs[dst].nrRunnable > 1 && q.queue != []
    then [NewEnq(cfg, s, ph, dst, q.queue[|q.queue| - 1], s.tasks[q.queue[|q.queue| - 1]])] else []
  }

  ghost function ScheduleNote(s: Sys, c: nat): (h: seq<Enq>)
    requires c < |s.rqs|
  {
    var q := s.rqs[c];
    if q.needResched && Running(s.tasks, q.cur) then [Enq(q.cur.value, None, false, false, true)] else []
  }

  /** What one section adds to the history. */
  ghost function Noted(cfg: Config, r: RState, st: Step): (h: seq<Enq>)
    requires Enabled(r, st)
  {
    match st
    case FireStep(c) => FireNote(cfg, r, c)
    case ScheduleStep(c) => ScheduleNote(r.s, c)
    case BalanceTrial(c, loads) => (
      match Choose(loads, c)
      case PushTo(d) => if d < |loads| then MoveNote(cfg, r.s, r.ph, c, d) else []
      case PullFrom(d) => if d < |loads| then MoveNote(cfg, r.s, r.ph, d, c) else []
      case _ => [])
    case _ => []
  }

  /** What a run adds to the history. */
  ghost function History(cfg: Config, r: RState, steps: seq<Step>): (h: seq<Enq>)
    decreases |steps|
  {
    if steps == [] || !Enabled(r, steps[0]) then []
    else Noted(cfg, r, steps[0]) + History(cfg, Apply(cfg, r, steps[0]), steps[1..])
  }

  // ---------------------------------------------------------------- reading the history

  /** The last enqueue of task x, or -1. */
  function LastEnq(h: seq<Enq>, x: nat): (k: int)
    ensures -1 <= k < |h| && (k >= 0 ==> h[k].task == x)
    ensures forall j :: k < j < |h| ==> h[j].task != x
  {
    if h == [] then -1 else if h[|h| - 1].task == x then |h| - 1 else LastEnq(h[..|h| - 1], x)
  }

  /** Since its last enqueue, task x has been beaten while it was current. */
  predicate Beaten(h: seq<Enq>, x: nat) {
    h != [] && h[|h| - 1].task != x && (h[|h| - 1].beaten == Some(x) || Beaten(h[..|h| - 1], x))
  }

  /** ... when it was not going to be put back by `schedule`. */
  predicate LateBeaten(h: seq<Enq>, x: nat) {
    h != [] && h[|h| - 1].task != x
    && ((h[|h| - 1].beaten == Some(x) && h[|h| - 1].late) || LateBeaten(h[..|h| - 1], x))
  }

  /** ... and had another CPU phase to come. */
  predicate AgainBeaten(h: seq<Enq>, x: nat) {
    h != [] && h[|h| - 1].task != x
    && ((h[|h| - 1].beaten == Some(x) && h[|h| - 1].late && h[|h| - 1].again) || AgainBeaten(h[..|h| - 1], x))
  }

  /** All late beats of x since its last enqueue agree on whether it has another CPU phase. */
  predicate LateSame(h: seq<Enq>, x: nat, again: bool) {
    h == [] || h[|h| - 1].task == x
    || ((h[|h| - 1].beaten == Some(x) && h[|h| - 1].late ==> h[|h| - 1].again == again) && LateSame(h[..|h| - 1], x, again))
  }

  /** Being beaten, spelled out. */
  lemma {:induction false} BeatenMeans(h: seq<Enq>, x: nat)
    ensures Beaten(h, x) <==> exists j :: LastEnq(h, x) < j < |h| && h[j].beaten == Some(x)
  {
    if h != [] && h[|h| - 1].task != x {
      var init := h[..|h| - 1];
      BeatenMeans(init, x);
      if Beaten(init, x) {
        var j :| LastEnq(init, x) < j < |init| && init[j].beaten == Some(x);
        assert h[j].beaten == Some(x);
      }
      if j :| LastEnq(h, x) < j < |h| && h[j].beaten == Some(x) {
        assert j == |h| - 1 || init[j].beaten == Some(x);
      }
    }
  }

  lemma {:induction false} LateIsBeaten(h: seq<Enq>, x: nat)
    ensures AgainBeaten(h, x) ==> LateBeaten(h, x)
    ensures LateBeaten(h, x) ==> Beaten(h, x)
  {
    if h != [] { LateIsBeaten(h[..|h| - 1], x); }
  }

  lemma {:induction false} Unbeaten(h: seq<Enq>, x: nat, again: bool)
    requires !Beaten(h, x)
    ensures !LateBeaten(h, x) && LateSame(h, x, again)
  {
    if h != [] && h[|h| - 1].task != x { Unbeaten(h[..|h| - 1], x, again); }
  }

  lemma {:induction false} SameMeansAgain(h: seq<Enq>, x: nat)
    requires LateSame(h, x, true) && LateBeaten(h, x)
    ensures AgainBeaten(h, x)
  {
    if !(h[|h| - 1].beaten == Some(x) && h[|h| - 1].late) { SameMeansAgain(h[..|h| - 1], x); }
  }

  lemma {:induction false} SameMeansNotAgain(h: seq<Enq>, x: nat)
    requires LateSame(h, x, false)
    ensures !AgainBeaten(h, x)
  {
    if h != [] && h[|h| - 1].task != x { SameMeansNotAgain(h[..|h| - 1], x); }
  }

  /** The history after one more enqueue. */
  lemma OneEnq(h: seq<Enq>, e: Enq, x: nat)
    ensures var h' := h + [e];
      && LastEnq(h', x) == (if e.task == x then |h| else LastEnq(h, x))
      && (Beaten(h', x) <==> e.task != x && (e.beaten == Some(x) || Beaten(h, x)))
      && (LateBeaten(h', x) <==> e.task != x && ((e.beaten == Some(x) && e.late) || LateBeaten(h, x)))
      && (forall again :: LateSame(h', x, again) <==>
            e.task == x || ((e.beaten == Some(x) && e.late ==> e.again == again) && LateSame(h, x, again)))
  {
    var h' := h + [e];
    assert h'[..|h'| - 1] == h && h'[|h'| - 1] == e;
  }
}
