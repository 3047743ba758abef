/** The decision of `load_balance` on possibly out-of-date loads, and why migration makes progress. */
module SchedBalance {
  import opened SchedTypes
  import opened SchedSteps
  import opened SchedClocks
  import opened SchedInvariant
  import opened SchedKeeps
  import opened Sequences

  /** `max_trials=5`. */
  const MAX_TRIALS := 5

  /** First index of the largest load among the first k. */
  function MaxLoadCpu(loads: seq<nat>, k: nat): (i: nat)
    requires 1 <= k <= |loads|
    ensures i < k
    ensures forall j :: 0 <= j < k ==> loads[j] <= loads[i]
    ensures forall j :: 0 <= j < i ==> loads[j] < loads[i]
  {
    if k == 1 then 0
    else var i := MaxLoadCpu(loads, k - 1); if loads[k - 1] > loads[i] then k - 1 else i
  }

  /** First index of the smallest load among the first k. */
  function MinLoadCpu(loads: seq<nat>, k: nat): (i: nat)
    requires 1 <= k <= |loads|
    ensures i < k
    ensures forall j :: 0 <= j < k ==> loads[j] >= loads[i]
    ensures forall j :: 0 <= j < i ==> loads[j] > loads[i]
  {
    if k == 1 then 0
    else var i := MinLoadCpu(loads, k - 1); if loads[k - 1] < loads[i] then k - 1 else i
  }

  datatype Choice = SystemBalanced | PushTo(cpu: nat) | PullFrom(cpu: nat) | NothingToDo

  /** The branch one trial takes for the loads it has read. */
  function Choose(loads: seq<nat>, thisCpu: nat): Choice
    requires thisCpu < |loads|
  {
    var max := loads[MaxLoadCpu(loads, |loads|)];
    var min := loads[MinLoadCpu(loads, |loads|)];
    if max - min <= 1 then SystemBalanced
    else if loads[thisCpu] == max then PushTo(MinLoadCpu(loads, |loads|))
    else if loads[thisCpu] == min then PullFrom(MaxLoadCpu(loads, |loads|))
    else NothingToDo
  }

  /** Whatever loads were read, the remote CPU is a CPU and is not the local one. */
  lemma RemoteIsNotLocal(loads: seq<nat>, thisCpu: nat)
    requires thisCpu < |loads|
    ensures var ch := Choose(loads, thisCpu);
      && (ch.PushTo? ==> ch.cpu < |loads| && ch.cpu != thisCpu && loads[thisCpu] > loads[ch.cpu] + 1)
      && (ch.PullFrom? ==> ch.cpu < |loads| && ch.cpu != thisCpu && loads[ch.cpu] > loads[thisCpu] + 1)
      && (ch.SystemBalanced? <==> forall i, j :: 0 <= i < |loads| && 0 <= j < |loads| ==> loads[i] <= loads[j] + 1)
  {
    var i, j := MaxLoadCpu(loads, |loads|), MinLoadCpu(loads, |loads|);
    if Choose(loads, thisCpu).SystemBalanced? {
      assert loads[i] <= loads[j] + 1;
    } else {
      assert !(loads[i] <= loads[j] + 1);
    }
  }

  /** No load differs from another by more than one. */
  ghost predicate Level(loads: seq<int>) {
    forall i, j :: 0 <= i < |loads| && 0 <= j < |loads| ==> loads[i] <= loads[j] + 1
  }

  ghost predicate Highest(loads: seq<int>, c: int) {
    0 <= c < |loads| && forall j :: 0 <= j < |loads| ==> loads[j] <= loads[c]
  }

  ghost predicate Lowest(loads: seq<int>, c: int) {
    0 <= c < |loads| && forall j :: 0 <= j < |loads| ==> loads[j] >= loads[c]
  }

  /** The whole decision, from the loads alone: level loads are left alone; a CPU with the highest load pushes to the first
      one with the lowest; one with the lowest load pulls from the first one with the highest; and a trial does nothing only
      if some CPU has more and some CPU has less than this one. */
  lemma ChoiceIs(loads: seq<nat>, c: nat)
    requires c < |loads|
    ensures var ch := Choose(loads, c);
      if Level(loads) then ch == SystemBalanced
      else if Highest(loads, c) then ch.PushTo? && Lowest(loads, ch.cpu) && forall j :: 0 <= j < ch.cpu ==> loads[j] > loads[ch.cpu]
      else if Lowest(loads, c) then ch.PullFrom? && Highest(loads, ch.cpu) && forall j :: 0 <= j < ch.cpu ==> loads[j] < loads[ch.cpu]
      else ch == NothingToDo && exists i, j :: 0 <= i < |loads| && 0 <= j < |loads| && loads[i] < loads[c] < loads[j]
  {
    var i, j := MaxLoadCpu(loads, |loads|), MinLoadCpu(loads, |loads|);
    assert Level(loads) <==> loads[i] <= loads[j] + 1;
    assert Highest(loads, c) <==> loads[c] == loads[i];
    assert Lowest(loads, c) <==> loads[c] == loads[j];
    assert !Highest(loads, c) && !Lowest(loads, c) ==> loads[j] < loads[c] < loads[i];
  }

  function Loads(s: Sys): (r: seq<int>)
    ensures |r| == |s.rqs|
  {
    seq(|s.rqs|, i requires 0 <= i < |s.rqs| => s.rqs[i].nrRunnable)
  }

  function Sum(a: seq<int>): int {
    if a == [] then 0 else Sum(a[..|a| - 1]) + a[|a| - 1]
  }

  function Squares(a: seq<int>): (r: seq<int>)
    ensures |r| == |a|
  {
    seq(|a|, i requires 0 <= i < |a| => a[i] * a[i])
  }

  lemma {:induction false} SumUpdate(a: seq<int>, i: nat, v: int)
    requires i < |a|
    ensures Sum(a[i := v]) == Sum(a) - a[i] + v
  {
    var n := |a| - 1;
    if i == n {
      assert a[i := v][..n] == a[..n];
    } else {
      assert a[i := v][..n] == a[..n][i := v];
      SumUpdate(a[..n], i, v);
    }
  }

  lemma SquaresUpdate(a: seq<int>, i: nat, v: int)
    requires i < |a|
    ensures Squares(a[i := v]) == Squares(a)[i := v * v]
  {
  }

  lemma SquareStep(x: int, y: int)
    requires x - y > 1
    ensures (x - 1) * (x - 1) + (y + 1) * (y + 1) < x * x + y * y
  {
    assert (x - 1) * (x - 1) == x * x - 2 * x + 1;
    assert (y + 1) * (y + 1) == y * y + 2 * y + 1;
  }

  /** Moving one unit from a load to one that is smaller by at least two. */
  lemma MoveUnit(a: seq<int>, i: nat, j: nat)
    requires i < |a| && j < |a| && i != j && a[i] - a[j] > 1
    ensures var b := a[i := a[i] - 1][j := a[j] + 1];
      Sum(b) == Sum(a) && Sum(Squares(b)) < Sum(Squares(a))
  {
    var x, y := a[i], a[j];
    var a1 := a[i := x - 1];
    SumUpdate(a, i, x - 1);
    SumUpdate(a1, j, y + 1);
    SquaresUpdate(a, i, x - 1);
    SquaresUpdate(a1, j, y + 1);
    var u, v := (x - 1) * (x - 1), (y + 1) * (y + 1);
    SumUpdate(Squares(a), i, u);
    SumUpdate(Squares(a)[i := u], j, v);
    SquareStep(x, y);
  }

  /** The recheck under both locks decides: if it holds, a task moves, the total load is conserved and the
      sum of the squared loads strictly decreases; otherwise nothing changes. */
  lemma RebalanceProgress(cfg: Config, s: Sys, now: int, ph: seq<Phase>, src: nat, dst: nat)
    requires SysOk(s, now, ph) && src < |s.rqs| && dst < |s.rqs| && src != dst
    ensures WellFormed(s)
    ensures var s' := Rebalance(cfg, s, src, dst, now);
      if s.rqs[src].nrRunnable - s.rqs[dst].nrRunnable > 1
      then Sum(Loads(s')) == Sum(Loads(s)) && Sum(Squares(Loads(s'))) < Sum(Squares(Loads(s)))
           && s.rqs[src].queue != [] && s'.rqs[src].queue == s.rqs[src].queue[..|s.rqs[src].queue| - 1]
           && s.rqs[src].queue[|s.rqs[src].queue| - 1] in s'.rqs[dst].queue
      else s' == s
  {
    hide *;
    InvWellFormed(s, now, ph);
    RebalanceCases(cfg, s, src, dst, now);
    if s.rqs[src].nrRunnable - s.rqs[dst].nrRunnable > 1 {
      var x := StealFinds(s, now, ph, src, dst);
      var pos := MoveShape(cfg, s, src, dst, now, x);
      MovedLoads(s, MoveOneTask(cfg, s, src, dst, now), src, dst, now, x, pos);
      MoveUnit(Loads(s), src, dst);
    }
  }

  lemma RebalanceCases(cfg: Config, s: Sys, src: nat, dst: nat, now: int)
    requires WellFormed(s) && src < |s.rqs| && dst < |s.rqs|
    ensures Rebalance(cfg, s, src, dst, now)
         == if s.rqs[src].nrRunnable - s.rqs[dst].nrRunnable > 1 then MoveOneTask(cfg, s, src, dst, now) else s
    ensures |Loads(s)| == |s.rqs| && Loads(s)[src] == s.rqs[src].nrRunnable && Loads(s)[dst] == s.rqs[dst].nrRunnable
  {
    hide MoveOneTask;
  }

  lemma MovedLoads(s: Sys, s': Sys, src: nat, dst: nat, now: int, x: nat, pos: nat)
    requires src < |s.rqs| && dst < |s.rqs| && src != dst && x < |s.tasks| && MovedTo(s, s', src, dst, now, x, pos)
    ensures Loads(s') == Loads(s)[src := Loads(s)[src] - 1][dst := Loads(s)[dst] + 1]
    ensures |s'.rqs| == |s.rqs| && s.rqs[src].queue != [] && x == s.rqs[src].queue[|s.rqs[src].queue| - 1]
    ensures s'.rqs[src].queue == s.rqs[src].queue[..|s.rqs[src].queue| - 1] && x in s'.rqs[dst].queue
  {
    hide TaskOk, QueuedOk;
    InsertMembers(s.rqs[dst].queue, pos, x);
  }

  function SetNextLb(s: Sys, c: nat, when: int): (r: Sys)
    requires c < |s.rqs|
    ensures |r.rqs| == |s.rqs| && r.tasks == s.tasks
    ensures WellFormed(s) ==> WellFormed(r)
  {
    s.(rqs := s.rqs[c := s.rqs[c].(nextLb := when)])
  }

  // ---------------------------------------------------------------- an undisturbed call

  const INT_MAX := 0x7FFF_FFFF

  /** The counters stay within the range that the search for the smallest load assumes. */
  predicate LoadsInRange(s: Sys) {
    |s.rqs| >= 1 && forall i :: 0 <= i < |s.rqs| ==> 0 <= s.rqs[i].nrRunnable < INT_MAX
  }

  function NatLoads(s: Sys): (r: seq<nat>)
    requires LoadsInRange(s)
    ensures |r| == |s.rqs|
  {
    seq(|s.rqs|, i requires 0 <= i < |s.rqs| => s.rqs[i].nrRunnable)
  }

  /** One trial of `load_balance` that sees the actual loads; the flag is `load_balanced_system`. */
  function OneTrial(cfg: Config, s: Sys, c: nat, now: int): (r: (Sys, bool))
    requires WellFormed(s) && c < |s.rqs| && LoadsInRange(s)
    ensures WellFormed(r.0) && |r.0.rqs| == |s.rqs| && |r.0.tasks| == |s.tasks|
  {
    RemoteIsNotLocal(NatLoads(s), c);
    match Choose(NatLoads(s), c)
    case SystemBalanced => (s, true)
    case PushTo(d) => (Rebalance(cfg, s, c, d, now), false)
    case PullFrom(d) => (Rebalance(cfg, s, d, c, now), false)
    case NothingToDo => (s, false)
  }

  /** The trial loop from trial k on, as long as no other thread interferes. */
  function Trials(cfg: Config, s: Sys, c: nat, now: int, k: nat): (r: Sys)
    requires WellFormed(s) && c < |s.rqs| && LoadsInRange(s)
    ensures WellFormed(r) && |r.rqs| == |s.rqs| && |r.tasks| == |s.tasks|
    decreases MAX_TRIALS - k
  {
    if k >= MAX_TRIALS then s else
    var (s1, balanced) := OneTrial(cfg, s, c, now);
    TrialInRange(cfg, s, c, now);
    if balanced then s1 else Trials(cfg, s1, c, now, k + 1)
  }

  lemma RebalanceInRange(cfg: Config, s: Sys, src: nat, dst: nat, now: int)
    requires WellFormed(s) && src < |s.rqs| && dst < |s.rqs| && src != dst && LoadsInRange(s)
    ensures LoadsInRange(Rebalance(cfg, s, src, dst, now))
  {
    hide EventsInRange, InsertPos, QueuePos, QueueKeys, AddLog;
    var q := s.rqs[src];
    if q.nrRunnable - s.rqs[dst].nrRunnable > 1 && q.queue != [] {
      var x := q.queue[|q.queue| - 1];
      var s1 := Steal(s, src);
      assert s1.rqs[dst] == s.rqs[dst];
      var pos := DoEnqueueShape(cfg, s1, x, dst, false);
    }
  }

  lemma TrialInRange(cfg: Config, s: Sys, c: nat, now: int)
    requires WellFormed(s) && c < |s.rqs| && LoadsInRange(s)
    ensures LoadsInRange(OneTrial(cfg, s, c, now).0)
  {
    hide Rebalance;
    RemoteIsNotLocal(NatLoads(s), c);
    match Choose(NatLoads(s), c)
    case PushTo(d) => RebalanceInRange(cfg, s, c, d, now);
    case PullFrom(d) => RebalanceInRange(cfg, s, d, c, now);
    case _ =>
  }

  /** `load_balance` on CPU c, as long as no other thread interferes. */
  function LoadBalance(cfg: Config, s: Sys, c: nat, now: int): (r: Sys)
    requires WellFormed(s) && c < |s.rqs| && (|s.rqs| == 1 || LoadsInRange(s))
    ensures WellFormed(r) && |r.rqs| == |s.rqs| && |r.tasks| == |s.tasks|
  {
    var s1 := if s.rqs[c].nrRunnable == 0 then SetNextLb(s, c, now) else s;
    if |s1.rqs| == 1 || s1.rqs[c].nextLb != now then s1
    else
      var s2 := Trials(cfg, s1, c, now, 0);
      SetNextLb(s2, c, s2.rqs[c].nextLb + cfg.period)
  }
}
