/** What a whole call of the load balancer achieves when no other thread interferes. */
module SchedBalancing {
  import opened SchedTypes
  import opened SchedSteps
  import opened SchedInvariant
  import opened SchedKeeps
  import opened SchedEvolves
  import opened SchedBalance
  import opened SchedRuns
  import opened SchedTheorems

  /** The loads after one task has gone from CPU src to CPU dst. */
  function Shifted(loads: seq<int>, src: nat, dst: nat): (r: seq<int>)
    requires src < |loads| && dst < |loads|
    ensures |r| == |loads|
  {
    loads[src := loads[src] - 1][dst := loads[dst] + 1]
  }

  lemma NatLoadsAre(s: Sys)
    requires LoadsInRange(s)
    ensures NatLoads(s) == Loads(s)
  {
  }

  lemma RebalanceShifts(cfg: Config, s: Sys, now: int, ph: seq<Phase>, src: nat, dst: nat)
    requires SysOk(s, now, ph) && WellFormed(s) && src < |s.rqs| && dst < |s.rqs| && src != dst
    requires Loads(s)[src] > Loads(s)[dst] + 1
    ensures Loads(Rebalance(cfg, s, src, dst, now)) == Shifted(Loads(s), src, dst)
  {
    hide SysOk, MoveOneTask, MovedTo, LoadsInRange, WellFormed, QueuedOk;
    var x := StealFinds(s, now, ph, src, dst);
    var pos := MoveShape(cfg, s, src, dst, now, x);
    MovedLoads(s, MoveOneTask(cfg, s, src, dst, now), src, dst, now, x, pos);
  }

  lemma RebalanceLoads(cfg: Config, s: Sys, now: int, ph: seq<Phase>, src: nat, dst: nat)
    requires SysOk(s, now, ph) && src < |s.rqs| && dst < |s.rqs| && src != dst && LoadsInRange(s)
    requires Loads(s)[src] > Loads(s)[dst] + 1
    ensures WellFormed(s)
    ensures var s' := Rebalance(cfg, s, src, dst, now);
      SysOk(s', now, ph) && LoadsInRange(s') && Loads(s') == Shifted(Loads(s), src, dst)
  {
    hide SysOk, MoveOneTask, MovedTo, LoadsInRange, WellFormed, QueuedOk;
    RebalanceKeeps(cfg, s, now, ph, src, dst);
    RebalanceInRange(cfg, s, src, dst, now);
    RebalanceShifts(cfg, s, now, ph, src, dst);
  }

  /** One undisturbed trial, in terms of the loads. */
  lemma TrialLoads(cfg: Config, s: Sys, now: int, ph: seq<Phase>, c: nat) returns (d: nat)
    requires SysOk(s, now, ph) && WellFormed(s) && c < |s.rqs| && LoadsInRange(s)
    ensures var (s', level) := OneTrial(cfg, s, c, now); var loads := Loads(s);
      && SysOk(s', now, ph) && LoadsInRange(s') && (level <==> Level(loads)) && d < |loads|
      && (if Level(loads) then s' == s
          else if Highest(loads, c) then Lowest(loads, d) && d != c && Loads(s') == Shifted(loads, c, d)
          else if Lowest(loads, c) then Highest(loads, d) && d != c && Loads(s') == Shifted(loads, d, c)
          else s' == s)
  {
    hide SysOk, WellFormed, Rebalance, Choose, LoadsInRange;
    NatLoadsAre(s);
    var ch := Choose(NatLoads(s), c);
    ChoiceIs(NatLoads(s), c);
    RemoteIsNotLocal(NatLoads(s), c);
    d := 0;
    match ch
    case PushTo(e) =>
      d := e;
      RebalanceLoads(cfg, s, now, ph, c, e);
    case PullFrom(e) =>
      d := e;
      RebalanceLoads(cfg, s, now, ph, e, c);
    case _ =>
  }

  /** What n trials on CPU c make of the loads: level loads, and loads of which c has neither the most nor the least, stay as
      they are; otherwise tasks leave c, or come to it, one per trial, until the loads are level or c is no longer at its
      end, and at least one does. */
  ghost predicate Improved(loads: seq<int>, loads': seq<int>, c: int, n: int) {
    && |loads'| == |loads| && 0 <= c < |loads| && Sum(loads') == Sum(loads)
    && (if n == 0 || Level(loads) || (!Highest(loads, c) && !Lowest(loads, c)) then loads' == loads
        else if Highest(loads, c) then
          && loads[c] - n <= loads'[c] < loads[c]
          && (loads'[c] == loads[c] - n || Level(loads') || !Highest(loads', c))
        else
          && loads[c] < loads'[c] <= loads[c] + n
          && (loads'[c] == loads[c] + n || Level(loads') || !Lowest(loads', c)))
  }

  lemma ShiftSum(loads: seq<int>, src: nat, dst: nat)
    requires src < |loads| && dst < |loads| && src != dst
    ensures Sum(Shifted(loads, src, dst)) == Sum(loads)
  {
    SumUpdate(loads, src, loads[src] - 1);
    SumUpdate(loads[src := loads[src] - 1], dst, loads[dst] + 1);
  }

  /** Taking from the top of unlevel loads. */
  lemma ShiftedPush(loads: seq<int>, c: nat, d: nat)
    requires c < |loads| && d < |loads| && c != d && !Level(loads) && Highest(loads, c) && Lowest(loads, d)
    ensures var r := Shifted(loads, c, d); Level(r) || !Lowest(r, c)
  {
    var r := Shifted(loads, c, d);
    assert loads[c] > loads[d] + 1;
    if Lowest(r, c) {
      forall i | 0 <= i < |r| ensures r[c] <= r[i] <= r[c] + 1 {}
      assert Level(r);
    }
  }

  /** Giving to the bottom of unlevel loads. */
  lemma ShiftedPull(loads: seq<int>, c: nat, d: nat)
    requires c < |loads| && d < |loads| && c != d && !Level(loads) && Lowest(loads, c) && Highest(loads, d)
    ensures var r := Shifted(loads, d, c); Level(r) || !Highest(r, c)
  {
    var r := Shifted(loads, d, c);
    assert loads[d] > loads[c] + 1;
    if Highest(r, c) {
      forall i | 0 <= i < |r| ensures r[c] - 1 <= r[i] <= r[c] {}
      assert Level(r);
    }
  }

  lemma BothEnds(loads: seq<int>, c: int)
    requires Highest(loads, c) && Lowest(loads, c)
    ensures Level(loads)
  {
    forall i | 0 <= i < |loads| ensures loads[i] == loads[c] {}
  }

  lemma ImprovedStep(loads: seq<int>, loads1: seq<int>, loads': seq<int>, c: nat, d: nat, n: nat)
    requires c < |loads| && d < |loads| && c != d && !Level(loads) && n >= 1
    requires (Highest(loads, c) && Lowest(loads, d) && loads1 == Shifted(loads, c, d))
          || (!Highest(loads, c) && Lowest(loads, c) && Highest(loads, d) && loads1 == Shifted(loads, d, c))
    requires Improved(loads1, loads', c, n - 1)
    ensures Improved(loads, loads', c, n)
  {
    hide Level, Highest, Lowest;
    if Highest(loads, c) {
      ShiftSum(loads, c, d);
      ShiftedPush(loads, c, d);
      if Lowest(loads, c) { BothEnds(loads, c); }
    } else {
      ShiftSum(loads, d, c);
      ShiftedPull(loads, c, d);
    }
    if Highest(loads1, c) && Lowest(loads1, c) { BothEnds(loads1, c); }
  }

  lemma {:induction false} TrialsImprove(cfg: Config, s: Sys, now: int, ph: seq<Phase>, c: nat, k: nat)
    requires SysOk(s, now, ph) && WellFormed(s) && c < |s.rqs| && LoadsInRange(s) && k <= 5
    ensures var s' := Trials(cfg, s, c, now, k);
      SysOk(s', now, ph) && Improved(Loads(s), Loads(s'), c, 5 - k)
    decreases 5 - k
  {
    hide SysOk, WellFormed, OneTrial, LoadsInRange, Level, Highest, Lowest;
    if k < 5 {
      var d := TrialLoads(cfg, s, now, ph, c);
      var (s1, level) := OneTrial(cfg, s, c, now);
      if !level {
        TrialsImprove(cfg, s1, now, ph, c, k + 1);
        var s' := Trials(cfg, s1, c, now, k + 1);
        if Highest(Loads(s), c) || Lowest(Loads(s), c) {
          ImprovedStep(Loads(s), Loads(s1), Loads(s'), c, d, 5 - k);
        }
      }
    } else {
      assert Trials(cfg, s, c, now, k) == s;
    }
  }

  lemma TrialNextLb(cfg: Config, s: Sys, now: int, ph: seq<Phase>, c: nat)
    requires SysOk(s, now, ph) && WellFormed(s) && c < |s.rqs| && LoadsInRange(s)
    ensures var s' := OneTrial(cfg, s, c, now).0; |s'.rqs| == |s.rqs| && s'.rqs[c].nextLb == s.rqs[c].nextLb
  {
    hide SysOk, WellFormed, Rebalance, Choose, LoadsInRange, EvolvesTask;
    RemoteIsNotLocal(NatLoads(s), c);
    match Choose(NatLoads(s), c)
    case PushTo(d) => RebalanceEvolves(cfg, s, now, ph, c, d);
    case PullFrom(d) => RebalanceEvolves(cfg, s, now, ph, d, c);
    case _ =>
  }

  lemma {:induction false} TrialsNextLb(cfg: Config, s: Sys, now: int, ph: seq<Phase>, c: nat, k: nat)
    requires SysOk(s, now, ph) && WellFormed(s) && c < |s.rqs| && LoadsInRange(s) && k <= 5
    ensures Trials(cfg, s, c, now, k).rqs[c].nextLb == s.rqs[c].nextLb
    decreases 5 - k
  {
    hide SysOk, WellFormed, OneTrial, LoadsInRange, Level, Highest, Lowest;
    if k < 5 {
      TrialNextLb(cfg, s, now, ph, c);
      var d := TrialLoads(cfg, s, now, ph, c);
      var (s1, level) := OneTrial(cfg, s, c, now);
      if !level { TrialsNextLb(cfg, s1, now, ph, c, k + 1); }
    }
  }

  lemma NextLbLoads(s: Sys, c: nat, when: int)
    requires c < |s.rqs|
    ensures Loads(SetNextLb(s, c, when)) == Loads(s)
    ensures LoadsInRange(SetNextLb(s, c, when)) <==> LoadsInRange(s)
  {
    var s' := SetNextLb(s, c, when);
    assert forall i :: 0 <= i < |s.rqs| ==> s'.rqs[i].nrRunnable == s.rqs[i].nrRunnable;
  }

  lemma DueCall(cfg: Config, s: Sys, now: int, ph: seq<Phase>, c: nat)
    requires SysOk(s, now, ph) && WellFormed(s) && c < |s.rqs| && LoadsInRange(s)
    ensures var s1 := Trials(cfg, s, c, now, 0); var s' := SetNextLb(s1, c, s1.rqs[c].nextLb + cfg.period);
      s'.rqs[c].nextLb == s.rqs[c].nextLb + cfg.period && Improved(Loads(s), Loads(s'), c, 5)
  {
    hide SysOk, WellFormed, Trials, LoadsInRange, Improved, Loads;
    TrialsNextLb(cfg, s, now, ph, c, 0);
    TrialsImprove(cfg, s, now, ph, c, 0);
    var s1 := Trials(cfg, s, c, now, 0);
    NextLbLoads(s1, c, s1.rqs[c].nextLb + cfg.period);
  }

  /** What the call does in the three cases. */
  lemma CallCases(cfg: Config, s: Sys, c: nat, now: int)
    requires WellFormed(s) && c < |s.rqs| && |s.rqs| > 1 && LoadsInRange(s)
    ensures LoadsInRange(SetNextLb(s, c, now)) && WellFormed(SetNextLb(s, c, now))
    ensures LoadBalance(cfg, s, c, now) ==
      if s.rqs[c].nrRunnable == 0 then
        var s1 := Trials(cfg, SetNextLb(s, c, now), c, now, 0); SetNextLb(s1, c, s1.rqs[c].nextLb + cfg.period)
      else if s.rqs[c].nextLb == now then
        var s1 := Trials(cfg, s, c, now, 0); SetNextLb(s1, c, s1.rqs[c].nextLb + cfg.period)
      else s
  {
    hide WellFormed, Trials, LoadsInRange;
    NextLbLoads(s, c, now);
  }

  lemma IdleCall(cfg: Config, s: Sys, now: int, ph: seq<Phase>, c: nat)
    requires SysOk(s, now, ph) && WellFormed(s) && c < |s.rqs| && LoadsInRange(s)
    ensures LoadsInRange(SetNextLb(s, c, now)) && WellFormed(SetNextLb(s, c, now))
    ensures var s1 := Trials(cfg, SetNextLb(s, c, now), c, now, 0); var s' := SetNextLb(s1, c, s1.rqs[c].nextLb + cfg.period);
      s'.rqs[c].nextLb == now + cfg.period && Improved(Loads(s), Loads(s'), c, 5)
  {
    hide SysOk, WellFormed, Trials, LoadsInRange, Improved, Loads;
    NextLbOk(s, now, ph, c, now);
    NextLbLoads(s, c, now);
    DueCall(cfg, SetNextLb(s, c, now), now, ph, c);
  }

  /** A whole call that no other thread disturbs: a CPU that is neither idle nor due does nothing, and one that is comes due
      again one period later, after five trials at most. */
  lemma UndisturbedCall(cfg: Config, s: Sys, now: int, ph: seq<Phase>, c: nat)
    requires SysOk(s, now, ph) && c < |s.rqs| && |s.rqs| > 1 && LoadsInRange(s)
    ensures WellFormed(s)
    ensures var s' := LoadBalance(cfg, s, c, now);
      if s.rqs[c].nrRunnable != 0 && s.rqs[c].nextLb != now then s' == s
      else s'.rqs[c].nextLb == now + cfg.period && Improved(Loads(s), Loads(s'), c, 5)
  {
    InvWellFormed(s, now, ph);
    hide *;
    CallCases(cfg, s, c, now);
    if s.rqs[c].nrRunnable == 0 {
      IdleCall(cfg, s, now, ph, c);
    } else if s.rqs[c].nextLb == now {
      DueCall(cfg, s, now, ph, c);
    }
  }

  /** An idle CPU does not stay idle while another one has two runnable tasks or more: an undisturbed call brings it one. */
  lemma IdleCpuGetsWork(cfg: Config, s: Sys, now: int, ph: seq<Phase>, c: nat, d: nat)
    requires SysOk(s, now, ph) && c < |s.rqs| && d < |s.rqs| && LoadsInRange(s)
    requires s.rqs[c].nrRunnable == 0 && s.rqs[d].nrRunnable >= 2
    ensures WellFormed(s)
    ensures var s' := LoadBalance(cfg, s, c, now);
      s'.rqs[c].nrRunnable >= 1 && Sum(Loads(s')) == Sum(Loads(s))
  {
    var loads := Loads(s);
    assert Lowest(loads, c) && !Level(loads) && !Highest(loads, c) by { assert loads[d] > loads[c] + 1; }
    hide SysOk, WellFormed, LoadBalance, LoadsInRange, Level, Highest, Lowest;
    UndisturbedCall(cfg, s, now, ph, c);
    assert Loads(LoadBalance(cfg, s, c, now))[c] > loads[c];
  }

  /** What one trial of a thread does to the loads, if it has read them as they are. */
  ghost predicate TrialShifts(loads: seq<int>, r: RState, r': RState, c: nat, d: nat)
    requires c < |r.ph| && r.ph[c].Balancing?
  {
    && d < |loads|
    && r'.ph == r.ph[c := if Level(loads) then Balancing(5) else Balancing(r.ph[c].trials + 1)]
    && (if Level(loads) then r'.s == r.s
        else if Highest(loads, c) then Lowest(loads, d) && d != c && Loads(r'.s) == Shifted(loads, c, d)
        else if Lowest(loads, c) then Highest(loads, d) && d != c && Loads(r'.s) == Shifted(loads, d, c)
        else r'.s == r.s)
  }

  lemma MoveShifts(cfg: Config, r: RState, src: nat, dst: nat)
    requires SysOk(r.s, r.now, r.ph) && WellFormed(r.s) && src < |r.s.rqs| && dst < |r.s.rqs| && src != dst
    requires Loads(r.s)[src] > Loads(r.s)[dst] + 1
    ensures Loads(Rebalance(cfg, r.s, src, dst, r.now)) == Shifted(Loads(r.s), src, dst)
  {
    hide *;
    RebalanceShifts(cfg, r.s, r.now, r.ph, src, dst);
  }

  lemma FreshTrialFrom(cfg: Config, r: RState, c: nat, loads: seq<nat>) returns (d: nat)
    requires SysOk(r.s, r.now, r.ph) && Enabled(r, BalanceTrial(c, loads)) && loads == Loads(r.s)
    ensures TrialShifts(loads, r, Apply(cfg, r, BalanceTrial(c, loads)), c, d)
  {
    hide SysOk, WellFormed, Rebalance, Choose, Level, Highest, Lowest, Loads, Stamp, Shifted;
    RemoteIsNotLocal(loads, c);
    ChoiceIs(loads, c);
    d := c;
    match Choose(loads, c)
    case PushTo(e) =>
      d := e;
      MoveShifts(cfg, r, c, e);
    case PullFrom(e) =>
      d := e;
      MoveShifts(cfg, r, e, c);
    case _ =>
  }

  /** In every run: a trial that has read the actual loads does nothing when they are level, and then it is the last one;
      otherwise a CPU at the top gives one task to a CPU at the bottom, one at the bottom takes one from a CPU at the top,
      and any other leaves everything as it is. */
  lemma FreshTrial(cfg: Config, ps: seq<Profile>, n: nat, steps: seq<Step>, r: RState, c: nat, loads: seq<nat>) returns (d: nat)
    requires RunFrom(cfg, ps, n, steps, r) && Enabled(r, BalanceTrial(c, loads)) && loads == Loads(r.s)
    ensures TrialShifts(loads, r, Apply(cfg, r, BalanceTrial(c, loads)), c, d)
  {
    RunInv(cfg, ps, n, steps, r);
    InvSys(r);
    hide *;
    d := FreshTrialFrom(cfg, r, c, loads);
  }

  /** In every run: a CPU balances exactly if there are several and it is idle or its time has come, and when it has finished
      its time comes again one period later. */
  lemma BalancesWhenDue(cfg: Config, ps: seq<Profile>, n: nat, steps: seq<Step>, r: RState, c: nat)
    requires RunFrom(cfg, ps, n, steps, r) && c < n
    ensures |r.s.rqs| == |r.ph| == n
    ensures Enabled(r, BalanceBegin(c)) ==>
      (Apply(cfg, r, BalanceBegin(c)).ph[c].Balancing? <==> n > 1 && (r.s.rqs[c].nrRunnable == 0 || r.s.rqs[c].nextLb == r.now))
    ensures n > 1 && Enabled(r, BalanceEnd(c)) ==> Apply(cfg, r, BalanceEnd(c)).s.rqs[c].nextLb == r.now + cfg.period
  {
    RunInv(cfg, ps, n, steps, r);
    SysLengths(r);
    assert n > 1 ==> BalanceOk(r.s.rqs[c], r.now, r.ph[c]);
    hide RInv, SysOk, WellFormed, Reaches, Stamp;
  }
}
