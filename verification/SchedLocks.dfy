/** The run queue locks: `lock_rq`, `unlock_rq` and `double_lock_rq` as a protocol between the CPU threads. */
module SchedLocks {
  import opened Basics
  import opened SchedBalance

  /** What a thread holds and waits for. `NeedLower(r)` waits for a smaller remote while holding its own lock;
      `NeedHigher(r)` has released its own lock first; `NeedOwnBack(r)` then waits for it while holding r. */
  datatype LockPc =
    | Free
    | NeedOwn
    | HasOwn
    | NeedLower(remote: nat)
    | NeedHigher(remote: nat)
    | NeedOwnBack(remote: nat)
    | HasBoth(remote: nat)

  datatype Locks = Locks(pc: seq<LockPc>, owner: seq<Option<nat>>)

  datatype LockMove =
    | Begin(cpu: nat)
    | Grant(cpu: nat)
    | DoubleLock(cpu: nat, loads: seq<nat>)
    | UnlockRemote(cpu: nat)
    | UnlockOwn(cpu: nat)

  function Holds(p: LockPc, c: nat): set<nat> {
    match p
    case HasOwn => {c}
    case NeedLower(_) => {c}
    case NeedOwnBack(r) => {r}
    case HasBoth(r) => {c, r}
    case _ => {}
  }

  function Waits(p: LockPc, c: nat): Option<nat> {
    match p
    case NeedOwn => Some(c)
    case NeedLower(r) => Some(r)
    case NeedHigher(r) => Some(r)
    case NeedOwnBack(_) => Some(c)
    case _ => None
  }

  /** The remote CPU a trial of the balancer wants to lock, if any. */
  function Remote(loads: seq<nat>, c: nat): Option<nat>
    requires c < |loads|
  {
    match Choose(loads, c)
    case PushTo(d) => Some(d)
    case PullFrom(d) => Some(d)
    case _ => None
  }

  predicate CanLock(g: Locks, m: LockMove) {
    && m.cpu < |g.pc| == |g.owner|
    && match m
       case Begin(c) => g.pc[c].Free?
       case Grant(c) => Waits(g.pc[c], c).Some? && Waits(g.pc[c], c).value < |g.owner|
                        && g.owner[Waits(g.pc[c], c).value].None?
       case DoubleLock(c, loads) => g.pc[c].HasOwn? && |loads| == |g.pc| && Remote(loads, c).Some?
       case UnlockRemote(c) => g.pc[c].HasBoth? && g.pc[c].remote < |g.owner|
       case UnlockOwn(c) => g.pc[c].HasOwn?
  }

  function Granted(p: LockPc): LockPc {
    match p
    case NeedOwn => HasOwn
    case NeedLower(r) => HasBoth(r)
    case NeedHigher(r) => NeedOwnBack(r)
    case NeedOwnBack(r) => HasBoth(r)
    case _ => p
  }

  function LockStep(g: Locks, m: LockMove): Locks
    requires CanLock(g, m)
  {
    match m
    case Begin(c) => g.(pc := g.pc[c := NeedOwn])
    case Grant(c) =>
      g.(pc := g.pc[c := Granted(g.pc[c])], owner := g.owner[Waits(g.pc[c], c).value := Some(c)])
    case DoubleLock(c, loads) =>
      var r := Remote(loads, c).value;
      if c > r then g.(pc := g.pc[c := NeedLower(r)])
      else g.(pc := g.pc[c := NeedHigher(r)], owner := g.owner[c := None])
    case UnlockRemote(c) => g.(pc := g.pc[c := HasOwn], owner := g.owner[g.pc[c].remote := None])
    case UnlockOwn(c) => g.(pc := g.pc[c := Free], owner := g.owner[c := None])
  }

  ghost predicate LockRun(g: Locks, moves: seq<LockMove>, g': Locks)
    decreases |moves|
  {
    if moves == [] then g' == g
    else CanLock(g, moves[0]) && LockRun(LockStep(g, moves[0]), moves[1..], g')
  }

  function Unlocked(n: nat): Locks {
    Locks(seq(n, _ => Free), seq(n, _ => None))
  }

  predicate PcOk(p: LockPc, c: nat, n: nat) {
    match p
    case NeedLower(r) => r < c
    case NeedHigher(r) => c < r < n
    case NeedOwnBack(r) => c < r < n
    case HasBoth(r) => r != c && r < n
    case _ => true
  }

  /** Each lock is owned by exactly the thread whose program point says so. */
  ghost predicate LocksOk(g: Locks) {
    && |g.pc| == |g.owner|
    && (forall c :: 0 <= c < |g.pc| ==> PcOk(g.pc[c], c, |g.pc|))
    && (forall c, l :: 0 <= c < |g.pc| && 0 <= l < |g.owner| ==> (g.owner[l] == Some(c) <==> l in Holds(g.pc[c], c)))
    && (forall l :: 0 <= l < |g.owner| && g.owner[l].Some? ==> g.owner[l].value < |g.pc|)
  }

  /** Thread c moves on with the same locks. */
  lemma SameHoldings(g: Locks, c: nat, p: LockPc)
    requires LocksOk(g) && c < |g.pc| && PcOk(p, c, |g.pc|) && Holds(p, c) == Holds(g.pc[c], c)
    ensures LocksOk(g.(pc := g.pc[c := p]))
  {
    hide Holds, PcOk;
  }

  /** Thread c takes the free lock l. */
  lemma Takes(g: Locks, c: nat, p: LockPc, l: nat)
    requires LocksOk(g) && c < |g.pc| && PcOk(p, c, |g.pc|) && l < |g.owner| && g.owner[l].None?
    requires Holds(p, c) == Holds(g.pc[c], c) + {l}
    ensures LocksOk(Locks(g.pc[c := p], g.owner[l := Some(c)]))
  {
    hide Holds, PcOk;
  }

  /** Thread c lets go of its lock l. */
  lemma LetsGo(g: Locks, c: nat, p: LockPc, l: nat)
    requires LocksOk(g) && c < |g.pc| && PcOk(p, c, |g.pc|) && l in Holds(g.pc[c], c) && l < |g.owner|
    requires Holds(p, c) == Holds(g.pc[c], c) - {l}
    ensures LocksOk(Locks(g.pc[c := p], g.owner[l := None]))
  {
    hide Holds, PcOk;
    assert g.owner[l] == Some(c);
  }

  /** A thread never waits for a lock it holds. */
  lemma GrantKeeps(g: Locks, c: nat)
    requires LocksOk(g) && CanLock(g, Grant(c))
    ensures LocksOk(LockStep(g, Grant(c)))
  {
    assert PcOk(g.pc[c], c, |g.pc|);
    hide LocksOk;
    Takes(g, c, Granted(g.pc[c]), Waits(g.pc[c], c).value);
  }

  lemma DoubleLockKeeps(g: Locks, c: nat, loads: seq<nat>)
    requires LocksOk(g) && CanLock(g, DoubleLock(c, loads))
    ensures LocksOk(LockStep(g, DoubleLock(c, loads)))
  {
    RemoteIsNotLocal(loads, c);
    assert |g.pc| == |g.owner|;
    hide LocksOk, Choose;
    var r := Remote(loads, c).value;
    if c > r { SameHoldings(g, c, NeedLower(r)); } else { LetsGo(g, c, NeedHigher(r), c); }
  }

  lemma UnlockRemoteKeeps(g: Locks, c: nat)
    requires LocksOk(g) && CanLock(g, UnlockRemote(c))
    ensures LocksOk(LockStep(g, UnlockRemote(c)))
  {
    assert PcOk(g.pc[c], c, |g.pc|);
    hide LocksOk;
    LetsGo(g, c, HasOwn, g.pc[c].remote);
  }

  lemma LockStepKeeps(g: Locks, m: LockMove)
    requires LocksOk(g) && CanLock(g, m)
    ensures LocksOk(LockStep(g, m))
  {
    hide LocksOk;
    match m
    case Begin(c) => SameHoldings(g, c, NeedOwn);
    case Grant(c) => GrantKeeps(g, c);
    case DoubleLock(c, loads) => DoubleLockKeeps(g, c, loads);
    case UnlockRemote(c) => UnlockRemoteKeeps(g, c);
    case UnlockOwn(c) => LetsGo(g, c, Free, c);
  }

  lemma {:induction false} LockRunOk(n: nat, g: Locks, moves: seq<LockMove>, g': Locks)
    requires LocksOk(g) && LockRun(g, moves, g')
    ensures LocksOk(g') && |g'.pc| == |g.pc|
    decreases |moves|
  {
    if moves != [] {
      LockStepKeeps(g, moves[0]);
      LockRunOk(n, LockStep(g, moves[0]), moves[1..], g');
    }
  }

  /** The lock order, and mutual exclusion while a task is moved: a thread that waits for a lock while holding
      another waits for a strictly lower one, and a thread past `double_lock_rq` owns both locks. */
  lemma LockOrder(n: nat, moves: seq<LockMove>, g: Locks, c: nat)
    requires LockRun(Unlocked(n), moves, g) && c < n
    ensures |g.pc| == |g.owner| == n
    ensures forall l :: Waits(g.pc[c], c).Some? && l in Holds(g.pc[c], c) ==> Waits(g.pc[c], c).value < l
    ensures g.pc[c].HasBoth? ==>
      g.pc[c].remote < n && g.pc[c].remote != c && g.owner[c] == Some(c) && g.owner[g.pc[c].remote] == Some(c)
  {
    LockRunOk(n, Unlocked(n), moves, g);
    assert PcOk(g.pc[c], c, n);
  }

  /** A cycle of threads, each waiting for a lock that the next one owns. */
  ghost predicate WaitCycle(g: Locks, ts: seq<nat>) {
    && ts != []
    && |g.pc| == |g.owner|
    && forall i :: 0 <= i < |ts| ==> WaitsFor(g, ts[i], ts[if i + 1 < |ts| then i + 1 else 0])
  }

  ghost predicate WaitsFor(g: Locks, a: nat, b: nat)
    requires |g.pc| == |g.owner|
  {
    && a < |g.pc| && b < |g.pc|
    && Waits(g.pc[a], a).Some? && Waits(g.pc[a], a).value < |g.owner|
    && g.owner[Waits(g.pc[a], a).value] == Some(b)
  }

  lemma {:induction false} CycleDescends(g: Locks, ts: seq<nat>, i: nat)
    requires LocksOk(g) && WaitCycle(g, ts) && i < |ts|
    ensures ts[0] < |g.pc| && ts[i] < |g.pc|
    ensures Waits(g.pc[ts[i]], ts[i]).Some? && Waits(g.pc[ts[0]], ts[0]).Some?
    ensures Waits(g.pc[ts[i]], ts[i]).value + i <= Waits(g.pc[ts[0]], ts[0]).value
  {
    assert WaitsFor(g, ts[i], ts[if i + 1 < |ts| then i + 1 else 0]);
    if i > 0 {
      CycleDescends(g, ts, i - 1);
      assert WaitsFor(g, ts[i - 1], ts[i]);
      assert PcOk(g.pc[ts[i]], ts[i], |g.pc|);
    }
  }

  lemma CycleWraps(g: Locks, ts: seq<nat>)
    requires LocksOk(g) && WaitCycle(g, ts)
    ensures var last := |ts| - 1;
      && ts[0] < |g.pc| && ts[last] < |g.pc|
      && Waits(g.pc[ts[last]], ts[last]).Some? && Waits(g.pc[ts[0]], ts[0]).Some?
      && Waits(g.pc[ts[0]], ts[0]).value < Waits(g.pc[ts[last]], ts[last]).value
  {
    var last := |ts| - 1;
    assert WaitsFor(g, ts[last], ts[0]);
    assert WaitsFor(g, ts[0], ts[if 1 < |ts| then 1 else 0]);
    assert PcOk(g.pc[ts[0]], ts[0], |g.pc|);
  }

  /** No reachable state of the run queue locks has a wait cycle. */
  lemma NoWaitCycle(n: nat, moves: seq<LockMove>, g: Locks, ts: seq<nat>)
    requires LockRun(Unlocked(n), moves, g)
    ensures !WaitCycle(g, ts)
  {
    LockRunOk(n, Unlocked(n), moves, g);
    if WaitCycle(g, ts) {
      CycleWraps(g, ts);
      CycleDescends(g, ts, |ts| - 1);
    }
  }

  lemma {:induction false} FollowOwners(g: Locks, c: nat) returns (m: LockMove)
    requires LocksOk(g) && c < |g.pc| && !g.pc[c].Free?
    ensures CanLock(g, m) && !m.Begin?
    decreases if Waits(g.pc[c], c).Some? then 1 + Waits(g.pc[c], c).value else 0
  {
    assert PcOk(g.pc[c], c, |g.pc|);
    if g.pc[c].HasOwn? {
      m := UnlockOwn(c);
    } else if g.pc[c].HasBoth? {
      m := UnlockRemote(c);
    } else {
      var l := Waits(g.pc[c], c).value;
      if g.owner[l].None? {
        m := Grant(c);
      } else {
        var d := g.owner[l].value;
        assert l in Holds(g.pc[d], d) && PcOk(g.pc[d], d, |g.pc|);
        m := FollowOwners(g, d);
      }
    }
  }

  /** Deadlock freedom: while some thread holds or wants a lock, some such thread can go on. */
  lemma NoDeadlock(n: nat, moves: seq<LockMove>, g: Locks, c: nat) returns (m: LockMove)
    requires LockRun(Unlocked(n), moves, g) && c < |g.pc| && !g.pc[c].Free?
    ensures CanLock(g, m) && !m.Begin? && !g.pc[m.cpu].Free?
  {
    LockRunOk(n, Unlocked(n), moves, g);
    m := FollowOwners(g, c);
  }
}
