/**
 Deadlock freedom and progress. `ready` takes a thread's scheduling lock and then a queue lock,
 the balancer takes queue locks and then a scheduling lock, so no fixed order of the locks can
 explain why nothing gets stuck. What does is where threads are: a scheduling lock whose holder
 still waits for a queue belongs to a thread that is in no queue, and the balancer only asks for
 locks of threads it took out of one.
 */
module Deadlock {
  import opened Wrappers
  import opened SchedSpec
  import opened Machine
  import opened LockDiscipline
  import opened SchedInvariant
  import opened SchedSteps
  import opened SchedTheorems
  import opened Sums

  /** CPU `c` spins on a lock that CPU `d` holds. */
  predicate WaitsFor(s: State, c: nat, d: nat)
  {
    c < |s.want| && s.want[c].Some? && Holds(s, d, s.want[c].value.lock)
  }

  /** How far a program point is from running freely. */
  function Rank(pc: Pc, c: nat, cpus: nat): nat
  {
    match Wanted(pc, c)
    case None => 0
    case Some(l) =>
      match l
      case TableLock => cpus + 3
      case QueueLock(q) => if q < cpus then cpus - q + 2 else 0
      case _ => 1
  }

  /** A scheduling lock somebody spins on is never held by a CPU that spins itself. */
  lemma SchedLockHolderRuns(s: State, c: nat, d: nat, a: Addr)
    requires Inv(s) && c < |s.pc| && d < |s.pc|
    requires Wanted(s.pc[c], c) == Some(SchedLock(a)) && Holds(s, d, SchedLock(a))
    ensures Wanted(s.pc[d], d).None?
  {
    assert CpuWf(s, c) && CpuWf(s, d);
    assert Relies(c, s.pc[c], s.queues, s.table, s.local) && Relies(d, s.pc[d], s.queues, s.table, s.local);
    if s.pc[d].ReadyQueueSpin? && s.pc[c].MoveSpin? {
      InHandIsNowhereElse(s, c, a);
    }
  }

  lemma QueueLockHolderIsHigher(pc: Pc, d: nat, q: nat, cur: Addr, cpus: nat, table: Table, local: map<Addr, Local>)
    requires InRange(d, pc, cur, cpus, table, local) && QueueLock(q) in Held(pc, d) && q < cpus
    ensures Rank(pc, d, cpus) < cpus - q + 2
  {
  }

  lemma TableLockHolderIsLower(pc: Pc, d: nat, cpus: nat)
    requires TableLock in Held(pc, d) && d < cpus
    ensures Rank(pc, d, cpus) < cpus + 3
  {
  }

  lemma LeafLockHolderRuns(pc: Pc, d: nat, l: Lock)
    requires l in Held(pc, d) && (l.CpusLock? || l.TerminalLock? || l.FramesLock?)
    ensures Wanted(pc, d).None?
  {
  }

  lemma WantedQueueInRange(pc: Pc, c: nat, q: nat, cur: Addr, cpus: nat, table: Table, local: map<Addr, Local>)
    requires InRange(c, pc, cur, cpus, table, local) && c < cpus && Wanted(pc, c) == Some(QueueLock(q))
    ensures q < cpus
  {
  }

  /** Waiting goes strictly down in rank. */
  lemma WaitsForDescends(s: State, c: nat, d: nat)
    requires Inv(s) && c < |s.pc| && d < |s.pc| && WaitsFor(s, c, d)
    ensures Rank(s.pc[d], d, |s.pc|) < Rank(s.pc[c], c, |s.pc|)
  {
    assert CpuWf(s, c) && CpuWf(s, d);
    var l := s.want[c].value.lock;
    match l
    case TableLock => TableLockHolderIsLower(s.pc[d], d, |s.pc|);
    case QueueLock(q) =>
      WantedQueueInRange(s.pc[c], c, q, s.cur[c], |s.pc|, s.table, s.local);
      QueueLockHolderIsHigher(s.pc[d], d, q, s.cur[d], |s.pc|, s.table, s.local);
    case SchedLock(a) => SchedLockHolderRuns(s, c, d, a);
    case CpusLock => LeafLockHolderRuns(s.pc[d], d, l);
    case TerminalLock => LeafLockHolderRuns(s.pc[d], d, l);
    case FramesLock => LeafLockHolderRuns(s.pc[d], d, l);
  }

  /** A CPU of least rank among `S`. */
  lemma {:induction false} LeastRank(s: State, S: set<nat>) returns (m: nat)
    requires S != {} && forall c :: c in S ==> c < |s.pc|
    ensures m in S && forall c :: c in S ==> Rank(s.pc[m], m, |s.pc|) <= Rank(s.pc[c], c, |s.pc|)
    decreases |S|
  {
    var x :| x in S;
    if S == {x} {
      m := x;
    } else {
      assert S - {x} != {};
      m := LeastRank(s, S - {x});
      if Rank(s.pc[x], x, |s.pc|) < Rank(s.pc[m], m, |s.pc|) {
        m := x;
      }
    }
  }

  lemma SomeoneRuns(s: State, S: set<nat>) returns (free: nat)
    requires Inv(s) && S != {} && forall c :: c in S ==> c < |s.pc|
    ensures free in S && forall d :: d in S ==> !WaitsFor(s, free, d)
  {
    free := LeastRank(s, S);
    forall d | d in S ensures !WaitsFor(s, free, d) {
      if WaitsFor(s, free, d) {
        WaitsForDescends(s, free, d);
      }
    }
  }

  /** Deadlock freedom: in every reachable state, every nonempty set of CPUs has a member that is
      not spinning on a lock held within the set. */
  lemma DeadlockFree(s: State, S: set<nat>)
    requires Reachable(s) && S != {} && forall c :: c in S ==> c < |s.pc|
    ensures exists free :: free in S && forall d :: d in S ==> !WaitsFor(s, free, d)
  {
    ReachableInv(s);
    var free := SomeoneRuns(s, S);
  }

  // ---------------------------------------------------------------- progress

  /** An upper bound on the steps a CPU still needs to leave its critical sections. */
  function WorkLeft(pc: Pc): nat
  {
    match pc
    case Open => 0
    case Panicked => 0
    case OnlineSpin => 2
    case OnlineHeld => 1
    case LeafSpin(_) => 2
    case LeafHeld(_) => 1
    case AddSpin => 2
    case AddHeld => 1
    case FindSpin => 8
    case FindHeld => 7
    case ReadySchedSpin(_) => 6
    case ReadyMark(_) => 5
    case ReadyQueueSpin(_) => 4
    case ReadyQueueHeld(_) => 3
    case ReadyDropSched(_) => 2
    case ReadyDropTable => 1
    case Returning => 1
    case DropLow(_, _) => 2
    case DropHigh(_, _) => 3
    case LogHeld(_, _) => 4
    case LogSpin(_, _) => 5
    case Moving(_, left) => 3 * left + 6
    case MoveSpin(_, left, _) => 3 * left + 5
    case MoveHeld(_, left, _) => 3 * left + 4
    case Comparing(_, _) => 400
    case HighSpin(_, _) => 401
    case LowHeld(_, _) => 402
    case LowSpin(_, _) => 403
    case Ordering(_, _) => 404
    case PickHeld(_) => 405
    case PickSpin(_) => 406
    case Picking => 407
    case SwitchHeld => 408
    case SwitchSpin => 409
  }

  /** An event that continues kernel code already entered (as opposed to a new interrupt or call). */
  predicate Continues(e: Event) { e.Advance? || e.Pick? }

  lemma CompareDescends(s: State, c: nat, lo: nat, hi: nat)
    requires Shape(s) && OwnPair(|s.pc|, c, lo, hi) && |s.queues[lo]| <= CAPACITY && |s.queues[hi]| <= CAPACITY
    ensures WorkLeft(CompareAct(s, c, lo, hi).to) < 400
  {
  }

  lemma MoveDescends(s: State, p: Plan, left: nat)
    requires Shape(s) && p.src < |s.pc|
    ensures WorkLeft(MoveAct(s, p, left).to) < WorkLeft(Moving(p, left))
  {
  }

  lemma LandDescends(s: State, p: Plan, left: nat, a: Addr)
    requires Shape(s) && p.dst < |s.pc| && left > 0 && ValidTask(s.table, a)
    ensures WorkLeft(LandAct(s, p, left, a).to) < WorkLeft(MoveHeld(p, left, a))
  {
  }

  lemma SwitchDescends(s: State, c: nat)
    requires Shape(s) && c < |s.pc|
    ensures WorkLeft(SwitchAct(s, c).to) < WorkLeft(SwitchHeld)
  {
  }

  lemma PickedDescends(s: State, c: nat, k: nat)
    requires Shape(s)
    ensures WorkLeft(PickedAct(s, c, k).to) < WorkLeft(PickHeld(k))
  {
  }

  lemma PlainStepDescends(s: State, c: nat)
    requires Shape(s) && c < |s.pc| && CpuWf(s, c) && s.want[c].None?
    requires s.pc[c].Ordering? || s.pc[c].LowHeld? || s.pc[c].LogHeld? || s.pc[c].DropHigh? || s.pc[c].DropLow?
          || s.pc[c].Returning?
    ensures WorkLeft(HandlerWork(s, c).to) < WorkLeft(s.pc[c])
  {
  }

  lemma HandlerWorkDescends(s: State, c: nat)
    requires Active(s, c) && s.want[c].None? && InHandler(s.pc[c]) && !s.pc[c].Picking?
    requires forall q :: 0 <= q < |s.queues| ==> |s.queues[q]| <= CAPACITY
    ensures WorkLeft(HandlerWork(s, c).to) < WorkLeft(s.pc[c])
  {
    var pc := s.pc[c];
    if pc.Comparing? {
      CompareDescends(s, c, pc.lo, pc.hi);
    } else if pc.Moving? {
      MoveDescends(s, pc.plan, pc.left);
    } else if pc.MoveHeld? {
      LandDescends(s, pc.plan, pc.left, pc.hand);
    } else if pc.SwitchHeld? {
      SwitchDescends(s, c);
    } else if pc.PickHeld? {
      PickedDescends(s, c, pc.choice);
    } else {
      PlainStepDescends(s, c);
    }
  }

  lemma ThreadWorkDescends(s: State, c: nat)
    requires Active(s, c) && s.want[c].None?
    requires !s.pc[c].Open? && !s.pc[c].Panicked? && !InHandler(s.pc[c])
    ensures WorkLeft(ThreadWork(s, c).to) < WorkLeft(s.pc[c])
  {
  }

  lemma GrantDescends(c: nat, pc: Pc)
    requires Wanted(pc, c).Some?
    ensures WorkLeft(Granted(pc)) < WorkLeft(pc)
  {
  }

  lemma ActDescends(s: State, c: nat, e: Event)
    requires Active(s, c) && Enabled(s, c, e) && Continues(e)
    requires forall q :: 0 <= q < |s.queues| ==> |s.queues[q]| <= CAPACITY
    ensures WorkLeft(ActOf(s, c, e).to) < WorkLeft(s.pc[c])
  {
    if e.Pick? {
    } else if s.want[c].Some? {
      GrantDescends(c, s.pc[c]);
    } else if InHandler(s.pc[c]) {
      HandlerWorkDescends(s, c);
    } else {
      ThreadWorkDescends(s, c);
    }
  }

  ghost function TotalWork(s: State): nat { Sum(s.pc, WorkLeft) }

  /** Every continuing step of any CPU uses up work, so no CPU stays in the kernel forever. */
  lemma ContinuingUsesWork(s: State, c: nat, e: Event)
    requires Inv(s) && Enabled(s, c, e) && Continues(e)
    ensures CpuWf(s, c) && TotalWork(Next(s, c, e)) < TotalWork(s)
  {
    assert CpuWf(s, c);
    var a := ActOf(s, c, e);
    StepKeepsInv(s, c, e);
    forall q | 0 <= q < |s.queues| ensures |s.queues[q]| <= CAPACITY { QueuesFit(s, q); }
    assert Active(s, c);
    ActDescends(s, c, e);
    EffectFrame(s, c, a);
    SumUpdate(s.pc, WorkLeft, c, a.to);
  }

  lemma HeldMeansInside(c: nat, pc: Pc)
    requires pc.Open?
    ensures Held(pc, c) == []
  {
  }

  /** As long as some CPU is in kernel code, some CPU can continue, whatever number `k` is drawn. */
  lemma SomeoneContinues(s: State, k: nat) returns (c: nat, e: Event)
    requires Inv(s) && !Quiescent(s)
    ensures Enabled(s, c, e) && (e == Advance || e == Pick(k))
  {
    var S := set x: nat | x < |s.pc| && !s.pc[x].Open?;
    assert S != {} by {
      var x :| 0 <= x < |s.pc| && !s.pc[x].Open?;
      assert x in S;
    }
    c := SomeoneRuns(s, S);
    assert CpuWf(s, c);
    e := if s.pc[c].Picking? then Pick(k) else Advance;
    if s.want[c].Some? && s.want[c].value.lock in s.locks {
      var l := s.want[c].value.lock;
      var d :| 0 <= d < |HeldBy(s)| && l in HeldBy(s)[d];
      assert Holds(s, d, l);
      HeldMeansInside(d, Open);
      assert d in S && WaitsFor(s, c, d);
    }
  }

  lemma OneMoreStep(s: State, k: nat) returns (c: nat, e: Event)
    requires Inv(s) && !Quiescent(s)
    ensures Wf(s) && Enabled(s, c, e) && CpuWf(s, c) && (e == Advance || e == Pick(k))
    ensures Inv(Next(s, c, e)) && TotalWork(Next(s, c, e)) < TotalWork(s)
  {
    c, e := SomeoneContinues(s, k);
    ContinuingUsesWork(s, c, e);
    StepKeepsInv(s, c, e);
  }

  /** Progress: from every reachable state the CPUs that are in kernel code can all finish, without
      any new interrupt or call, whatever number is drawn, and in at most `TotalWork` steps. */
  lemma {:induction false} KernelCodeFinishes(s: State, k: nat) returns (labels: seq<Label>)
    requires Inv(s)
    ensures CanRun(s, labels) && Quiescent(After(s, labels)) && |labels| <= TotalWork(s)
    ensures forall i :: 0 <= i < |labels| ==> labels[i].event == Advance || labels[i].event == Pick(k)
    decreases TotalWork(s)
  {
    if Quiescent(s) {
      labels := [];
    } else {
      var c, e := OneMoreStep(s, k);
      var rest := KernelCodeFinishes(Next(s, c, e), k);
      labels := [Label(c, e)] + rest;
      RunFrom(s, c, e, rest);
    }
  }

  lemma RunFrom(s: State, c: nat, e: Event, rest: seq<Label>)
    requires Wf(s) && Enabled(s, c, e) && CpuWf(s, c) && CanRun(Next(s, c, e), rest)
    ensures CanRun(s, [Label(c, e)] + rest)
    ensures After(s, [Label(c, e)] + rest) == After(Next(s, c, e), rest)
  {
    assert ([Label(c, e)] + rest)[1..] == rest;
  }
}
