/**
 Migrations are bounded. The potential is the sum of the squared
 queue lengths, plus a credit for every thread that is between two queues: a single move lowers
 it by two, nothing but `ready` raises it.
 */
module Fairness {
  import opened SchedSpec
  import opened Machine
  import opened SchedInvariant
  import opened SchedSteps
  import opened SchedTheorems
  import opened Sums

  // ---------------------------------------------------------------- potential and weight

  function Square(q: seq<Addr>): nat { |q| * |q| }

  predicate Carrying(pc: Pc) { pc.MoveSpin? || pc.MoveHeld? }

  /** What landing the thread in hand will cost, plus two. */
  function Credit(pc: Pc): nat
  {
    if Carrying(pc) && pc.left <= pc.plan.total
    then 2 * (|pc.plan.dstOld| + pc.plan.total - pc.left) + 3 else 0
  }

  ghost function Potential(pc: seq<Pc>, queues: seq<seq<Addr>>): nat
  {
    Sum(queues, Square) + Sum(pc, Credit)
  }

  function Length(q: seq<Addr>): nat { |q| }
  function TaskWeight(a: Addr): nat { if a.Task? then 1 else 0 }
  function HandWeight(pc: Pc): nat { if Carrying(pc) then 1 else 0 }

  /** The number of threads that `ready` has put into a queue so far. */
  ghost function Readied(pc: seq<Pc>, cur: seq<Addr>, queues: seq<seq<Addr>>): nat
  {
    Sum(queues, Length) + Sum(cur, TaskWeight) + Sum(pc, HandWeight)
  }

  lemma ReadiedFits(s: State)
    requires Shape(s) && Conserved(s.pc, s.cur, s.queues, s.table)
    ensures Readied(s.pc, s.cur, s.queues) <= SLOTS
  {
    BagFits(s);
    forall i | 0 <= i < |s.pc| ensures HandWeight(s.pc[i]) <= |InHand(s.pc[i])| { HandSize(s.pc[i]); }
    GatherSize(s.queues, InQueue, Length);
    GatherSize(s.cur, AsCurrent, TaskWeight);
    GatherSize(s.pc, InHand, HandWeight);
  }

  lemma HandSize(pc: Pc)
    ensures HandWeight(pc) <= |InHand(pc)|
  {
  }

  /** The potential of a state, and how many threads it has seen. */
  ghost function Phi(s: State): nat { Potential(s.pc, s.queues) }
  ghost function Count(s: State): nat { Readied(s.pc, s.cur, s.queues) }

  // ---------------------------------------------------------------- the steps that matter

  /** The balancer lands a thread in its new queue. */
  predicate Lands(s: State, c: nat, e: Event) { c < |s.pc| && e.Advance? && s.pc[c].MoveHeld? }

  /** `ready` puts a new thread into a queue. */
  predicate Readies(s: State, c: nat, e: Event) { c < |s.pc| && e.Advance? && s.pc[c].ReadyQueueHeld? }

  /** The timer handler exchanges threads. */
  predicate Switches(s: State, c: nat, e: Event) { c < |s.pc| && e.Advance? && s.pc[c].SwitchHeld? }

  /** The balancer takes a thread out of its queue. */
  predicate Takes(s: State, c: nat, e: Event) { c < |s.pc| && e.Advance? && s.pc[c].Moving? && s.pc[c].left > 0 }

  /** All other steps leave queues, hands and current threads alone. */
  lemma OtherActs(s: State, c: nat, e: Event)
    requires Active(s, c) && Enabled(s, c, e)
    requires !Lands(s, c, e) && !Readies(s, c, e) && !Switches(s, c, e) && !Takes(s, c, e)
    ensures var a := ActOf(s, c, e);
            && a.data.queues == s.queues && !a.to.MoveSpin?
            && (s.pc[c].MoveSpin? ==> a.to == MoveHeld(s.pc[c].plan, s.pc[c].left, s.pc[c].hand))
            && (!s.pc[c].MoveSpin? ==> !a.to.MoveHeld? && !s.pc[c].MoveHeld?)
            && (a.data.cur == s.cur || (!s.cur[c].Task? && a.data.cur == s.cur[c := Idle(c)]))
  {
  }

  lemma OthersKeepPotential(s: State, c: nat, e: Event)
    requires Active(s, c) && Enabled(s, c, e)
    requires !Lands(s, c, e) && !Readies(s, c, e) && !Switches(s, c, e) && !Takes(s, c, e)
    ensures var s' := Next(s, c, e); Phi(s') == Phi(s) && Count(s') == Count(s)
  {
    var a := ActOf(s, c, e);
    OtherActs(s, c, e);
    EffectFrame(s, c, a);
    SumUpdate(s.pc, Credit, c, a.to);
    SumUpdate(s.pc, HandWeight, c, a.to);
    SumUpdate(s.cur, TaskWeight, c, Idle(c));
  }

  // What the four kinds of moving steps do to program points, current threads and queues.

  lemma LandShape(s: State, c: nat)
    requires Active(s, c) && Enabled(s, c, Advance) && s.pc[c].MoveHeld? && |s.queues[s.pc[c].plan.dst]| < CAPACITY
    ensures var s', pc := Next(s, c, Advance), s.pc[c];
            && s'.pc == s.pc[c := Moving(pc.plan, pc.left - 1)] && s'.cur == s.cur
            && s'.queues == s.queues[pc.plan.dst := s.queues[pc.plan.dst] + [pc.hand]]
  {
  }

  lemma ReadyShape(s: State, c: nat)
    requires Active(s, c) && Enabled(s, c, Advance) && s.pc[c].ReadyQueueHeld? && |s.queues[c]| < CAPACITY
    ensures var s', t := Next(s, c, Advance), s.pc[c].slot;
            && s'.pc == s.pc[c := ReadyDropSched(t)] && s'.cur == s.cur
            && s'.queues == s.queues[c := s.queues[c] + [Task(t)]]
  {
  }

  lemma TakeShape(s: State, c: nat)
    requires Active(s, c) && Enabled(s, c, Advance) && s.pc[c].Moving? && s.pc[c].left > 0
    ensures var s', p, left := Next(s, c, Advance), s.pc[c].plan, s.pc[c].left;
            && s.queues[p.src] != []
            && s'.pc == s.pc[c := MoveSpin(p, left, s.queues[p.src][0])] && s'.cur == s.cur
            && s'.queues == s.queues[p.src := s.queues[p.src][1..]]
  {
  }

  lemma SwitchShape(s: State, c: nat)
    requires Active(s, c) && Enabled(s, c, Advance) && s.pc[c].SwitchHeld? && |s.queues[c]| <= CAPACITY
    ensures var s', q := Next(s, c, Advance), s.queues[c];
            && s'.pc == s.pc[c := Picking]
            && (q == [] ==> s'.cur == s.cur && s'.queues == s.queues)
            && (q != [] ==> s'.cur == s.cur[c := q[0]])
            && (q != [] && s.cur[c] == Idle(c) ==> s'.queues == s.queues[c := q[1..]])
            && (q != [] && s.cur[c] != Idle(c) ==> s'.queues == s.queues[c := q[1..] + [s.cur[c]]])
  {
  }

  // What they do to potential and count.

  lemma SquareGrows(q: seq<Addr>, q': seq<Addr>)
    requires |q'| == |q| + 1
    ensures Square(q') == Square(q) + 2 * |q| + 1
  {
  }

  lemma LandPotential(pc: seq<Pc>, cur: seq<Addr>, queues: seq<seq<Addr>>, c: nat, p: Plan, left: nat, x: Addr)
    requires c < |pc| && pc[c] == MoveHeld(p, left, x) && PlanOkInHand(p, left, x, queues)
    ensures var pc', queues' := pc[c := Moving(p, left - 1)], queues[p.dst := queues[p.dst] + [x]];
            && Potential(pc', queues') + 2 == Potential(pc, queues)
            && Readied(pc', cur, queues') == Readied(pc, cur, queues)
  {
    var to, q' := Moving(p, left - 1), queues[p.dst] + [x];
    SumUpdate(pc, Credit, c, to);
    SumUpdate(pc, HandWeight, c, to);
    SumUpdate(queues, Square, p.dst, q');
    SumUpdate(queues, Length, p.dst, q');
    SquareGrows(queues[p.dst], q');
  }

  lemma ReadyPotential(pc: seq<Pc>, cur: seq<Addr>, queues: seq<seq<Addr>>, c: nat, t: nat)
    requires c < |pc| == |queues| && pc[c] == ReadyQueueHeld(t)
    ensures var pc', queues' := pc[c := ReadyDropSched(t)], queues[c := queues[c] + [Task(t)]];
            && Potential(pc', queues') == Potential(pc, queues) + 2 * |queues[c]| + 1
            && Readied(pc', cur, queues') == Readied(pc, cur, queues) + 1
            && |queues[c]| <= Readied(pc, cur, queues)
  {
    var to, q' := ReadyDropSched(t), queues[c] + [Task(t)];
    SumUpdate(pc, Credit, c, to);
    SumUpdate(pc, HandWeight, c, to);
    SumUpdate(queues, Square, c, q');
    SumUpdate(queues, Length, c, q');
    SumPart(queues, Length, c);
    SquareGrows(queues[c], q');
  }

  lemma TakePotential(pc: seq<Pc>, cur: seq<Addr>, queues: seq<seq<Addr>>, c: nat, p: Plan, left: nat)
    requires c < |pc| && pc[c] == Moving(p, left) && left > 0 && PlanOk(p, left, queues)
    ensures queues[p.src] != []
    ensures var q := queues[p.src];
            var pc', queues' := pc[c := MoveSpin(p, left, q[0])], queues[p.src := q[1..]];
            Potential(pc', queues') <= Potential(pc, queues) && Readied(pc', cur, queues') == Readied(pc, cur, queues)
  {
    var q := queues[p.src];
    var to := MoveSpin(p, left, q[0]);
    SumUpdate(pc, Credit, c, to);
    SumUpdate(pc, HandWeight, c, to);
    SumUpdate(queues, Square, p.src, q[1..]);
    SumUpdate(queues, Length, p.src, q[1..]);
    SquareGrows(q[1..], q);
  }

  lemma SwitchPotential(pc: seq<Pc>, cur: seq<Addr>, queues: seq<seq<Addr>>, c: nat, q': seq<Addr>)
    requires c < |pc| == |cur| == |queues| && pc[c].SwitchHeld? && queues[c] != [] && queues[c][0].Task?
    requires |q'| == (if cur[c].Task? then |queues[c]| else |queues[c]| - 1)
    ensures var pc', cur', queues' := pc[c := Picking], cur[c := queues[c][0]], queues[c := q'];
            Potential(pc', queues') <= Potential(pc, queues) && Readied(pc', cur', queues') == Readied(pc, cur, queues)
  {
    SumUpdate(pc, Credit, c, Picking);
    SumUpdate(pc, HandWeight, c, Picking);
    SumUpdate(queues, Square, c, q');
    SumUpdate(queues, Length, c, q');
    SumUpdate(cur, TaskWeight, c, queues[c][0]);
    if |q'| < |queues[c]| {
      SquareGrows(q', queues[c]);
    }
  }

  /** Only landing a thread and readying a thread change the potential upwards or downwards in a
      way that counts: minus two for the one, and for the other one more thread than before. */
  lemma StepPotential(s: State, c: nat, e: Event)
    requires Inv(s) && Enabled(s, c, e)
    ensures CpuWf(s, c)
    ensures var s' := Next(s, c, e);
            if Lands(s, c, e) then Phi(s') + 2 == Phi(s) && Count(s') == Count(s)
            else if Readies(s, c, e) then
              Phi(s') == Phi(s) + 2 * |s.queues[c]| + 1 && Count(s') == Count(s) + 1 && |s.queues[c]| <= Count(s)
            else Phi(s') <= Phi(s) && Count(s') == Count(s)
  {
    assert CpuWf(s, c) && Relies(c, s.pc[c], s.queues, s.table, s.local) && Active(s, c);
    var pc := s.pc[c];
    if Lands(s, c, e) {
      LandStepPotential(s, c);
    } else if Readies(s, c, e) {
      ReadyStepPotential(s, c);
    } else if Takes(s, c, e) {
      TakeShape(s, c);
      TakePotential(s.pc, s.cur, s.queues, c, pc.plan, pc.left);
    } else if Switches(s, c, e) {
      SwitchKeepsPotential(s, c);
    } else {
      OthersKeepPotential(s, c, e);
    }
  }

  lemma LandStepPotential(s: State, c: nat)
    requires Inv(s) && Enabled(s, c, Advance) && Active(s, c) && s.pc[c].MoveHeld?
    ensures var s' := Next(s, c, Advance); Phi(s') + 2 == Phi(s) && Count(s') == Count(s)
  {
    var pc := s.pc[c];
    QueuesFit(s, pc.plan.dst);
    assert InHand(pc) == multiset{pc.hand};
    LandShape(s, c);
    LandPotential(s.pc, s.cur, s.queues, c, pc.plan, pc.left, pc.hand);
  }

  lemma ReadyStepPotential(s: State, c: nat)
    requires Inv(s) && Enabled(s, c, Advance) && Active(s, c) && s.pc[c].ReadyQueueHeld?
    ensures var s' := Next(s, c, Advance);
            Phi(s') == Phi(s) + 2 * |s.queues[c]| + 1 && Count(s') == Count(s) + 1 && |s.queues[c]| <= Count(s)
  {
    var pc := s.pc[c];
    QueuesFit(s, c);
    assert InHand(pc) == multiset{Task(pc.slot)};
    ReadyShape(s, c);
    ReadyPotential(s.pc, s.cur, s.queues, c, pc.slot);
  }

  lemma SwitchKeepsPotential(s: State, c: nat)
    requires Inv(s) && Enabled(s, c, Advance) && Active(s, c) && s.pc[c].SwitchHeld?
    ensures var s' := Next(s, c, Advance); Phi(s') <= Phi(s) && Count(s') == Count(s)
  {
    QueuesFit(s, c);
    SwitchShape(s, c);
    if s.queues[c] != [] {
      assert s.queues[c][0] in s.queues[c];
      SwitchPotential(s.pc, s.cur, s.queues, c, Next(s, c, Advance).queues[c]);
    } else {
      SumUpdate(s.pc, Credit, c, Picking);
      SumUpdate(s.pc, HandWeight, c, Picking);
    }
  }

  // ---------------------------------------------------------------- bounded migration

  /** The number of single-thread migrations in a run. */
  ghost function Migrations(s: State, labels: seq<Label>): nat
    requires CanRun(s, labels)
    decreases |labels|
  {
    if labels == [] then 0
    else
      var l := labels[0];
      (if Lands(s, l.cpu, l.event) then 1 else 0) + Migrations(Next(s, l.cpu, l.event), labels[1..])
  }

  /** Threads seen, squared, minus the potential: the migrations still to be paid for. */
  ghost function Ledger(s: State): int { Count(s) * Count(s) - Phi(s) }

  lemma StepLedger(s: State, c: nat, e: Event)
    requires Inv(s) && Enabled(s, c, e)
    ensures CpuWf(s, c) && Ledger(Next(s, c, e)) >= Ledger(s) + (if Lands(s, c, e) then 2 else 0)
  {
    StepPotential(s, c, e);
    var s' := Next(s, c, e);
    if Readies(s, c, e) {
      LedgerArithmetic(Count(s), Phi(s), Count(s'), Phi(s'), |s.queues[c]|);
    }
  }

  lemma LedgerArithmetic(n: nat, phi: nat, n': nat, phi': nat, len: nat)
    requires n' == n + 1 && phi' == phi + 2 * len + 1 && len <= n
    ensures n' * n' - phi' >= n * n - phi
  {
  }

  lemma {:induction false} RunLedger(s: State, labels: seq<Label>)
    requires Inv(s) && CanRun(s, labels)
    ensures Ledger(After(s, labels)) >= Ledger(s) + 2 * Migrations(s, labels)
    decreases |labels|
  {
    if labels != [] {
      var l := labels[0];
      StepLedger(s, l.cpu, l.event);
      StepKeepsInv(s, l.cpu, l.event);
      RunLedger(Next(s, l.cpu, l.event), labels[1..]);
    }
  }

  lemma {:induction false} SumEmpty<T>(xs: seq<T>, f: T -> nat)
    requires forall i :: 0 <= i < |xs| ==> f(xs[i]) == 0
    ensures Sum(xs, f) == 0
  {
    if xs != [] {
      SumEmpty(xs[1..], f);
    }
  }

  lemma InitPotential(cpus: nat)
    ensures Phi(Init(cpus)) == 0 && Count(Init(cpus)) == 0
  {
    var s := Init(cpus);
    SumEmpty(s.queues, Square);
    SumEmpty(s.queues, Length);
    SumEmpty(s.cur, TaskWeight);
    SumEmpty(s.pc, Credit);
    SumEmpty(s.pc, HandWeight);
  }

  /** "Avoids oscillations": however long the kernel runs and whichever CPUs the balancers pick,
      threads migrate at most 32768 times in total. */
  lemma BoundedMigration(cpus: nat, labels: seq<Label>)
    requires cpus <= 256 && CanRun(Init(cpus), labels)
    ensures Migrations(Init(cpus), labels) <= 32768
    ensures 2 * Migrations(Init(cpus), labels) + Phi(After(Init(cpus), labels)) <= SLOTS * SLOTS
  {
    var s := Init(cpus);
    InitInv(cpus);
    InitPotential(cpus);
    RunLedger(s, labels);
    RunKeepsInv(s, labels);
    var s' := After(s, labels);
    ReadiedFits(s');
    SquareMonotone(Count(s'), SLOTS);
  }

  lemma SquareMonotone(a: nat, b: nat)
    requires a <= b
    ensures a * a <= b * b
  {
  }
}
