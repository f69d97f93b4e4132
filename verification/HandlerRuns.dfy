/**
 The timer handler as a whole. When nothing interferes, a timer interrupt makes exactly the switch
 and then the balance with the CPU drawn, and nothing else. And whatever other CPUs do in the
 meantime, each pass through the handler switches exactly once, and compares queues exactly once,
 with the CPU drawn, if that is another CPU that is online.
 */
module HandlerRuns {
  import opened Wrappers
  import opened SchedSpec
  import opened Machine
  import opened SchedInvariant
  import opened SchedSteps
  import opened SchedTheorems
  import opened Atomicity
  import opened Deadlock
  import opened SoloRuns

  // ---------------------------------------------------------------- what the handler computes

  /** Where threads are and how they are labelled. */
  datatype Placement = Placement(cur: seq<Addr>, queues: seq<seq<Addr>>, table: Table)

  function PlacementOf(s: State): Placement { Placement(s.cur, s.queues, s.table) }

  predicate Covers(d: Placement, c: nat) { c < |d.cur| && c < |d.queues| }

  function AfterSwitch(d: Placement, c: nat): (d': Placement)
    requires Covers(d, c)
    ensures |d'.cur| == |d.cur| && |d'.queues| == |d.queues| && d'.table == d.table
  {
    var r := SwitchSpec(d.queues[c], d.cur[c], Idle(c));
    if r.None? then d else d.(queues := d.queues[c := r.value.0], cur := d.cur[c := r.value.1])
  }

  /** The threads that a balance moves. */
  function MovedThreads(a: seq<Addr>, b: seq<Addr>): seq<Addr>
  {
    var n := ToMove(|a|, |b|);
    if |a| >= |b| then a[..n] else b[..n]
  }

  /** The table with these threads labelled with their new CPU. */
  function LabelledWith(table: Table, moved: seq<Addr>, cpu: nat): (r: Table)
    ensures |r| == |table|
  {
    seq(|table|, t requires 0 <= t < |table| =>
      if Task(t) in moved && table[t].Some?
      then Some(table[t].value.(sched := table[t].value.sched.(cpu := Some(cpu)))) else table[t])
  }

  /** CPU `c` balances with CPU `k`. */
  function AfterBalance(d: Placement, c: nat, k: nat): Placement
    requires Covers(d, c) && Covers(d, k)
  {
    var a, b := d.queues[c], d.queues[k];
    var (a', b') := BalanceSpec(a, b);
    d.(queues := d.queues[c := a'][k := b'],
       table := LabelledWith(d.table, MovedThreads(a, b), if |a| >= |b| then k else c))
  }

  /** The CPU drawn is another one that is online. */
  predicate Partner(s: State, c: nat, k: nat) { k < |s.pc| && k in s.online && k != c }

  function AfterHandler(s: State, c: nat, k: nat): Placement
    requires Shape(s) && c < |s.pc|
  {
    var d := AfterSwitch(PlacementOf(s), c);
    if Partner(s, c, k) then AfterBalance(d, c, k) else d
  }

  // ---------------------------------------------------------------- phases

  predicate Locking(pc: Pc)
  {
    pc.Ordering? || pc.LowSpin? || pc.LowHeld? || pc.HighSpin? || pc.Comparing?
  }

  predicate Pair(lo: nat, hi: nat, c: nat, k: nat) { lo < hi && ((lo == c && hi == k) || (lo == k && hi == c)) }

  /** The moving loop: threads moved so far are relabelled, and the other queues are untouched. */
  predicate MovingPhase(d1: Placement, c: nat, k: nat, p: Plan, left: nat, d: Placement)
    requires Covers(d1, c) && Covers(d1, k)
  {
    && MadeFrom(p, c, k, d1.queues[c], d1.queues[k]) && left <= p.total <= |p.srcOld|
    && d.cur == d1.cur && |d.queues| == |d1.queues|
    && (forall q :: 0 <= q < |d.queues| && q != c && q != k ==> d.queues[q] == d1.queues[q])
    && d.table == LabelledWith(d1.table, p.srcOld[..p.total - left], p.dst)
  }

  /** How far the handler has come, by program point. */
  predicate HandlerPhase(s0: State, c: nat, k: nat, pc: Pc, d: Placement)
    requires Shape(s0) && c < |s0.pc|
  {
    PhaseOf(c, k, Partner(s0, c, k), PlacementOf(s0), AfterSwitch(PlacementOf(s0), c), AfterHandler(s0, c, k), pc, d)
  }

  /** The same, given what is expected before the switch, after it, and in the end. */
  predicate PhaseOf(c: nat, k: nat, partner: bool, d0: Placement, d1: Placement, d2: Placement, pc: Pc, d: Placement)
  {
    if pc.SwitchSpin? || pc.SwitchHeld? then d == d0
    else if pc.Picking? || pc == PickSpin(k) || pc == PickHeld(k) then d == d1
    else if Locking(pc) then partner && Pair(pc.lo, pc.hi, c, k) && d == d1
    else if Moves(pc) then
      partner && Covers(d1, c) && Covers(d1, k) && MovingPhase(d1, c, k, pc.plan, pc.left, d)
    else if Settled(pc) || pc.DropLow? then partner && d == d2
    else (pc.Returning? || pc.Open?) && d == d2
  }

  ghost predicate Handles(s0: State, c: nat, k: nat, s: State)
    requires Shape(s0) && c < |s0.pc|
  {
    && OthersOpen(s, c) && |s.pc| == |s0.pc| && s.online == s0.online && s.local == s0.local && s.nextId == s0.nextId
    && HandlerPhase(s0, c, k, s.pc[c], PlacementOf(s))
  }

  // ---------------------------------------------------------------- steps

  lemma NothingBalanced(d: Placement, c: nat, k: nat)
    requires Covers(d, c) && Covers(d, k) && c != k && ToMove(|d.queues[c]|, |d.queues[k]|) == 0
    ensures AfterBalance(d, c, k) == d
  {
    var a, b := d.queues[c], d.queues[k];
    NothingToMove(a, b);
    assert d.queues[c := a][k := b] == d.queues;
    assert LabelledWith(d.table, [], if |a| >= |b| then k else c) == d.table;
  }

  lemma AllMoved(d1: Placement, c: nat, k: nat, p: Plan, d: Placement)
    requires Covers(d1, c) && Covers(d1, k) && c != k && MovingPhase(d1, c, k, p, 0, d) && PlanOk(p, 0, d.queues)
    ensures d == AfterBalance(d1, c, k)
  {
    var a, b := d1.queues[c], d1.queues[k];
    PlanDone(p, d.queues, c, k, a, b);
    var (a', b') := BalanceSpec(a, b);
    assert d.queues == d1.queues[c := a'][k := b'];
    assert p.srcOld[..p.total] == MovedThreads(a, b);
  }

  lemma OneMoreLabel(table: Table, moved: seq<Addr>, n: nat, cpu: nat, x: Addr)
    requires n < |moved| && moved[n] == x && ValidTask(LabelledWith(table, moved[..n], cpu), x)
    ensures Relabelled(LabelledWith(table, moved[..n], cpu), x.slot, cpu) == LabelledWith(table, moved[..n + 1], cpu)
  {
    assert moved[..n + 1] == moved[..n] + [x];
  }

  predicate HandlerAct(s0: State, c: nat, k: nat, a: Act)
    requires Shape(s0) && c < |s0.pc|
  {
    HandlerPhase(s0, c, k, a.to, PlacementOf(a.data))
  }

  /** A state in which CPU `c` is in the handler and about to go on. */
  predicate Going(s0: State, c: nat, k: nat, s: State, e: Event)
  {
    && Shape(s0) && c < |s0.pc| == |s.pc| && s.online == s0.online
    && Active(s, c) && Enabled(s, c, e) && (e == Advance || e == Pick(k)) && InHandler(s.pc[c])
    && HandlerPhase(s0, c, k, s.pc[c], PlacementOf(s))
  }

  lemma SwitchingStep(s0: State, c: nat, k: nat, s: State, e: Event)
    requires Going(s0, c, k, s, e) && |s.queues[c]| <= CAPACITY
    requires s.pc[c].SwitchSpin? || s.pc[c].SwitchHeld? || s.pc[c].Picking? || s.pc[c].PickSpin?
    ensures HandlerAct(s0, c, k, ActOf(s, c, e))
  {
  }

  lemma PickedStep(s0: State, c: nat, k: nat, s: State, e: Event)
    requires Going(s0, c, k, s, e) && s.pc[c].PickHeld?
    ensures HandlerAct(s0, c, k, ActOf(s, c, e))
  {
    assert ActOf(s, c, e) == PickedAct(s, c, k);
  }

  lemma LockingStep(s0: State, c: nat, k: nat, s: State, e: Event)
    requires Going(s0, c, k, s, e) && Locking(s.pc[c]) && !s.pc[c].Comparing?
    ensures HandlerAct(s0, c, k, ActOf(s, c, e))
  {
  }

  lemma ComparingStep(s0: State, c: nat, k: nat, s: State, e: Event)
    requires Going(s0, c, k, s, e) && s.pc[c].Comparing?
    ensures HandlerAct(s0, c, k, ActOf(s, c, e))
  {
    var d1 := AfterSwitch(PlacementOf(s0), c);
    var a := CompareAct(s, c, s.pc[c].lo, s.pc[c].hi);
    assert ActOf(s, c, e) == a;
    if a.to.Moving? {
      assert LabelledWith(d1.table, a.to.plan.srcOld[..0], a.to.plan.dst) == d1.table;
    } else {
      NothingBalanced(d1, c, k);
    }
  }

  lemma TakenPhase(d1: Placement, c: nat, k: nat, p: Plan, left: nat, d: Placement, q: seq<Addr>)
    requires Covers(d1, c) && Covers(d1, k) && MovingPhase(d1, c, k, p, left, d) && p.src < |d.queues|
    ensures MovingPhase(d1, c, k, p, left, d.(queues := d.queues[p.src := q]))
  {
  }

  lemma LandedPhase(d1: Placement, c: nat, k: nat, p: Plan, left: nat, d: Placement, x: Addr, q: seq<Addr>)
    requires Covers(d1, c) && Covers(d1, k) && MovingPhase(d1, c, k, p, left, d) && p.dst < |d.queues|
    requires 0 < left && p.srcOld[p.total - left] == x && ValidTask(d.table, x)
    ensures MovingPhase(d1, c, k, p, left - 1,
                        d.(queues := d.queues[p.dst := q], table := Relabelled(d.table, x.slot, p.dst)))
  {
    OneMoreLabel(d1.table, p.srcOld, p.total - left, p.dst, x);
  }

  lemma LoopEndStep(s0: State, c: nat, k: nat, s: State, e: Event)
    requires Going(s0, c, k, s, e) && s.pc[c].Moving? && s.pc[c].left == 0
    ensures HandlerAct(s0, c, k, ActOf(s, c, e))
  {
    var p := s.pc[c].plan;
    assert ActOf(s, c, e) == Act(Begin(TerminalLock), LogSpin(Low(p), High(p)), s);
    AllMoved(AfterSwitch(PlacementOf(s0), c), c, k, p, PlacementOf(s));
  }

  lemma TakingStep(s0: State, c: nat, k: nat, s: State, e: Event)
    requires Going(s0, c, k, s, e) && s.pc[c].Moving? && s.pc[c].left > 0
    ensures HandlerAct(s0, c, k, ActOf(s, c, e))
  {
    var p, left := s.pc[c].plan, s.pc[c].left;
    assert ActOf(s, c, e) == MoveAct(s, p, left);
    TakenPhase(AfterSwitch(PlacementOf(s0), c), c, k, p, left, PlacementOf(s), s.queues[p.src][1..]);
  }

  lemma CarryingStep(s0: State, c: nat, k: nat, s: State, e: Event)
    requires Going(s0, c, k, s, e) && s.pc[c].MoveSpin?
    ensures HandlerAct(s0, c, k, ActOf(s, c, e))
  {
    var pc := s.pc[c];
    assert ActOf(s, c, e) == Act(Grant, MoveHeld(pc.plan, pc.left, pc.hand), s);
  }

  lemma LandingStep(s0: State, c: nat, k: nat, s: State, e: Event)
    requires Going(s0, c, k, s, e) && s.pc[c].MoveHeld? && |s.queues[s.pc[c].plan.dst]| < CAPACITY
    ensures HandlerAct(s0, c, k, ActOf(s, c, e))
  {
    var d1, pc := AfterSwitch(PlacementOf(s0), c), s.pc[c];
    assert ActOf(s, c, e) == LandAct(s, pc.plan, pc.left, pc.hand);
    LandedPhase(d1, c, k, pc.plan, pc.left, PlacementOf(s), pc.hand, s.queues[pc.plan.dst] + [pc.hand]);
  }

  lemma SettledStep(s0: State, c: nat, k: nat, s: State, e: Event)
    requires Going(s0, c, k, s, e) && (Settled(s.pc[c]) || s.pc[c].DropLow? || s.pc[c].Returning?)
    ensures HandlerAct(s0, c, k, ActOf(s, c, e))
  {
    LeavingStep(s, c, e);
    PhaseLeaves(c, k, Partner(s0, c, k), PlacementOf(s0), AfterSwitch(PlacementOf(s0), c), AfterHandler(s0, c, k),
                s.pc[c], ActOf(s, c, e).to, PlacementOf(s));
  }

  predicate Leaves(pc: Pc, to: Pc)
  {
    || (Settled(pc) && (Settled(to) || to.DropLow?))
    || (pc.DropLow? && to.Returning?)
    || (pc.Returning? && to.Open?)
  }

  lemma PhaseLeaves(c: nat, k: nat, partner: bool, d0: Placement, d1: Placement, d2: Placement,
                    pc: Pc, to: Pc, d: Placement)
    requires PhaseOf(c, k, partner, d0, d1, d2, pc, d) && Leaves(pc, to)
    ensures PhaseOf(c, k, partner, d0, d1, d2, to, d)
  {
  }

  /** Leaving the handler changes no data. */
  lemma LeavingStep(s: State, c: nat, e: Event)
    requires Active(s, c) && Enabled(s, c, e) && (e.Advance? || e.Pick?)
    requires Settled(s.pc[c]) || s.pc[c].DropLow? || s.pc[c].Returning?
    ensures ActOf(s, c, e).data == s && Leaves(s.pc[c], ActOf(s, c, e).to)
  {
  }

  lemma HandlerActStep(s0: State, c: nat, k: nat, s: State, e: Event)
    requires Going(s0, c, k, s, e) && |s.queues[c]| <= CAPACITY
    requires s.pc[c].MoveHeld? ==> |s.queues[s.pc[c].plan.dst]| < CAPACITY
    ensures HandlerAct(s0, c, k, ActOf(s, c, e))
  {
    var pc := s.pc[c];
    if pc.SwitchSpin? || pc.SwitchHeld? || pc.Picking? || pc.PickSpin? {
      SwitchingStep(s0, c, k, s, e);
    } else if pc.PickHeld? {
      PickedStep(s0, c, k, s, e);
    } else if pc.Comparing? {
      ComparingStep(s0, c, k, s, e);
    } else if Locking(pc) {
      LockingStep(s0, c, k, s, e);
    } else if pc.MoveHeld? {
      LandingStep(s0, c, k, s, e);
    } else if pc.MoveSpin? {
      CarryingStep(s0, c, k, s, e);
    } else if pc.Moving? && pc.left == 0 {
      LoopEndStep(s0, c, k, s, e);
    } else if pc.Moving? {
      TakingStep(s0, c, k, s, e);
    } else {
      SettledStep(s0, c, k, s, e);
    }
  }

  /** The handler touches neither the registry nor what threads remember. */
  lemma HandlerDataKept(s: State, c: nat, e: Event)
    requires Active(s, c) && Enabled(s, c, e) && (e.Advance? || e.Pick?) && InHandler(s.pc[c])
    ensures var d := ActOf(s, c, e).data; d.online == s.online && d.local == s.local && d.nextId == s.nextId
  {
  }

  lemma RoomToLand(s: State, c: nat)
    requires Inv(s) && c < |s.pc|
    ensures |s.queues[c]| <= CAPACITY
    ensures s.pc[c].MoveHeld? ==> s.pc[c].plan.dst < |s.queues| && |s.queues[s.pc[c].plan.dst]| < CAPACITY
  {
    QueuesFit(s, c);
    if s.pc[c].MoveHeld? {
      assert Relies(c, s.pc[c], s.queues, s.table, s.local);
      assert |InHand(s.pc[c])| > 0;
      QueuesFit(s, s.pc[c].plan.dst);
    }
  }

  lemma GoingFrom(s0: State, c: nat, k: nat, s: State, e: Event)
    requires Shape(s0) && c < |s0.pc| && Inv(s) && Handles(s0, c, k, s)
    requires Enabled(s, c, e) && (e == Advance || e == Pick(k))
    ensures Going(s0, c, k, s, e)
  {
    assert CpuWf(s, c) && Active(s, c);
    PhaseInHandler(c, k, Partner(s0, c, k), PlacementOf(s0), AfterSwitch(PlacementOf(s0), c), AfterHandler(s0, c, k),
                   s.pc[c], PlacementOf(s));
  }

  lemma PhaseInHandler(c: nat, k: nat, partner: bool, d0: Placement, d1: Placement, d2: Placement,
                       pc: Pc, d: Placement)
    requires PhaseOf(c, k, partner, d0, d1, d2, pc, d) && !pc.Open?
    ensures InHandler(pc)
  {
  }

  lemma HandlesNext(s0: State, c: nat, k: nat, s: State, e: Event)
    requires Going(s0, c, k, s, e) && Handles(s0, c, k, s) && HandlerAct(s0, c, k, ActOf(s, c, e))
    ensures Handles(s0, c, k, Next(s, c, e))
  {
    EffectFrame(s, c, ActOf(s, c, e));
    HandlerDataKept(s, c, e);
  }

  lemma HandlerStep(s0: State, c: nat, k: nat, s: State, e: Event)
    requires Shape(s0) && c < |s0.pc| && Inv(s) && Handles(s0, c, k, s)
    requires Enabled(s, c, e) && (e == Advance || e == Pick(k))
    ensures CpuWf(s, c) && Inv(Next(s, c, e)) && Handles(s0, c, k, Next(s, c, e))
  {
    StepKeepsInv(s, c, e);
    GoingFrom(s0, c, k, s, e);
    RoomToLand(s, c);
    HandlerActStep(s0, c, k, s, e);
    HandlesNext(s0, c, k, s, e);
  }

  lemma {:induction false} HandlerRun(s0: State, c: nat, k: nat, s: State, labels: seq<Label>)
    requires Shape(s0) && c < |s0.pc| && Inv(s) && Handles(s0, c, k, s) && CanRun(s, labels) && GoesOn(labels, c, k)
    ensures Inv(After(s, labels)) && Handles(s0, c, k, After(s, labels))
    decreases |labels|
  {
    if labels != [] {
      var e := labels[0].event;
      FirstOfRun(s, labels, c, k);
      HandlerStep(s0, c, k, s, e);
      HandlerRun(s0, c, k, Next(s, c, e), labels[1..]);
    }
  }

  lemma HandlerBegins(s: State, c: nat, k: nat)
    requires Inv(s) && Quiescent(s) && c < |s.pc| && Enabled(s, c, Timer)
    ensures CpuWf(s, c) && Inv(Next(s, c, Timer)) && Handles(s, c, k, Next(s, c, Timer))
  {
    AloneStep(s, c, Timer);
    EffectFrame(s, c, ActOf(s, c, Timer));
  }

  /** The handler keeps a CPU that is past its boot code past it. */
  lemma HandlerEnds(s0: State, c: nat, k: nat, s: State)
    requires Inv(s0) && Quiescent(s0) && c < |s0.pc| && s0.irq[c] && Inv(s) && Handles(s0, c, k, s) && s.pc[c].Open?
    ensures var d := AfterHandler(s0, c, k); s == s0.(cur := d.cur, queues := d.queues, table := d.table)
  {
    EndPlacement(s0, c, k, s);
    NotBoot(s0, c, k);
    QuietAlike(s0, s);
  }

  lemma EndPlacement(s0: State, c: nat, k: nat, s: State)
    requires Shape(s0) && c < |s0.pc| && Handles(s0, c, k, s) && s.pc[c].Open?
    ensures PlacementOf(s) == AfterHandler(s0, c, k)
    ensures |s.pc| == |s0.pc| && s.online == s0.online && s.local == s0.local && s.nextId == s0.nextId
    ensures Quiescent(s)
  {
  }

  lemma NotBoot(s: State, c: nat, k: nat)
    requires Inv(s) && c < |s.pc| && s.irq[c]
    ensures var cur := AfterHandler(s, c, k).cur;
            |cur| == |s.cur| && forall o :: 0 <= o < |s.cur| ==> cur[o].Boot? == s.cur[o].Boot?
  {
    assert CpuWf(s, c);
    if s.queues[c] != [] {
      assert s.queues[c][0] in s.queues[c];
    }
  }

  /** The timer handler alone: from any quiet state with interrupts enabled, a timer interrupt and
      the handler's run to its end, drawing CPU number `k`, leave exactly the state in which the
      switch was made and then, if `k` is another CPU that is online, the balance with it. */
  lemma HandlerAlone(s: State, c: nat, k: nat, labels: seq<Label>)
    requires Inv(s) && Quiescent(s) && c < |s.pc| && s.irq[c]
    requires CanRun(s, [Label(c, Timer)] + labels) && GoesOn(labels, c, k)
    ensures var s', d := After(s, [Label(c, Timer)] + labels), AfterHandler(s, c, k);
            c < |s'.pc| && (s'.pc[c].Open? ==> s' == s.(cur := d.cur, queues := d.queues, table := d.table))
  {
    assert ([Label(c, Timer)] + labels)[1..] == labels;
    HandlerBegins(s, c, k);
    HandlerRun(s, c, k, Next(s, c, Timer), labels);
    var s' := After(Next(s, c, Timer), labels);
    if s'.pc[c].Open? {
      HandlerEnds(s, c, k, s');
    }
  }

  /** ... and the handler always can run to its end. */
  lemma HandlerFinishes(s: State, c: nat, k: nat) returns (labels: seq<Label>)
    requires Inv(s) && Quiescent(s) && c < |s.pc| && s.irq[c]
    ensures CanRun(s, [Label(c, Timer)] + labels) && GoesOn(labels, c, k)
    ensures var d := AfterHandler(s, c, k);
            After(s, [Label(c, Timer)] + labels) == s.(cur := d.cur, queues := d.queues, table := d.table)
  {
    AloneStep(s, c, Timer);
    labels := FinishesAlone(Next(s, c, Timer), c, k);
    RunFrom(s, c, Timer, labels);
    HandlerAlone(s, c, k, labels);
  }
}
