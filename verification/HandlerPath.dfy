/**
 Every pass through the timer handler, whatever other CPUs do in the meantime: it switches exactly
 once, and it compares its queue with that of the CPU drawn exactly once if that is another CPU
 that is online, and never otherwise.
 */
module HandlerPath {
  import opened SchedSpec
  import opened Machine
  import opened SchedInvariant
  import opened SchedSteps
  import opened SchedTheorems
  import opened Atomicity
  import opened Starvation
  import opened HandlerRuns

  predicate ComparesQueues(s: State, c: nat, e: Event) { c < |s.pc| && e.Advance? && s.pc[c].Comparing? }

  /** How often CPU `c` compares queues in a run; with `k` alone, or with anybody. */
  ghost function Comparisons(s: State, labels: seq<Label>, c: nat, k: nat, anybody: bool): nat
    requires CanRun(s, labels)
    decreases |labels|
  {
    if labels == [] then 0
    else
      var l := labels[0];
      (if Counted(s, l, c, k, anybody) then 1 else 0)
      + Comparisons(Next(s, l.cpu, l.event), labels[1..], c, k, anybody)
  }

  predicate Counted(s: State, l: Label, c: nat, k: nat, anybody: bool)
  {
    l.cpu == c && ComparesQueues(s, c, l.event) && (anybody || Pair(s.pc[c].lo, s.pc[c].hi, c, k))
  }

  /** CPU `c` takes no new interrupt or call and draws `k`; other CPUs do anything. */
  predicate OneHandler(labels: seq<Label>, c: nat, k: nat)
  {
    forall i :: 0 <= i < |labels| && labels[i].cpu == c ==> labels[i].event == Advance || labels[i].event == Pick(k)
  }

  function SwitchesToGo(pc: Pc): nat { if pc.SwitchSpin? || pc.SwitchHeld? then 1 else 0 }

  function ComparisonsToGo(pc: Pc): nat
  {
    if pc.SwitchSpin? || pc.SwitchHeld? || pc.Picking? || pc.PickSpin? || pc.PickHeld? || Locking(pc) then 1 else 0
  }

  /** On the way to a comparison with `k`, or past it. */
  predicate OnPath(pc: Pc, c: nat, k: nat)
  {
    && (InHandler(pc) || pc.Open?)
    && (pc.PickSpin? || pc.PickHeld? ==> pc.choice == k)
    && (Locking(pc) ==> Pair(pc.lo, pc.hi, c, k))
  }

  /** From one point of the path to the next; `partner` says whether the CPU drawn can be a partner. */
  predicate Along(pc: Pc, to: Pc, c: nat, k: nat, partner: bool)
  {
    && OnPath(to, c, k)
    && SwitchesToGo(pc) == (if pc.SwitchHeld? then 1 else 0) + SwitchesToGo(to)
    && (partner ==> ComparisonsToGo(pc) == (if pc.Comparing? then 1 else 0) + ComparisonsToGo(to))
    && (!partner && !Locking(pc) ==> !Locking(to))
  }

  lemma PickedPath(s: State, c: nat, k: nat)
    requires Shape(s)
    ensures Along(PickHeld(k), PickedAct(s, c, k).to, c, k, Partner(s, c, k))
  {
  }

  lemma ComparedPath(s: State, c: nat, k: nat, lo: nat, hi: nat)
    requires Shape(s) && OwnPair(|s.pc|, c, lo, hi)
    ensures Along(Comparing(lo, hi), CompareAct(s, c, lo, hi).to, c, k, Partner(s, c, k))
  {
  }

  lemma SwitchedPath(s: State, c: nat, k: nat)
    requires Shape(s) && c < |s.pc| && !SwitchAct(s, c).to.Panicked?
    ensures Along(SwitchHeld, SwitchAct(s, c).to, c, k, Partner(s, c, k))
  {
  }

  lemma GrantedPath(pc: Pc, c: nat, k: nat, partner: bool)
    requires OnPath(pc, c, k) && Wanted(pc, c).Some?
    ensures Along(pc, Granted(pc), c, k, partner)
  {
  }

  lemma PlainPath(s: State, c: nat, k: nat)
    requires Active(s, c) && s.want[c].None? && InHandler(s.pc[c]) && OnPath(s.pc[c], c, k) && !s.pc[c].Picking?
    requires !s.pc[c].PickHeld? && !s.pc[c].Comparing? && !s.pc[c].SwitchHeld? && !HandlerWork(s, c).to.Panicked?
    ensures Along(s.pc[c], HandlerWork(s, c).to, c, k, Partner(s, c, k))
  {
  }

  /** One step of the handler along its path. */
  lemma PathStep(s: State, c: nat, k: nat, e: Event)
    requires Active(s, c) && Enabled(s, c, e) && (e == Advance || e == Pick(k)) && OnPath(s.pc[c], c, k)
    requires !ActOf(s, c, e).to.Panicked?
    ensures Along(s.pc[c], ActOf(s, c, e).to, c, k, Partner(s, c, k))
  {
    var pc := s.pc[c];
    if e.Advance? && s.want[c].Some? {
      GrantedPath(pc, c, k, Partner(s, c, k));
    } else if pc.PickHeld? {
      PickedPath(s, c, k);
    } else if pc.Comparing? {
      ComparedPath(s, c, k, pc.lo, pc.hi);
    } else if pc.SwitchHeld? {
      SwitchedPath(s, c, k);
    } else if !pc.Picking? {
      PlainPath(s, c, k);
    }
  }

  // ---------------------------------------------------------------- reporting

  function ReportsToGo(pc: Pc): nat { if Moves(pc) || pc.LogSpin? || pc.LogHeld? then 1 else 0 }

  /** This step decides to move threads. */
  predicate Decides(s: State, c: nat, e: Event)
  {
    ComparesQueues(s, c, e) && Shape(s) && OwnPair(|s.pc|, c, s.pc[c].lo, s.pc[c].hi)
    && ToMove(|s.queues[s.pc[c].lo]|, |s.queues[s.pc[c].hi]|) > 0
  }

  /** This step prints the report of a balance. */
  predicate Reports(s: State, c: nat, e: Event) { c < |s.pc| && e.Advance? && s.pc[c].LogHeld? }

  lemma ReportStep(s: State, c: nat, e: Event)
    requires Active(s, c) && Enabled(s, c, e)
    ensures ReportsToGo(s.pc[c]) + (if Decides(s, c, e) then 1 else 0)
            == (if Reports(s, c, e) then 1 else 0) + ReportsToGo(ActOf(s, c, e).to)
            || ActOf(s, c, e).to.Panicked?
  {
    if ComparesQueues(s, c, e) {
      DecisionStep(s, c, s.pc[c].lo, s.pc[c].hi);
    } else {
      ReportStepElsewhere(s, c, e);
    }
  }

  lemma DecisionStep(s: State, c: nat, lo: nat, hi: nat)
    requires Shape(s) && OwnPair(|s.pc|, c, lo, hi)
    ensures ReportsToGo(CompareAct(s, c, lo, hi).to) == if ToMove(|s.queues[lo]|, |s.queues[hi]|) > 0 then 1 else 0
  {
  }

  lemma ReportStepElsewhere(s: State, c: nat, e: Event)
    requires Active(s, c) && Enabled(s, c, e) && !ComparesQueues(s, c, e)
    ensures ReportsToGo(s.pc[c]) == (if Reports(s, c, e) then 1 else 0) + ReportsToGo(ActOf(s, c, e).to)
            || ActOf(s, c, e).to.Panicked?
  {
  }

  /** Decisions to move threads, and reports, of CPU `c` in a run. */
  ghost function Decisions(s: State, labels: seq<Label>, c: nat): nat
    requires CanRun(s, labels)
    decreases |labels|
  {
    if labels == [] then 0
    else
      var l := labels[0];
      (if l.cpu == c && Decides(s, c, l.event) then 1 else 0) + Decisions(Next(s, l.cpu, l.event), labels[1..], c)
  }

  ghost function ReportsOf(s: State, labels: seq<Label>, c: nat): nat
    requires CanRun(s, labels)
    decreases |labels|
  {
    if labels == [] then 0
    else
      var l := labels[0];
      (if l.cpu == c && Reports(s, c, l.event) then 1 else 0) + ReportsOf(Next(s, l.cpu, l.event), labels[1..], c)
  }

  lemma AnyReportStep(s: State, o: nat, e: Event, c: nat)
    requires Inv(s) && Enabled(s, o, e) && c < |s.pc|
    ensures CpuWf(s, o)
    ensures var s' := Next(s, o, e);
            && Inv(s') && |s'.pc| == |s.pc|
            && ReportsToGo(s.pc[c]) + (if o == c && Decides(s, c, e) then 1 else 0)
               == (if o == c && Reports(s, c, e) then 1 else 0) + ReportsToGo(s'.pc[c])
  {
    StepKeepsInv(s, o, e);
    assert Active(s, o);
    EffectFrame(s, o, ActOf(s, o, e));
    if o == c {
      ReportStep(s, c, e);
    }
  }

  /** The balancer prints a line, under the console's lock, for every balance that moves threads and
      for no other, in every run. */
  lemma {:induction false} ReportsEveryMove(s: State, labels: seq<Label>, c: nat)
    requires Inv(s) && c < |s.pc| && CanRun(s, labels)
    ensures c < |After(s, labels).pc|
    ensures ReportsToGo(s.pc[c]) + Decisions(s, labels, c)
            == ReportsOf(s, labels, c) + ReportsToGo(After(s, labels).pc[c])
    decreases |labels|
  {
    if labels != [] {
      var o, e := labels[0].cpu, labels[0].event;
      AnyReportStep(s, o, e, c);
      ReportsEveryMove(Next(s, o, e), labels[1..], c);
    }
  }

  // ---------------------------------------------------------------- whole passes

  /** CPUs only ever go online. */
  lemma OnlineGrows(s: State, c: nat, e: Event)
    requires Active(s, c) && Enabled(s, c, e)
    ensures s.online <= ActOf(s, c, e).data.online
  {
  }

  lemma AnyStep(s: State, o: nat, e: Event, c: nat, k: nat)
    requires Inv(s) && Enabled(s, o, e) && c < |s.pc| && OnPath(s.pc[c], c, k)
    requires o == c ==> e == Advance || e == Pick(k)
    ensures CpuWf(s, o)
    ensures var s' := Next(s, o, e);
            && Inv(s') && |s'.pc| == |s.pc| && s.online <= s'.online
            && if o == c then Along(s.pc[c], s'.pc[c], c, k, Partner(s, c, k)) else s'.pc[c] == s.pc[c]
  {
    StepKeepsInv(s, o, e);
    assert Active(s, o);
    EffectFrame(s, o, ActOf(s, o, e));
    OnlineGrows(s, o, e);
    if o == c {
      PathStep(s, c, k, e);
    }
  }

  lemma FirstOfHandler(s: State, labels: seq<Label>, c: nat, k: nat)
    requires CanRun(s, labels) && labels != [] && OneHandler(labels, c, k)
    ensures var o, e := labels[0].cpu, labels[0].event;
            && Wf(s) && Enabled(s, o, e) && CpuWf(s, o) && (o == c ==> e == Advance || e == Pick(k))
            && CanRun(Next(s, o, e), labels[1..]) && OneHandler(labels[1..], c, k)
            && After(s, labels) == After(Next(s, o, e), labels[1..])
  {
  }

  lemma {:induction false} SwitchesOnce(s: State, labels: seq<Label>, c: nat, k: nat)
    requires Inv(s) && c < |s.pc| && CanRun(s, labels) && OneHandler(labels, c, k) && OnPath(s.pc[c], c, k)
    ensures c < |After(s, labels).pc|
    ensures SwitchesOn(s, labels, c) + SwitchesToGo(After(s, labels).pc[c]) == SwitchesToGo(s.pc[c])
    decreases |labels|
  {
    if labels != [] {
      var o, e := labels[0].cpu, labels[0].event;
      FirstOfHandler(s, labels, c, k);
      AnyStep(s, o, e, c, k);
      SwitchesOnce(Next(s, o, e), labels[1..], c, k);
    }
  }

  lemma CountedOnPath(s: State, l: Label, c: nat, k: nat, anybody: bool)
    requires Shape(s) && c < |s.pc| && OnPath(s.pc[c], c, k) && Enabled(s, l.cpu, l.event)
    requires l.cpu == c ==> l.event == Advance || l.event == Pick(k)
    ensures Counted(s, l, c, k, anybody) <==> l.cpu == c && s.pc[c].Comparing?
  {
  }

  lemma {:induction false} ComparesOnce(s: State, labels: seq<Label>, c: nat, k: nat, anybody: bool)
    requires Inv(s) && c < |s.pc| && CanRun(s, labels) && OneHandler(labels, c, k) && OnPath(s.pc[c], c, k)
    requires Partner(s, c, k)
    ensures c < |After(s, labels).pc|
    ensures Comparisons(s, labels, c, k, anybody) + ComparisonsToGo(After(s, labels).pc[c])
            == ComparisonsToGo(s.pc[c])
    decreases |labels|
  {
    if labels != [] {
      var o, e := labels[0].cpu, labels[0].event;
      FirstOfHandler(s, labels, c, k);
      AnyStep(s, o, e, c, k);
      CountedOnPath(s, labels[0], c, k, anybody);
      ComparesOnce(Next(s, o, e), labels[1..], c, k, anybody);
    }
  }

  lemma {:induction false} OnlineOnlyGrows(s: State, labels: seq<Label>)
    requires Inv(s) && CanRun(s, labels)
    ensures s.online <= After(s, labels).online && |After(s, labels).pc| == |s.pc|
    decreases |labels|
  {
    if labels != [] {
      var o, e := labels[0].cpu, labels[0].event;
      StepKeepsInv(s, o, e);
      assert Active(s, o);
      EffectFrame(s, o, ActOf(s, o, e));
      OnlineGrows(s, o, e);
      OnlineOnlyGrows(Next(s, o, e), labels[1..]);
    }
  }

  lemma {:induction false} ComparesNever(s: State, labels: seq<Label>, c: nat, k: nat)
    requires Inv(s) && c < |s.pc| && CanRun(s, labels) && OneHandler(labels, c, k) && OnPath(s.pc[c], c, k)
    requires !Locking(s.pc[c]) && !Partner(After(s, labels), c, k)
    ensures Comparisons(s, labels, c, k, true) == 0
    decreases |labels|
  {
    if labels != [] {
      var o, e := labels[0].cpu, labels[0].event;
      OnlineOnlyGrows(s, labels);
      FirstOfHandler(s, labels, c, k);
      AnyStep(s, o, e, c, k);
      CountedOnPath(s, labels[0], c, k, true);
      ComparesNever(Next(s, o, e), labels[1..], c, k);
    }
  }

  lemma TimerTrap(s: State, c: nat)
    requires Reachable(s) && c < |s.pc| && Shape(s) && Enabled(s, c, Timer) && CpuWf(s, c)
    ensures var s1 := Next(s, c, Timer);
            Inv(s1) && |s1.pc| == |s.pc| && s1.online == s.online && s1.pc[c].SwitchSpin?
  {
    ReachableInv(s);
    StepKeepsInv(s, c, Timer);
    EffectFrame(s, c, ActOf(s, c, Timer));
  }

  /** A timer interrupt anywhere, at any time: on the way back to thread code the CPU switches exactly
      once. If the CPU drawn was online and another one, it compares queues exactly once, and that
      with the CPU drawn; if that is not so even at the end, it compares none. */
  lemma EveryHandler(s: State, c: nat, k: nat, labels: seq<Label>)
    requires Reachable(s) && c < |s.pc| && Shape(s) && Enabled(s, c, Timer) && CpuWf(s, c)
    requires CanRun(Next(s, c, Timer), labels) && OneHandler(labels, c, k)
    ensures var s1, s2 := Next(s, c, Timer), After(Next(s, c, Timer), labels);
            c < |s2.pc| && (s2.pc[c].Open? ==>
              && SwitchesOn(s1, labels, c) == 1
              && (Partner(s, c, k) ==> Comparisons(s1, labels, c, k, false) == Comparisons(s1, labels, c, k, true) == 1)
              && (!Partner(s2, c, k) ==> Comparisons(s1, labels, c, k, true) == 0))
  {
    TimerTrap(s, c);
    ToTheEnd(Next(s, c, Timer), c, k, labels);
  }

  lemma ToTheEnd(s: State, c: nat, k: nat, labels: seq<Label>)
    requires Inv(s) && c < |s.pc| && s.pc[c].SwitchSpin? && CanRun(s, labels) && OneHandler(labels, c, k)
    ensures var s' := After(s, labels);
            c < |s'.pc| && (s'.pc[c].Open? ==>
              && SwitchesOn(s, labels, c) == 1
              && (Partner(s, c, k) ==> Comparisons(s, labels, c, k, false) == Comparisons(s, labels, c, k, true) == 1)
              && (!Partner(s', c, k) ==> Comparisons(s, labels, c, k, true) == 0))
  {
    SwitchesOnce(s, labels, c, k);
    if Partner(s, c, k) {
      ComparesOnce(s, labels, c, k, false);
      ComparesOnce(s, labels, c, k, true);
    }
    if !Partner(After(s, labels), c, k) {
      ComparesNever(s, labels, c, k);
    }
  }
}
