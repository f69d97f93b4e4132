/**
 Load balancing is atomic: from the comparison of the two queue lengths to the release of the two
 queue locks, whatever other CPUs do in between, the two queues go from their old contents to
 what one balance on sequences computes.
 */
module Atomicity {
  import opened SchedSpec
  import opened Machine
  import opened LockDiscipline
  import opened SchedInvariant
  import opened SchedSteps
  import opened SchedTheorems
  import opened Fairness

  // ---------------------------------------------------------------- other CPUs

  /** A step writes a queue only under its lock. */
  lemma WritesUnderLock(s: State, o: nat, e: Event, q: nat)
    requires Active(s, o) && Enabled(s, o, e) && q < |s.queues| && QueueLock(q) !in Held(s.pc[o], o)
    ensures ActOf(s, o, e).data.queues[q] == s.queues[q]
  {
    if Takes(s, o, e) || Lands(s, o, e) {
      var h := Held(s.pc[o], o);
      assert h[0] in h && h[1] in h;
    } else if !Switches(s, o, e) && !Readies(s, o, e) {
      OtherActs(s, o, e);
    }
  }

  /** While a CPU holds a queue's lock, no other CPU changes the queue or that CPU's place. */
  lemma OthersKeepQueue(s: State, c: nat, o: nat, e: Event, q: nat)
    requires Inv(s) && Enabled(s, o, e) && o != c && q < |s.queues| && Holds(s, c, QueueLock(q))
    ensures CpuWf(s, o)
    ensures var s' := Next(s, o, e); |s'.queues| == |s.queues| && s'.queues[q] == s.queues[q]
  {
    assert CpuWf(s, o) && Active(s, o);
    if Holds(s, o, QueueLock(q)) {
      MutexAt(s, c, o, QueueLock(q));
      assert false;
    }
    WritesUnderLock(s, o, e, q);
    EffectFrame(s, o, ActOf(s, o, e));
  }

  lemma OthersKeepPlace(s: State, c: nat, o: nat, e: Event)
    requires Inv(s) && Enabled(s, o, e) && o != c && c < |s.pc|
    ensures CpuWf(s, o)
    ensures var s' := Next(s, o, e); |s'.pc| == |s.pc| && |s'.queues| == |s.queues| && s'.pc[c] == s.pc[c]
  {
    assert CpuWf(s, o);
    EffectFrame(s, o, ActOf(s, o, e));
  }

  // ---------------------------------------------------------------- the balancer

  /** Queues `lo` and `hi` held `a` and `b` when this plan was made. */
  predicate MadeFrom(p: Plan, lo: nat, hi: nat, a: seq<Addr>, b: seq<Addr>)
  {
    || (p.src == lo && p.dst == hi && p.srcOld == a && p.dstOld == b)
    || (p.src == hi && p.dst == lo && p.srcOld == b && p.dstOld == a)
  }

  predicate Moves(pc: Pc) { pc.Moving? || pc.MoveSpin? || pc.MoveHeld? }

  /** Both queues are still locked and nothing is left to be moved. */
  predicate Settled(pc: Pc) { pc.LogSpin? || pc.LogHeld? || pc.DropHigh? }

  /** Done with balancing, until the next timer interrupt. */
  predicate Past(pc: Pc) { pc.DropLow? || pc.Returning? || !InHandler(pc) }

  /** The balancer found `a` and `b` in the queues `lo` and `hi`, which now hold `qa` and `qb`. */
  predicate Tracks(pc: Pc, lo: nat, hi: nat, a: seq<Addr>, b: seq<Addr>, qa: seq<Addr>, qb: seq<Addr>)
  {
    || Past(pc)
    || (pc == Comparing(lo, hi) && qa == a && qb == b)
    || (Moves(pc) && MadeFrom(pc.plan, lo, hi, a, b))
    || (Settled(pc) && pc.lo == lo && pc.hi == hi && (qa, qb) == BalanceSpec(a, b))
  }

  /** The moving loop has computed the balance. */
  lemma PlanDone(p: Plan, queues: seq<seq<Addr>>, lo: nat, hi: nat, a: seq<Addr>, b: seq<Addr>)
    requires PlanOk(p, 0, queues) && MadeFrom(p, lo, hi, a, b)
    ensures (queues[lo], queues[hi]) == BalanceSpec(a, b)
  {
  }

  lemma NothingToMove(a: seq<Addr>, b: seq<Addr>)
    requires ToMove(|a|, |b|) == 0
    ensures BalanceSpec(a, b) == (a, b)
  {
    assert a[0..] == a && b[0..] == b && a + b[..0] == a && b + a[..0] == b;
  }

  lemma ComparingTracks(s: State, c: nat, lo: nat, hi: nat)
    requires Shape(s) && OwnPair(|s.pc|, c, lo, hi)
    ensures var act := CompareAct(s, c, lo, hi);
            && act.data == s
            && Tracks(act.to, lo, hi, s.queues[lo], s.queues[hi], s.queues[lo], s.queues[hi])
  {
    if ToMove(|s.queues[lo]|, |s.queues[hi]|) == 0 {
      NothingToMove(s.queues[lo], s.queues[hi]);
    }
  }

  lemma MovingTracks(s: State, c: nat, lo: nat, hi: nat, a: seq<Addr>, b: seq<Addr>)
    requires Active(s, c) && Enabled(s, c, Advance) && Moves(s.pc[c])
    requires MadeFrom(s.pc[c].plan, lo, hi, a, b) && lo < hi
    ensures var act := ActOf(s, c, Advance);
            && lo < |s.queues| && hi < |s.queues|
            && Tracks(act.to, lo, hi, a, b, act.data.queues[lo], act.data.queues[hi])
  {
    var pc := s.pc[c];
    if pc.Moving? && pc.left == 0 {
      PlanDone(pc.plan, s.queues, lo, hi, a, b);
    }
  }

  lemma SettledTracks(s: State, c: nat)
    requires Active(s, c) && Enabled(s, c, Advance) && Settled(s.pc[c])
    ensures var act := ActOf(s, c, Advance);
            && act.data == s
            && (Past(act.to) || (Settled(act.to) && act.to.lo == s.pc[c].lo && act.to.hi == s.pc[c].hi))
  {
  }

  lemma PastTracks(s: State, c: nat, e: Event)
    requires Active(s, c) && Enabled(s, c, e) && Past(s.pc[c]) && !e.Timer?
    ensures Past(ActOf(s, c, e).to)
  {
  }

  ghost predicate TracksIn(s: State, c: nat, lo: nat, hi: nat, a: seq<Addr>, b: seq<Addr>)
  {
    && c < |s.pc| && lo < hi < |s.queues|
    && Tracks(s.pc[c], lo, hi, a, b, s.queues[lo], s.queues[hi])
  }

  lemma OwnStepTracks(s: State, c: nat, e: Event, lo: nat, hi: nat, a: seq<Addr>, b: seq<Addr>)
    requires Active(s, c) && Enabled(s, c, e) && !e.Timer? && TracksIn(s, c, lo, hi, a, b)
    ensures TracksIn(Next(s, c, e), c, lo, hi, a, b)
  {
    EffectFrame(s, c, ActOf(s, c, e));
    if Past(s.pc[c]) {
      PastTracks(s, c, e);
    } else if Moves(s.pc[c]) {
      MovingTracks(s, c, lo, hi, a, b);
    } else if Settled(s.pc[c]) {
      SettledTracks(s, c);
    } else {
      ComparingTracks(s, c, lo, hi);
    }
  }

  lemma HeldPair(pc: Pc, c: nat, lo: nat, hi: nat)
    requires pc == Comparing(lo, hi) || (Settled(pc) && pc.lo == lo && pc.hi == hi)
    ensures QueueLock(lo) in Held(pc, c) && QueueLock(hi) in Held(pc, c)
  {
    var h := Held(pc, c);
    assert h[0] in h && h[1] in h;
  }

  lemma OtherStepTracks(s: State, c: nat, o: nat, e: Event, lo: nat, hi: nat, a: seq<Addr>, b: seq<Addr>)
    requires Inv(s) && Enabled(s, o, e) && o != c && TracksIn(s, c, lo, hi, a, b)
    ensures CpuWf(s, o) && TracksIn(Next(s, o, e), c, lo, hi, a, b)
  {
    OthersKeepPlace(s, c, o, e);
    if s.pc[c] == Comparing(lo, hi) || Settled(s.pc[c]) {
      HeldPair(s.pc[c], c, lo, hi);
      OthersKeepQueue(s, c, o, e, lo);
      OthersKeepQueue(s, c, o, e, hi);
    }
  }

  lemma {:induction false} RunTracks(s: State, labels: seq<Label>, c: nat, lo: nat, hi: nat, a: seq<Addr>, b: seq<Addr>)
    requires Inv(s) && CanRun(s, labels) && TracksIn(s, c, lo, hi, a, b)
    requires Label(c, Timer) !in labels
    ensures TracksIn(After(s, labels), c, lo, hi, a, b)
    decreases |labels|
  {
    if labels != [] {
      var o, e := labels[0].cpu, labels[0].event;
      assert labels[0] in labels;
      if o == c {
        assert CpuWf(s, c) && Active(s, c);
        OwnStepTracks(s, c, e, lo, hi, a, b);
      } else {
        OtherStepTracks(s, c, o, e, lo, hi, a, b);
      }
      StepKeepsInv(s, o, e);
      RunTracks(Next(s, o, e), labels[1..], c, lo, hi, a, b);
    }
  }

  lemma PairInRange(s: State, c: nat, lo: nat, hi: nat)
    requires Inv(s) && c < |s.pc| && s.pc[c] == Comparing(lo, hi)
    ensures lo < hi < |s.queues|
  {
    assert CpuWf(s, c);
  }

  lemma TracksToTheEnd(s: State, c: nat, lo: nat, hi: nat, a: seq<Addr>, b: seq<Addr>)
    requires Inv(s) && TracksIn(s, c, lo, hi, a, b)
    requires Settled(s.pc[c]) || (s.pc[c].Moving? && s.pc[c].left == 0)
    ensures (s.queues[lo], s.queues[hi]) == BalanceSpec(a, b)
  {
    if s.pc[c].Moving? {
      assert Relies(c, s.pc[c], s.queues, s.table, s.local);
      PlanDone(s.pc[c].plan, s.queues, lo, hi, a, b);
    }
  }

  /** Load balancing is atomic: take any state in which a CPU has locked the queues `lo` and `hi` and
      is about to compare them, and any run from there without a new timer interrupt on that CPU.
      When its moving loop is over, and until the first queue lock is dropped, the two queues hold
      what one balance computes from their contents at the comparison. */
  lemma BalanceIsAtomic(s0: State, c: nat, lo: nat, hi: nat, labels: seq<Label>)
    requires Reachable(s0) && c < |s0.pc| && s0.pc[c] == Comparing(lo, hi)
    requires CanRun(s0, labels) && Label(c, Timer) !in labels
    ensures var s := After(s0, labels);
            && c < |s.pc| && lo < |s0.queues| && hi < |s0.queues| && lo < |s.queues| && hi < |s.queues|
            && (Settled(s.pc[c]) || (s.pc[c].Moving? && s.pc[c].left == 0) ==>
                  (s.queues[lo], s.queues[hi]) == BalanceSpec(s0.queues[lo], s0.queues[hi]))
  {
    ReachableInv(s0);
    PairInRange(s0, c, lo, hi);
    RunTracks(s0, labels, c, lo, hi, s0.queues[lo], s0.queues[hi]);
    RunKeepsInv(s0, labels);
    var s := After(s0, labels);
    if Settled(s.pc[c]) || (s.pc[c].Moving? && s.pc[c].left == 0) {
      TracksToTheEnd(s, c, lo, hi, s0.queues[lo], s0.queues[hi]);
    }
  }
}
