/** No ready thread waits forever while its CPU keeps switching. */
module Starvation {
  import opened SchedSpec
  import opened Machine
  import opened SchedInvariant
  import opened SchedSteps
  import opened SchedTheorems
  import opened Fairness

  /** Where a waiting thread is: at some place in a queue, or between two queues. */
  datatype Spot = At(queue: nat, ahead: nat) | Carried(carrier: nat)

  predicate Spotted(s: State, t: nat, spot: Spot)
  {
    match spot
    case At(q, i) => WaitsAt(s, t, q, i)
    case Carried(c) => c < |s.pc| && Carrying(s.pc[c]) && s.pc[c].hand == Task(t)
  }

  function Ahead(spot: Spot): nat { if spot.At? then spot.ahead else 0 }

  /** The step lets the thread at this spot run. */
  predicate Dispatches(s: State, c: nat, e: Event, spot: Spot)
  {
    Switches(s, c, e) && spot == At(c, 0)
  }

  /** The spot after a step that does not let the thread run. */
  function SpotAfter(s: State, c: nat, e: Event, spot: Spot): Spot
    requires Shape(s)
  {
    match spot
    case At(q, i) =>
      if Switches(s, c, e) && c == q && i > 0 then At(q, i - 1)
      else if Takes(s, c, e) && s.pc[c].plan.src == q then (if i > 0 then At(q, i - 1) else Carried(c))
      else spot
    case Carried(d) =>
      if Lands(s, c, e) && c == d && s.pc[c].plan.dst < |s.queues|
      then At(s.pc[c].plan.dst, |s.queues[s.pc[c].plan.dst]|)
      else spot
  }

  /** A switch as seen from one queue: its first element leaves, another may come to the end. */
  lemma PoppedAhead(q: seq<Addr>, q': seq<Addr>, x: Addr, i: nat)
    requires 0 < i < |q| && (q' == q[1..] || q' == q[1..] + [x])
    ensures i - 1 < |q'| && q'[i - 1] == q[i]
  {
  }

  lemma SwitchedSpot(s: State, s': State, c: nat, t: nat, spot: Spot)
    requires Shape(s) && c < |s.pc| && s.pc[c].SwitchHeld? && s.want[c].None? && Spotted(s, t, spot)
    requires var q := s.queues[c];
             && s'.pc == s.pc[c := Picking]
             && (q == [] ==> s'.cur == s.cur && s'.queues == s.queues)
             && (q != [] ==> s'.cur == s.cur[c := q[0]])
             && (q != [] && s.cur[c] == Idle(c) ==> s'.queues == s.queues[c := q[1..]])
             && (q != [] && s.cur[c] != Idle(c) ==> s'.queues == s.queues[c := q[1..] + [s.cur[c]]])
    ensures if spot == At(c, 0) then RunsOn(s', t, c) else Spotted(s', t, SpotAfter(s, c, Advance, spot))
  {
    if spot.At? && spot.queue == c && spot.ahead > 0 {
      PoppedAhead(s.queues[c], s'.queues[c], s.cur[c], spot.ahead);
    }
  }

  lemma SwitchMovesSpot(s: State, c: nat, t: nat, spot: Spot)
    requires Inv(s) && Enabled(s, c, Advance) && Active(s, c) && Switches(s, c, Advance) && Spotted(s, t, spot)
    ensures var s' := Next(s, c, Advance);
            if spot == At(c, 0) then RunsOn(s', t, c) else Spotted(s', t, SpotAfter(s, c, Advance, spot))
  {
    QueuesFit(s, c);
    SwitchShape(s, c);
    SwitchedSpot(s, Next(s, c, Advance), c, t, spot);
  }

  lemma TakeMovesSpot(s: State, c: nat, t: nat, spot: Spot)
    requires Active(s, c) && Enabled(s, c, Advance) && Takes(s, c, Advance) && Spotted(s, t, spot)
    ensures Spotted(Next(s, c, Advance), t, SpotAfter(s, c, Advance, spot))
  {
    TakeShape(s, c);
  }

  lemma LandMovesSpot(s: State, c: nat, t: nat, spot: Spot)
    requires Inv(s) && Enabled(s, c, Advance) && Active(s, c) && Lands(s, c, Advance) && Spotted(s, t, spot)
    ensures |s.queues[s.pc[c].plan.dst]| < CAPACITY
    ensures Spotted(Next(s, c, Advance), t, SpotAfter(s, c, Advance, spot))
  {
    assert InHand(s.pc[c]) == multiset{s.pc[c].hand};
    QueuesFit(s, s.pc[c].plan.dst);
    LandShape(s, c);
  }

  lemma ReadyKeepsSpot(s: State, c: nat, t: nat, spot: Spot)
    requires Inv(s) && Enabled(s, c, Advance) && Active(s, c) && Readies(s, c, Advance) && Spotted(s, t, spot)
    ensures |s.queues[c]| < CAPACITY && Spotted(Next(s, c, Advance), t, spot)
  {
    assert InHand(s.pc[c]) == multiset{Task(s.pc[c].slot)};
    QueuesFit(s, c);
    ReadyShape(s, c);
  }

  lemma OthersKeepSpot(s: State, c: nat, e: Event, t: nat, spot: Spot)
    requires Active(s, c) && Enabled(s, c, e) && Spotted(s, t, spot)
    requires !Lands(s, c, e) && !Readies(s, c, e) && !Switches(s, c, e) && !Takes(s, c, e)
    ensures Spotted(Next(s, c, e), t, spot)
  {
    OtherActs(s, c, e);
    EffectFrame(s, c, ActOf(s, c, e));
  }

  lemma StepMovesSpot(s: State, c: nat, e: Event, t: nat, spot: Spot)
    requires Inv(s) && Enabled(s, c, e) && Spotted(s, t, spot)
    ensures CpuWf(s, c)
    ensures var s' := Next(s, c, e);
            if Dispatches(s, c, e, spot) then RunsOn(s', t, c) else Spotted(s', t, SpotAfter(s, c, e, spot))
  {
    assert CpuWf(s, c) && Relies(c, s.pc[c], s.queues, s.table, s.local) && Active(s, c);
    if Switches(s, c, e) {
      SwitchMovesSpot(s, c, t, spot);
    } else if Takes(s, c, e) {
      TakeMovesSpot(s, c, t, spot);
    } else if Lands(s, c, e) {
      LandMovesSpot(s, c, t, spot);
    } else if Readies(s, c, e) {
      ReadyKeepsSpot(s, c, t, spot);
    } else {
      OthersKeepSpot(s, c, e, t, spot);
    }
  }

  // ---------------------------------------------------------------- the measure

  /** Lexicographic in (threads still to be readied, potential, threads ahead in the queue). */
  ghost function Delay(s: State, spot: Spot): int
  {
    Weigh(Count(s), Phi(s), Ahead(spot))
  }

  /** A switch on the CPU where the thread waits. */
  predicate OwnSwitch(s: State, c: nat, e: Event, t: nat)
  {
    Switches(s, c, e) && c < |s.queues| && Task(t) in s.queues[c]
  }

  lemma CarriedIsNotQueued(s: State, t: nat, d: nat, q: nat)
    requires Conserved(s.pc, s.cur, s.queues, s.table) && Spotted(s, t, Carried(d)) && q < |s.queues|
    ensures Task(t) !in s.queues[q]
  {
    assert InHand(s.pc[d]) == multiset{Task(t)};
    InHandIsNowhereElse(s, d, Task(t));
  }

  lemma OwnSwitchIsAtSpot(s: State, c: nat, e: Event, t: nat, spot: Spot)
    requires Inv(s) && Spotted(s, t, spot) && OwnSwitch(s, c, e, t)
    ensures spot.At? && spot.queue == c
  {
    if spot.Carried? {
      CarriedIsNotQueued(s, t, spot.carrier, c);
    } else {
      var i: nat :| i < |s.queues[c]| && s.queues[c][i] == Task(t);
      assert WaitsAt(s, t, c, i);
      PlacedOnce(s, t);
    }
  }

  lemma LandedBehindFew(s: State, c: nat, e: Event, t: nat, spot: Spot)
    requires Inv(s) && Enabled(s, c, e) && CpuWf(s, c) && Spotted(s, t, spot) && Lands(s, c, e)
    ensures Ahead(SpotAfter(s, c, e, spot)) <= Ahead(spot) + 255
  {
    assert Relies(c, s.pc[c], s.queues, s.table, s.local) && Active(s, c);
    LandMovesSpot(s, c, t, spot);
  }

  /** Weighing the three components: `n` threads readied, potential `phi`, `i` threads ahead. */
  function Weigh(n: int, phi: int, i: int): int { ((SLOTS - n) * 512 + phi) * 256 + i }

  lemma WeighFalls(n: int, phi: int, i: int, n': int, phi': int, i': int)
    ensures n' == n && phi' <= phi && i' <= i ==> Weigh(n', phi', i') <= Weigh(n, phi, i)
    ensures n' == n && phi' <= phi && i' < i ==> Weigh(n', phi', i') < Weigh(n, phi, i)
    ensures n' == n && phi' <= phi - 1 && i' <= i + 255 ==> Weigh(n', phi', i') < Weigh(n, phi, i)
    ensures n' == n + 1 && phi' <= phi + 511 && i' <= i ==> Weigh(n', phi', i') < Weigh(n, phi, i)
  {
  }

  lemma ReadyAmongFew(s: State, c: nat, e: Event)
    requires Inv(s) && Enabled(s, c, e) && CpuWf(s, c) && Readies(s, c, e)
    ensures |s.queues[c]| <= 255
  {
    assert InHand(s.pc[c]) == multiset{Task(s.pc[c].slot)};
    QueuesFit(s, c);
  }

  /** The measure never rises, and falls on every switch of the CPU where the thread waits, on
      every migration and on every new thread. */
  lemma DelayFalls(s: State, c: nat, e: Event, t: nat, spot: Spot)
    requires Inv(s) && Enabled(s, c, e) && Spotted(s, t, spot) && !Dispatches(s, c, e, spot)
    ensures CpuWf(s, c)
    ensures var d, d' := Delay(s, spot), Delay(Next(s, c, e), SpotAfter(s, c, e, spot));
            d' <= d && (OwnSwitch(s, c, e, t) || Lands(s, c, e) || Readies(s, c, e) ==> d' < d)
  {
    StepPotential(s, c, e);
    var s', spot' := Next(s, c, e), SpotAfter(s, c, e, spot);
    WeighFalls(Count(s), Phi(s), Ahead(spot), Count(s'), Phi(s'), Ahead(spot'));
    if Lands(s, c, e) {
      LandedBehindFew(s, c, e, t, spot);
    } else if Readies(s, c, e) {
      ReadyAmongFew(s, c, e);
    } else if OwnSwitch(s, c, e, t) {
      OwnSwitchIsAtSpot(s, c, e, t, spot);
    }
  }

  // ---------------------------------------------------------------- bounded waiting

  ghost function OwnSwitches(s: State, labels: seq<Label>, t: nat): nat
    requires CanRun(s, labels)
    decreases |labels|
  {
    if labels == [] then 0
    else
      var l := labels[0];
      (if OwnSwitch(s, l.cpu, l.event, t) then 1 else 0) + OwnSwitches(Next(s, l.cpu, l.event), labels[1..], t)
  }

  ghost predicate NeverRuns(s: State, labels: seq<Label>, t: nat)
    requires CanRun(s, labels)
    decreases |labels|
  {
    labels == [] ||
    var s' := Next(s, labels[0].cpu, labels[0].event);
    (forall c: nat :: !RunsOn(s', t, c)) && NeverRuns(s', labels[1..], t)
  }

  lemma {:induction false} WaitingUsesDelay(s: State, labels: seq<Label>, t: nat, spot: Spot)
    requires Inv(s) && CanRun(s, labels) && Spotted(s, t, spot) && NeverRuns(s, labels, t)
    ensures OwnSwitches(s, labels, t) <= Delay(s, spot)
    decreases |labels|
  {
    if labels == [] {
      ReadiedFits(s);
    } else {
      var l := labels[0];
      StepMovesSpot(s, l.cpu, l.event, t, spot);
      DelayFalls(s, l.cpu, l.event, t, spot);
      StepKeepsInv(s, l.cpu, l.event);
      WaitingUsesDelay(Next(s, l.cpu, l.event), labels[1..], t, SpotAfter(s, l.cpu, l.event, spot));
    }
  }

  lemma DelayBound(n: nat, phi: nat, ahead: nat)
    requires n <= 256 && phi <= n * n && ahead <= 255
    ensures ((256 - n) * 512 + phi) * 256 + ahead <= 33554687
  {
    assert n * n <= n * 512;
  }

  lemma PotentialBound(s: State)
    requires Reachable(s)
    ensures Phi(s) <= Count(s) * Count(s)
  {
    var cpus: nat, labels :| Reaches(cpus, labels, s);
    InitInv(cpus);
    InitPotential(cpus);
    RunLedger(Init(cpus), labels);
  }

  /** Starvation freedom: from any reachable state, a waiting thread sees at most 33554687
      switches of the CPU it waits on, wherever it is migrated meanwhile, before it runs. */
  lemma NoStarvation(s: State, labels: seq<Label>, t: nat, spot: Spot)
    requires Reachable(s) && CanRun(s, labels) && Spotted(s, t, spot) && NeverRuns(s, labels, t)
    ensures OwnSwitches(s, labels, t) <= 33554687
  {
    ReachableInv(s);
    WaitingUsesDelay(s, labels, t, spot);
    ReadiedFits(s);
    PotentialBound(s);
    if spot.At? {
      QueuesFit(s, spot.queue);
    }
    DelayBound(Count(s), Phi(s), Ahead(spot));
  }

  // ---------------------------------------------------------------- round robin

  ghost function SwitchesOn(s: State, labels: seq<Label>, q: nat): nat
    requires CanRun(s, labels)
    decreases |labels|
  {
    if labels == [] then 0
    else
      var l := labels[0];
      (if SwitchesQueue(s, l.cpu, l.event, q) then 1 else 0) + SwitchesOn(Next(s, l.cpu, l.event), labels[1..], q)
  }

  /** No balancer takes threads out of queue `q` during the run. */
  ghost predicate NothingTaken(s: State, labels: seq<Label>, q: nat)
    requires CanRun(s, labels)
    decreases |labels|
  {
    labels == [] ||
    var l := labels[0];
    && !(Takes(s, l.cpu, l.event) && s.pc[l.cpu].plan.src == q)
    && NothingTaken(Next(s, l.cpu, l.event), labels[1..], q)
  }

  predicate SwitchesQueue(s: State, c: nat, e: Event, q: nat) { c == q && Switches(s, c, e) }

  lemma RoundRobinStep(s: State, c: nat, e: Event, t: nat, q: nat, k: nat, k': nat)
    requires Inv(s) && Enabled(s, c, e) && WaitsAt(s, t, q, k)
    requires !(Takes(s, c, e) && s.pc[c].plan.src == q) && k == (if SwitchesQueue(s, c, e, q) then k' + 1 else k')
    ensures CpuWf(s, c) && WaitsAt(Next(s, c, e), t, q, k')
  {
    StepMovesSpot(s, c, e, t, At(q, k));
  }

  /** Without migration out of its queue a thread with `k` others ahead of it has `j` ahead
      after `k - j` switches... */
  lemma {:induction false} RoundRobin(s: State, labels: seq<Label>, t: nat, q: nat, k: nat, j: nat)
    requires Inv(s) && CanRun(s, labels) && WaitsAt(s, t, q, k)
    requires NothingTaken(s, labels, q) && SwitchesOn(s, labels, q) + j == k
    ensures WaitsAt(After(s, labels), t, q, j)
    decreases |labels|
  {
    if labels == [] {
      assert k == j;
    } else {
      var l := labels[0];
      var s' := Next(s, l.cpu, l.event);
      var k' := SwitchesOn(s', labels[1..], q) + j;
      RoundRobinStep(s, l.cpu, l.event, t, q, k, k');
      StepKeepsInv(s, l.cpu, l.event);
      RoundRobin(s', labels[1..], t, q, k', j);
    }
  }

  lemma FrontRunsNext(s: State, q: nat, t: nat)
    requires Inv(s) && Enabled(s, q, Advance) && Switches(s, q, Advance) && WaitsAt(s, t, q, 0)
    ensures CpuWf(s, q) && RunsOn(Next(s, q, Advance), t, q)
  {
    StepMovesSpot(s, q, Advance, t, At(q, 0));
  }

  /** ... and runs at exactly the next one. */
  lemma RoundRobinTurn(s: State, labels: seq<Label>, t: nat, q: nat, k: nat)
    requires Inv(s) && CanRun(s, labels) && WaitsAt(s, t, q, k)
    requires NothingTaken(s, labels, q) && SwitchesOn(s, labels, q) == k
    requires var s' := After(s, labels); Shape(s') && Enabled(s', q, Advance) && Switches(s', q, Advance)
    ensures var s' := After(s, labels); CpuWf(s', q) && RunsOn(Next(s', q, Advance), t, q)
  {
    var s' := After(s, labels);
    assert WaitsAt(s', t, q, 0) && Inv(s') by {
      RoundRobin(s, labels, t, q, k, 0);
      RunKeepsInv(s, labels);
    }
    FrontRunsNext(s', q, t);
  }
}
