/** What the invariant means for every run of the kernel. */
module SchedTheorems {
  import opened Wrappers
  import opened SchedSpec
  import opened Machine
  import opened LockDiscipline
  import opened SchedInvariant
  import opened SchedSteps
  import opened Sums

  // ---------------------------------------------------------------- runs

  datatype Label = Label(cpu: nat, event: Event)

  /** Before any CPU has reached `setup_tls`: nothing is online, every CPU runs its boot code. */
  function Init(cpus: nat): State
  {
    State(seq(cpus, c => Open), seq(cpus, c => None), seq(cpus, c => []), seq(cpus, c => false),
          seq(cpus, c requires 0 <= c => Boot(c)), seq(cpus, c => []),
          seq(SLOTS, t => None), 1, map[], {}, {})
  }

  /** `labels` is a possible sequence of events from `s`. */
  ghost predicate CanRun(s: State, labels: seq<Label>)
    decreases |labels|
  {
    labels == [] ||
    (Wf(s) && Enabled(s, labels[0].cpu, labels[0].event)
     && CanRun(Next(s, labels[0].cpu, labels[0].event), labels[1..]))
  }

  ghost function After(s: State, labels: seq<Label>): State
    requires CanRun(s, labels)
    decreases |labels|
  {
    if labels == [] then s else After(Next(s, labels[0].cpu, labels[0].event), labels[1..])
  }

  ghost predicate Reachable(s: State)
  {
    exists cpus: nat, labels: seq<Label> :: Reaches(cpus, labels, s)
  }

  ghost predicate Reaches(cpus: nat, labels: seq<Label>, s: State)
  {
    cpus <= 256 && CanRun(Init(cpus), labels) && After(Init(cpus), labels) == s
  }

  lemma {:induction false} GatherEmpty<T, A>(xs: seq<T>, f: T -> multiset<A>)
    requires forall i :: 0 <= i < |xs| ==> f(xs[i]) == multiset{}
    ensures Gather(xs, f) == multiset{}
  {
    if xs != [] {
      GatherEmpty(xs[1..], f);
    }
  }

  lemma InitInv(cpus: nat)
    requires cpus <= 256
    ensures Inv(Init(cpus))
  {
    InitConserved(cpus);
  }

  lemma InitConserved(cpus: nat)
    ensures var s := Init(cpus); Conserved(s.pc, s.cur, s.queues, s.table)
  {
    var s := Init(cpus);
    GatherEmpty(s.queues, InQueue);
    GatherEmpty(s.cur, AsCurrent);
    GatherEmpty(s.pc, InHand);
    assert ReadySet(s.table) == {};
  }

  lemma {:induction false} RunKeepsInv(s: State, labels: seq<Label>)
    requires Inv(s) && CanRun(s, labels)
    ensures Inv(After(s, labels))
    decreases |labels|
  {
    if labels != [] {
      StepKeepsInv(s, labels[0].cpu, labels[0].event);
      RunKeepsInv(Next(s, labels[0].cpu, labels[0].event), labels[1..]);
    }
  }

  /** The invariant holds in every state of every interleaving. */
  lemma ReachableInv(s: State)
    requires Reachable(s)
    ensures Inv(s)
  {
    var cpus: nat, labels :| Reaches(cpus, labels, s);
    InitInv(cpus);
    RunKeepsInv(Init(cpus), labels);
  }

  // ---------------------------------------------------------------- no panic

  /** No run reaches any of the "Ready queue is full" panics, or the `unwrap` on a failed lookup:
      neither is a CPU panicked, nor is its next step a panic. */
  lemma NoPanic(s: State, c: nat, e: Event)
    requires Reachable(s) && c < |s.pc|
    ensures !s.pc[c].Panicked?
    ensures Shape(s) && Enabled(s, c, e) ==> CpuWf(s, c) && !ActOf(s, c, e).to.Panicked?
  {
    ReachableInv(s);
    assert CpuWf(s, c);
    if Shape(s) && Enabled(s, c, e) {
      StepKeepsInv(s, c, e);
    }
  }

  // ---------------------------------------------------------------- lock discipline

  /** A lock is in the guards of at most one CPU, and in them at most once. */
  lemma OneGuardPerLock(s: State, c: nat, i: nat, d: nat, j: nat)
    requires Reachable(s) && c < |s.pc| && d < |s.pc| && Shape(s) && i < |s.guards[c]| && j < |s.guards[d]|
    requires s.guards[c][i].lock == s.guards[d][j].lock
    ensures c == d && i == j && s.guards[c][i].lock in s.locks
  {
    ReachableInv(s);
    assert CpuWf(s, c) && CpuWf(s, d);
    var l := s.guards[c][i].lock;
    assert Held(s.pc[c], c)[i] == l && Held(s.pc[d], d)[j] == l;
    MutexAt(s, c, d, l);
    HeldDistinct(c, s.pc[c], s.cur[c], |s.pc|, s.table, s.local);
  }

  lemma OpenIffNoLocks(c: nat, pc: Pc)
    requires !pc.Panicked?
    ensures pc.Open? <==> Held(pc, c) == [] && Wanted(pc, c).None? && !InHandler(pc)
  {
  }

  /** In thread code interrupts are enabled exactly when no guard is alive or being acquired: the
      outermost guard's drop restores them, no inner one does. */
  lemma InterruptsOffExactlyUnderGuards(s: State, c: nat)
    requires Reachable(s) && c < |s.pc|
    ensures Shape(s) && (s.irq[c] <==> s.guards[c] == [] && s.want[c].None? && !InHandler(s.pc[c]) && !s.cur[c].Boot?)
  {
    ReachableInv(s);
    assert CpuWf(s, c);
    OpenIffNoLocks(c, s.pc[c]);
  }

  /** A timer interrupt can only hit a CPU that is in no kernel critical section. */
  lemma TimerInterruptsNoLockHolder(s: State, c: nat)
    requires Reachable(s) && Shape(s) && Enabled(s, c, Timer)
    ensures s.pc[c].Open? && s.guards[c] == [] && s.want[c].None?
  {
    InterruptsOffExactlyUnderGuards(s, c);
    ReachableInv(s);
    assert CpuWf(s, c);
  }

  // ---------------------------------------------------------------- thread conservation

  predicate Quiescent(s: State)
  {
    forall c :: 0 <= c < |s.pc| ==> s.pc[c].Open?
  }

  predicate RunsOn(s: State, t: nat, c: nat) { c < |s.cur| && s.cur[c] == Task(t) }

  predicate WaitsAt(s: State, t: nat, q: nat, i: nat)
  {
    q < |s.queues| && i < |s.queues[q]| && s.queues[q][i] == Task(t)
  }

  lemma {:induction false} TwicePlaced(q: seq<Addr>, i: nat, j: nat)
    requires i < j < |q| && q[i] == q[j]
    ensures multiset(q)[q[i]] >= 2
  {
    assert q == q[..i + 1] + q[i + 1..];
    assert q[i] in q[..i + 1] && q[j] in q[i + 1..] by {
      assert q[..i + 1][i] == q[i] && q[i + 1..][j - i - 1] == q[j];
    }
  }

  /** Nothing is placed twice. */
  lemma PlacedOnce(s: State, t: nat)
    requires Inv(s)
    ensures forall c: nat, d: nat :: RunsOn(s, t, c) && RunsOn(s, t, d) ==> c == d
    ensures forall c: nat, q: nat, i: nat :: RunsOn(s, t, c) ==> !WaitsAt(s, t, q, i)
    ensures forall q: nat, i: nat, r: nat, j: nat :: WaitsAt(s, t, q, i) && WaitsAt(s, t, r, j) ==> q == r && i == j
  {
    var a := Task(t);
    OncePerAddress(s, a);
    forall c: nat, d: nat | RunsOn(s, t, c) && RunsOn(s, t, d) ensures c == d {
      if c != d {
        GatherTwoParts(s.cur, AsCurrent, c, d, a);
      }
    }
    forall c: nat, q: nat, i: nat | RunsOn(s, t, c) ensures !WaitsAt(s, t, q, i) {
      if WaitsAt(s, t, q, i) {
        GatherPart(s.cur, AsCurrent, c, a);
        assert a in s.queues[q];
        GatherPart(s.queues, InQueue, q, a);
      }
    }
    forall q: nat, i: nat, r: nat, j: nat | WaitsAt(s, t, q, i) && WaitsAt(s, t, r, j) ensures q == r && i == j {
      assert a in s.queues[q] && a in s.queues[r];
      if q != r {
        GatherTwoParts(s.queues, InQueue, q, r, a);
      } else if i != j {
        TwicePlaced(s.queues[q], if i < j then i else j, if i < j then j else i);
        GatherPart(s.queues, InQueue, q, a);
      }
    }
  }

  /** Thread conservation: whenever no critical section is open, exactly the ready threads are
      somewhere (`PlacedOnce`: each in one place), every one is labelled with the CPU where it
      runs or waits, and no queue holds anything but threads of the table. */
  lemma ThreadConservation(s: State, t: nat)
    requires Reachable(s) && Quiescent(s)
    ensures IsReady(s.table, t)
            <==> (exists c: nat :: RunsOn(s, t, c)) || (exists q: nat, i: nat :: WaitsAt(s, t, q, i))
    ensures forall c: nat :: RunsOn(s, t, c) ==> Labelled(s.table, Task(t), c)
    ensures forall q: nat, i: nat :: WaitsAt(s, t, q, i) ==> Labelled(s.table, Task(t), q)
    ensures forall q: nat, a :: q < |s.queues| && a in s.queues[q] ==> ValidTask(s.table, a)
  {
    ReachableInv(s);
    var a := Task(t);
    OncePerAddress(s, a);
    GatherEmpty(s.pc, InHand);
    assert IsReady(s.table, t) <==> a in ReadySet(s.table);
    if IsReady(s.table, t) {
      if a in Gather(s.cur, AsCurrent) {
        var c := GatherSource(s.cur, AsCurrent, a);
        assert RunsOn(s, t, c);
      } else {
        var q := GatherSource(s.queues, InQueue, a);
        var i :| 0 <= i < |s.queues[q]| && s.queues[q][i] == a;
        assert WaitsAt(s, t, q, i);
      }
    } else {
      NotReadyIsNowhere(s, t);
      forall q: nat, i: nat ensures !WaitsAt(s, t, q, i) {}
    }
    forall q: nat, i: nat | WaitsAt(s, t, q, i) ensures Labelled(s.table, Task(t), q) {
      assert a in s.queues[q];
    }
  }

  // ---------------------------------------------------------------- spawning

  lemma ActKeepsIds(s: State, c: nat, e: Event, t: nat, id: nat)
    requires Active(s, c) && Enabled(s, c, e) && HasId(s.table, t, id)
    ensures HasId(ActOf(s, c, e).data.table, t, id)
  {
  }

  /** Slots are never vacated and never change hands. */
  lemma {:induction false} RunKeepsIds(s: State, labels: seq<Label>, t: nat, id: nat)
    requires Inv(s) && CanRun(s, labels) && HasId(s.table, t, id)
    ensures HasId(After(s, labels).table, t, id)
    decreases |labels|
  {
    if labels != [] {
      var c, e := labels[0].cpu, labels[0].event;
      assert CpuWf(s, c) && Active(s, c);
      ActKeepsIds(s, c, e, t, id);
      EffectFrame(s, c, ActOf(s, c, e));
      StepKeepsInv(s, c, e);
      RunKeepsIds(Next(s, c, e), labels[1..], t, id);
    }
  }

  lemma AddedSlot(s: State, c: nat)
    requires Active(s, c) && Enabled(s, c, Advance) && s.pc[c].AddHeld? && FirstFree(s.table).Some?
    ensures HasId(Next(s, c, Advance).table, FirstFree(s.table).value, s.local[s.cur[c]].id)
  {
  }

  /** Between the two critical sections of `spawn_raw` anything may happen, including preemption
      and migration of the spawning thread: the second lookup still finds the slot of the first. */
  lemma SpawnLookup(s: State, c: nat, labels: seq<Label>)
    requires Inv(s) && Enabled(s, c, Advance) && s.pc[c].AddHeld? && FirstFree(s.table).Some?
    requires CpuWf(s, c) && CanRun(Next(s, c, Advance), labels)
    ensures FindId(After(Next(s, c, Advance), labels).table, s.local[s.cur[c]].id) == FirstFree(s.table)
  {
    assert Active(s, c);
    var t, id := FirstFree(s.table).value, s.local[s.cur[c]].id;
    var s1 := Next(s, c, Advance);
    AddedSlot(s, c);
    StepKeepsInv(s, c, Advance);
    RunKeepsIds(s1, labels, t, id);
    RunKeepsInv(s1, labels);
    UniqueLookup(After(s1, labels), t, id);
  }

  lemma UniqueLookup(s: State, t: nat, id: nat)
    requires IdsOk(s.table, s.local, s.nextId) && HasId(s.table, t, id)
    ensures FindId(s.table, id) == Some(t)
  {
    var found := FindId(s.table, id);
    assert found.Some?;
    assert HasId(s.table, found.value, id);
  }
}
