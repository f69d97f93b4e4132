/**
 The invariant of the scheduler: what holds in every reachable state, also in the middle of
 critical sections.
 */
module SchedInvariant {
  import opened Wrappers
  import opened SchedSpec
  import opened Machine
  import opened LockDiscipline
  import opened Sums

  // ---------------------------------------------------------------- where threads are

  function InQueue(q: seq<Addr>): multiset<Addr> { multiset(q) }

  function AsCurrent(a: Addr): multiset<Addr> { if a.Task? then multiset{a} else multiset{} }

  /** A thread that is in nobody's queue because a CPU is just moving it: the balancer between two
      queues, or `ready` on the way to the first queue. */
  function InHand(pc: Pc): multiset<Addr>
  {
    match pc
    case ReadyQueueSpin(t) => multiset{Task(t)}
    case ReadyQueueHeld(t) => multiset{Task(t)}
    case MoveSpin(_, _, a) => multiset{a}
    case MoveHeld(_, _, a) => multiset{a}
    case _ => multiset{}
  }

  /** Everything that is scheduled anywhere, with multiplicity. */
  ghost function Bag(pc: seq<Pc>, cur: seq<Addr>, queues: seq<seq<Addr>>): multiset<Addr>
  {
    Gather(queues, InQueue) + Gather(cur, AsCurrent) + Gather(pc, InHand)
  }

  predicate IsReady(table: Table, t: nat)
  {
    t < |table| && table[t].Some? && table[t].value.sched.state.Ready?
  }

  function ReadySet(table: Table): set<Addr>
  {
    set t: nat | t < |table| && IsReady(table, t) :: Task(t)
  }

  /** Thread conservation: what is scheduled is exactly the ready threads, each exactly once. */
  ghost predicate Conserved(pc: seq<Pc>, cur: seq<Addr>, queues: seq<seq<Addr>>, table: Table)
  {
    Bag(pc, cur, queues) == multiset(ReadySet(table))
  }

  // ---------------------------------------------------------------- labels

  predicate Labelled(table: Table, a: Addr, cpu: nat)
  {
    ValidTask(table, a) && table[a.slot].value.sched.cpu == Some(cpu)
  }

  /** A waiting or running thread is labelled with the CPU where it waits or runs. */
  predicate LabelsOk(cur: seq<Addr>, queues: seq<seq<Addr>>, table: Table)
  {
    && (forall q, a :: 0 <= q < |queues| && a in queues[q] ==> Labelled(table, a, q))
    && (forall c :: 0 <= c < |cur| && cur[c].Task? ==> Labelled(table, cur[c], c))
  }

  // ---------------------------------------------------------------- ids

  predicate HasId(table: Table, t: nat, id: nat)
  {
    t < |table| && table[t].Some? && table[t].value.id == id
  }

  ghost predicate BornWithId(table: Table, id: nat)
  {
    exists t: nat :: HasId(table, t, id) && table[t].value.sched.state.Born?
  }

  /** Ids are unique; a thread that has drawn an id and not yet used it is the only one to know
      it; one that has added its child finds it in the table, still newborn. */
  ghost predicate IdsOk(table: Table, local: map<Addr, Local>, nextId: nat)
  {
    && (forall t: nat, id: nat :: HasId(table, t, id) ==> id < nextId)
    && (forall t: nat, u: nat, id: nat :: HasId(table, t, id) && HasId(table, u, id) ==> t == u)
    && (forall x :: x in local ==> local[x].id < nextId)
    && (forall x, y :: x in local && y in local && local[x].id == local[y].id ==> x == y)
    && (forall x, t: nat :: x in local && local[x].Fresh? ==> !HasId(table, t, local[x].id))
    && (forall x :: x in local && local[x].Added? ==> BornWithId(table, local[x].id))
  }

  // ---------------------------------------------------------------- critical sections

  /** State of a balancing round with `left` moves to go. */
  predicate PlanOk(p: Plan, left: nat, queues: seq<seq<Addr>>)
  {
    && p.src < |queues| && p.dst < |queues| && p.src != p.dst
    && |p.srcOld| > |p.dstOld| && p.total == ToMove(|p.srcOld|, |p.dstOld|) && left <= p.total <= |p.srcOld|
    && Migrate(p.srcOld, p.dstOld, p.total - left) == (queues[p.src], queues[p.dst])
  }

  /** The same in the middle of a move. */
  predicate PlanOkInHand(p: Plan, left: nat, a: Addr, queues: seq<seq<Addr>>)
  {
    && p.src < |queues| && p.dst < |queues| && p.src != p.dst
    && |p.srcOld| > |p.dstOld| && p.total == ToMove(|p.srcOld|, |p.dstOld|) && 0 < left <= p.total <= |p.srcOld|
    && var k := p.total - left;
    && a == p.srcOld[k]
    && queues[p.src] == p.srcOld[k + 1..]
    && queues[p.dst] == p.dstOld + p.srcOld[..k]
  }

  /** What a CPU relies on while it holds the locks of its program point. */
  predicate Relies(c: nat, pc: Pc, queues: seq<seq<Addr>>, table: Table, local: map<Addr, Local>)
  {
    match pc
    case ReadySchedSpin(t) => Newborn(table, local, t)
    case ReadyMark(t) => Newborn(table, local, t)
    case ReadyQueueSpin(t) => IsReady(table, t) && Labelled(table, Task(t), c)
    case ReadyQueueHeld(t) => IsReady(table, t) && Labelled(table, Task(t), c)
    case Moving(p, left) => PlanOk(p, left, queues)
    case MoveSpin(p, left, a) => PlanOkInHand(p, left, a, queues)
    case MoveHeld(p, left, a) => PlanOkInHand(p, left, a, queues)
    case _ => true
  }

  /** In the table, not yet ready, and no other thread is about to make it ready. */
  predicate Newborn(table: Table, local: map<Addr, Local>, t: nat)
  {
    && t < |table| && table[t].Some? && table[t].value.sched.state.Born?
    && forall x :: x in local ==> local[x].id != table[t].value.id
  }

  // ---------------------------------------------------------------- the invariant

  ghost predicate Inv(s: State)
  {
    && Wf(s)
    && Mutex(s)
    && (forall c :: 0 <= c < |s.pc| ==> Relies(c, s.pc[c], s.queues, s.table, s.local))
    && IdsOk(s.table, s.local, s.nextId)
    && Conserved(s.pc, s.cur, s.queues, s.table)
    && LabelsOk(s.cur, s.queues, s.table)
  }

  // ---------------------------------------------------------------- consequences of conservation

  /** Nothing is in two places. */
  lemma OncePerAddress(s: State, a: Addr)
    requires Conserved(s.pc, s.cur, s.queues, s.table)
    ensures Gather(s.queues, InQueue)[a] + Gather(s.cur, AsCurrent)[a] + Gather(s.pc, InHand)[a]
            == (if a in ReadySet(s.table) then 1 else 0)
  {
    assert Bag(s.pc, s.cur, s.queues)[a] == multiset(ReadySet(s.table))[a];
  }

  /** What is in hand is neither waiting nor running, and in nobody else's hand. */
  lemma InHandIsNowhereElse(s: State, c: nat, a: Addr)
    requires Conserved(s.pc, s.cur, s.queues, s.table) && c < |s.pc| && a in InHand(s.pc[c])
    ensures forall q :: 0 <= q < |s.queues| ==> a !in s.queues[q]
    ensures forall d :: 0 <= d < |s.cur| && a.Task? ==> s.cur[d] != a
    ensures forall d :: 0 <= d < |s.pc| && d != c ==> a !in InHand(s.pc[d])
  {
    OncePerAddress(s, a);
    GatherPart(s.pc, InHand, c, a);
    forall q | 0 <= q < |s.queues| ensures a !in s.queues[q] { GatherPart(s.queues, InQueue, q, a); }
    forall d | 0 <= d < |s.cur| && a.Task? ensures s.cur[d] != a { GatherPart(s.cur, AsCurrent, d, a); }
    forall d | 0 <= d < |s.pc| && d != c ensures a !in InHand(s.pc[d]) {
      GatherTwoParts(s.pc, InHand, c, d, a);
    }
  }

  /** A thread that is not ready is not scheduled anywhere. */
  lemma NotReadyIsNowhere(s: State, t: nat)
    requires Conserved(s.pc, s.cur, s.queues, s.table) && !IsReady(s.table, t)
    ensures forall q :: 0 <= q < |s.queues| ==> Task(t) !in s.queues[q]
    ensures forall d :: 0 <= d < |s.cur| ==> s.cur[d] != Task(t)
    ensures forall d :: 0 <= d < |s.pc| ==> Task(t) !in InHand(s.pc[d])
  {
    var a := Task(t);
    OncePerAddress(s, a);
    forall q | 0 <= q < |s.queues| ensures a !in s.queues[q] { GatherPart(s.queues, InQueue, q, a); }
    forall d | 0 <= d < |s.cur| ensures s.cur[d] != a { GatherPart(s.cur, AsCurrent, d, a); }
    forall d | 0 <= d < |s.pc| ensures a !in InHand(s.pc[d]) { GatherPart(s.pc, InHand, d, a); }
  }

  /** No two CPUs run the same thread. */
  lemma CurrentsDiffer(s: State, c: nat, d: nat)
    requires Conserved(s.pc, s.cur, s.queues, s.table) && c < |s.cur| && d < |s.cur| && c != d
    requires OwnCurrent(c, s.cur[c]) && OwnCurrent(d, s.cur[d])
    ensures s.cur[c] != s.cur[d]
  {
    if s.cur[c] == s.cur[d] {
      var a := s.cur[c];
      OncePerAddress(s, a);
      GatherTwoParts(s.cur, AsCurrent, c, d, a);
    }
  }

  // ---------------------------------------------------------------- pigeonhole

  lemma {:induction false} ReadySetUpTo(table: Table, n: nat)
    requires n <= |table|
    ensures |set t: nat | t < n && IsReady(table, t) :: Task(t)| <= n
  {
    var S := set t: nat | t < n && IsReady(table, t) :: Task(t);
    if n == 0 {
      assert S == {};
    } else {
      ReadySetUpTo(table, n - 1);
      var S' := set t: nat | t < n - 1 && IsReady(table, t) :: Task(t);
      assert S <= S' + {Task(n - 1)};
      SubsetSize(S, S' + {Task(n - 1)});
    }
  }

  lemma {:induction false} SubsetSize<T>(a: set<T>, b: set<T>)
    requires a <= b
    ensures |a| <= |b|
  {
    assert b == a + (b - a);
  }

  /** The table bounds everything that is scheduled. */
  lemma BagFits(s: State)
    requires Shape(s) && Conserved(s.pc, s.cur, s.queues, s.table)
    ensures |Gather(s.queues, InQueue)| + |Gather(s.cur, AsCurrent)| + |Gather(s.pc, InHand)| <= SLOTS
  {
    ReadySetUpTo(s.table, |s.table|);
    assert |Bag(s.pc, s.cur, s.queues)| == |multiset(ReadySet(s.table))| == |ReadySet(s.table)|;
  }

  /** No queue ever exceeds its capacity, and while a thread is in somebody's hand every queue
      has room for it. */
  lemma QueuesFit(s: State, q: nat)
    requires Shape(s) && Conserved(s.pc, s.cur, s.queues, s.table) && q < |s.queues|
    ensures |s.queues[q]| <= CAPACITY
    ensures forall c :: 0 <= c < |s.pc| && |InHand(s.pc[c])| > 0 ==> |s.queues[q]| < CAPACITY
  {
    BagFits(s);
    GatherPartSize(s.queues, InQueue, q);
    forall c | 0 <= c < |s.pc| && |InHand(s.pc[c])| > 0 ensures |s.queues[q]| < CAPACITY {
      GatherPartSize(s.pc, InHand, c);
    }
  }
}
