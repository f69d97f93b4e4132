/**
 The values the scheduler works on, and what its operations compute, as functions of sequences:
 the thread table, the ready queues, the preemptive switch and the load balancer.
 The classes of module `Scheduler` are proved against these functions, and the steps of
 module `Machine` are built from them.
 */
module SchedSpec {
  import opened Wrappers

  const SLOTS: nat := 256      // entries of the global thread table
  const CAPACITY: nat := 256   // entries of a ready queue

  /** Address of a thread structure. `Boot(c)` stands for the null address that CPU `c` has
      as its current thread until it switches to its idle thread, `Idle(c)` for the idle thread
      embedded in the record of CPU `c`, and `Task(t)` for slot `t` of the thread table. */
  datatype Addr = Boot(cpu: nat) | Idle(cpu: nat) | Task(slot: nat)

  datatype ThreadState = Born | Ready | Running | Blocked | Zombie

  datatype SchedState = SchedState(cpu: Option<nat>, state: ThreadState)

  datatype Thread = Thread(id: nat, sched: SchedState)

  type Table = seq<Option<Thread>>

  // ---------------------------------------------------------------- thread table

  /** The lowest empty slot at or after `from`. */
  function FirstFree(table: Table, from: nat := 0): (r: Option<nat>)
    requires from <= |table|
    ensures r.Some? ==> from <= r.value < |table| && table[r.value].None?
    ensures r.Some? ==> forall i :: from <= i < r.value ==> table[i].Some?
    ensures r.None? ==> forall i :: from <= i < |table| ==> table[i].Some?
    decreases |table| - from
  {
    if from == |table| then None
    else if table[from].None? then Some(from)
    else FirstFree(table, from + 1)
  }

  /** The lowest slot at or after `from` whose thread has this id. */
  function FindId(table: Table, id: nat, from: nat := 0): (r: Option<nat>)
    requires from <= |table|
    ensures r.Some? ==> from <= r.value < |table| && table[r.value].Some? && table[r.value].value.id == id
    ensures r.Some? ==> forall i :: from <= i < r.value && table[i].Some? ==> table[i].value.id != id
    ensures r.None? ==> forall i :: from <= i < |table| && table[i].Some? ==> table[i].value.id != id
    decreases |table| - from
  {
    if from == |table| then None
    else if table[from].Some? && table[from].value.id == id then Some(from)
    else FindId(table, id, from + 1)
  }

  // ---------------------------------------------------------------- switch

  /** Queue and current thread after a timer switch; `None` is the "Ready queue is full" panic. */
  function SwitchSpec(queue: seq<Addr>, cur: Addr, idle: Addr): Option<(seq<Addr>, Addr)>
  {
    if queue == [] then Some((queue, cur))
    else if cur == idle then Some((queue[1..], queue[0]))
    else if |queue[1..]| == CAPACITY then None
    else Some((queue[1..] + [cur], queue[0]))
  }

  // ---------------------------------------------------------------- load balancing

  /** Number of threads to move between queues of these lengths. */
  function ToMove(a: nat, b: nat): nat
  {
    var delta := if a >= b then a - b else b - a;
    if delta <= 1 then 0 else delta / 2
  }

  /** Two queues after the first `k` threads of `src` went to the back of `dst`. */
  function Migrate(src: seq<Addr>, dst: seq<Addr>, k: nat): (seq<Addr>, seq<Addr>)
    requires k <= |src|
  {
    (src[k..], dst + src[..k])
  }

  function BalanceSpec(qa: seq<Addr>, qb: seq<Addr>): (seq<Addr>, seq<Addr>)
  {
    var k := ToMove(|qa|, |qb|);
    if |qa| >= |qb| then Migrate(qa, qb, k)
    else var (b, a) := Migrate(qb, qa, k); (a, b)
  }

  lemma MultisetSplit<T>(s: seq<T>, k: nat)
    requires k <= |s|
    ensures multiset(s) == multiset(s[..k]) + multiset(s[k..])
  {
    assert s == s[..k] + s[k..];
  }

  /** Balancing loses and duplicates nothing, leaves a difference of at most one and in the
      original direction, and an immediate second balance does nothing. */
  lemma BalanceResult(qa: seq<Addr>, qb: seq<Addr>)
    ensures var (a, b) := BalanceSpec(qa, qb);
            && multiset(a) + multiset(b) == multiset(qa) + multiset(qb)
            && (|qa| >= |qb| ==> |b| <= |a| <= |b| + 1)
            && (|qa| <= |qb| ==> |a| <= |b| <= |a| + 1)
            && BalanceSpec(a, b) == (a, b)
  {
    var (a, b) := BalanceSpec(qa, qb);
    var k := ToMove(|qa|, |qb|);
    if |qa| >= |qb| {
      MultisetSplit(qa, k);
      assert multiset(b) == multiset(qb) + multiset(qa[..k]);
    } else {
      MultisetSplit(qb, k);
      assert multiset(a) == multiset(qa) + multiset(qb[..k]);
    }
    assert ToMove(|a|, |b|) == 0;
    assert a[0..] == a && b[0..] == b && a + b[..0] == a && b + a[..0] == b;
  }

  /** The threads that change queue are the oldest of the longer one; they arrive in order behind
      the threads that were already waiting there, and nobody overtakes anybody. */
  lemma BalanceKeepsOrder(qa: seq<Addr>, qb: seq<Addr>)
    ensures var (a, b) := BalanceSpec(qa, qb);
            if |qa| >= |qb|
            then qa == b[|qb|..] + a && b[..|qb|] == qb
            else qb == a[|qa|..] + b && a[..|qa|] == qa
  {
  }
}
