/**
 The scheduler's data structures and its two operations on them, in place as in the source:
 the ring buffer behind a ready queue, the thread table, the timer switch and the balancer.
 Each method is proved against the functions of `SchedSpec`.
 */
module Scheduler {
  import opened Wrappers
  import opened SchedSpec

  // ---------------------------------------------------------------- ring buffer

  /** Position `i` places after `head` in a circular buffer. */
  function Wrap(head: nat, i: nat): (w: nat)
    ensures w < CAPACITY
  {
    (head + i) % CAPACITY
  }

  /** `len` elements of a circular buffer, from position `head` on. */
  function Unrolled<T>(data: seq<T>, head: nat, len: nat): (s: seq<T>)
    requires |data| == CAPACITY && head < CAPACITY && len <= CAPACITY
    ensures |s| == len
  {
    seq(len, i requires 0 <= i < len => data[Wrap(head, i)])
  }

  lemma WrapDistinct(head: nat, i: nat, j: nat)
    requires head < CAPACITY && i < j < CAPACITY
    ensures Wrap(head, i) != Wrap(head, j)
  {
    assert Wrap(head, i) == if head + i < CAPACITY then head + i else head + i - CAPACITY;
    assert Wrap(head, j) == if head + j < CAPACITY then head + j else head + j - CAPACITY;
  }

  lemma WrapNext(head: nat, i: nat)
    requires head < CAPACITY && i + 1 < CAPACITY
    ensures Wrap(Wrap(head, 1), i) == Wrap(head, i + 1)
  {
    assert Wrap(head, 1) == if head + 1 < CAPACITY then head + 1 else 0;
  }

  lemma UnrolledPush<T>(data: seq<T>, head: nat, len: nat, x: T)
    requires |data| == CAPACITY && head < CAPACITY && len < CAPACITY
    ensures Unrolled(data[Wrap(head, len) := x], head, len + 1) == Unrolled(data, head, len) + [x]
  {
    forall i | 0 <= i < len ensures Wrap(head, i) != Wrap(head, len) {
      WrapDistinct(head, i, len);
    }
  }

  lemma UnrolledPop<T>(data: seq<T>, head: nat, len: nat)
    requires |data| == CAPACITY && head < CAPACITY && 0 < len <= CAPACITY
    ensures Unrolled(data, Wrap(head, 1), len - 1) == Unrolled(data, head, len)[1..]
    ensures Unrolled(data, head, len)[0] == data[head]
  {
    var all, rest := Unrolled(data, head, len), Unrolled(data, Wrap(head, 1), len - 1);
    forall i | 0 <= i < len - 1 ensures rest[i] == all[i + 1] {
      WrapNext(head, i);
    }
  }

  class RingQueue<T(0)> {
    const data: array<T>
    var head: nat
    var tail: nat
    var len: nat

    ghost predicate Valid()
      reads this
    {
      && data.Length == CAPACITY && head < CAPACITY && len <= CAPACITY
      && tail == Wrap(head, len)
    }

    ghost function Contents(): seq<T>
      requires Valid()
      reads this, data
    {
      Unrolled(data[..], head, len)
    }

    constructor ()
      ensures Valid() && fresh(data) && Contents() == []
    {
      data := new T[CAPACITY];
      head, tail, len := 0, 0, 0;
    }

    /** Appends the item; if the queue is full it is handed back. */
    method Push(item: T) returns (rejected: Option<T>)
      requires Valid()
      modifies this`tail, this`len, data
      ensures Valid()
      ensures rejected == if |old(Contents())| == 256 then Some(item) else None
      ensures Contents() == if rejected.Some? then old(Contents()) else old(Contents()) + [item]
    {
      if len == CAPACITY {
        return Some(item);
      }
      UnrolledPush(data[..], head, len, item);
      ghost var before := data[..];
      data[tail] := item;
      assert data[..] == before[tail := item];
      tail := Wrap(tail, 1);
      len := len + 1;
      return None;
    }

    method Pop() returns (item: Option<T>)
      requires Valid()
      modifies this`head, this`len
      ensures Valid()
      ensures item == if old(Contents()) == [] then None else Some(old(Contents())[0])
      ensures Contents() == if item.None? then [] else old(Contents())[1..]
    {
      if len == 0 {
        return None;
      }
      UnrolledPop(data[..], head, len);
      item := Some(data[head]);
      head := Wrap(head, 1);
      len := len - 1;
    }
  }

  // ---------------------------------------------------------------- thread table

  class ThreadTable {
    const threads: array<Option<Thread>>

    ghost predicate Valid() { threads.Length == SLOTS }

    constructor ()
      ensures Valid() && fresh(threads) && threads.Length == 256 && forall i :: 0 <= i < 256 ==> threads[i].None?
    {
      threads := new Option<Thread>[SLOTS](_ => None);
    }

    method AddThread(thread: Thread) returns (added: bool)
      requires Valid()
      modifies threads
      ensures added == FirstFree(old(threads[..])).Some?
      ensures threads[..] == if added then old(threads[..])[FirstFree(old(threads[..])).value := Some(thread)]
                             else old(threads[..])
    {
      for i := 0 to threads.Length
        invariant threads[..] == old(threads[..])
        invariant FirstFree(old(threads[..])) == FirstFree(old(threads[..]), i)
      {
        if threads[i].None? {
          threads[i] := Some(thread);
          return true;
        }
      }
      return false;
    }

    /** The slot of the thread with this id. */
    method GetThread(id: nat) returns (slot: Option<nat>)
      requires Valid()
      ensures slot == FindId(threads[..], id)
    {
      for i := 0 to threads.Length
        invariant FindId(threads[..], id) == FindId(threads[..], id, i)
      {
        if threads[i].Some? && threads[i].value.id == id {
          return Some(i);
        }
      }
      return None;
    }
  }

  // ---------------------------------------------------------------- switch

  class Cpu {
    const id: nat
    const readyQueue: RingQueue<Addr>
    var threadAddr: Addr

    ghost predicate Valid()
      reads this, readyQueue
    {
      readyQueue.Valid()
    }

    /** As `setup_tls` leaves it: no current thread, an empty queue. */
    constructor (id: nat)
      ensures this.id == id && Valid() && fresh(readyQueue) && fresh(readyQueue.data)
      ensures threadAddr == Boot(id) && readyQueue.Contents() == []
    {
      this.id := id;
      readyQueue := new RingQueue<Addr>();
      threadAddr := Boot(id);
    }

    /** The timer switch. The `expect` on the push never fails: a thread has just been popped. */
    method Switch()
      requires Valid()
      modifies this`threadAddr, readyQueue, readyQueue.data
      ensures Valid()
      ensures SwitchSpec(old(readyQueue.Contents()), old(threadAddr), Idle(id))
              == Some((readyQueue.Contents(), threadAddr))
    {
      var next := readyQueue.Pop();
      if next.None? {
        return;
      }
      if threadAddr != Idle(id) {
        var rejected := readyQueue.Push(threadAddr);
        assert rejected.None?;
      }
      threadAddr := next.value;
    }
  }

  // ---------------------------------------------------------------- load balancing

  /** Scheduling states after the moved threads were labelled with their new CPU. */
  function Relabel(sched: seq<SchedState>, moved: seq<Addr>, cpu: nat): (r: seq<SchedState>)
    requires forall a :: a in moved ==> a.Task? && a.slot < |sched|
    ensures |r| == |sched|
  {
    if moved == [] then sched
    else
      var rest := Relabel(sched, moved[..|moved| - 1], cpu);
      var t := moved[|moved| - 1].slot;
      rest[t := rest[t].(cpu := Some(cpu))]
  }

  /** Exactly the moved threads carry the new label; nothing else about any thread changes. */
  lemma {:induction false} RelabelResult(sched: seq<SchedState>, moved: seq<Addr>, cpu: nat, t: nat)
    requires forall a :: a in moved ==> a.Task? && a.slot < |sched|
    requires t < |sched|
    ensures Relabel(sched, moved, cpu)[t] == if Task(t) in moved then sched[t].(cpu := Some(cpu)) else sched[t]
  {
    if moved != [] {
      var last := moved[|moved| - 1];
      assert moved == moved[..|moved| - 1] + [last];
      RelabelResult(sched, moved[..|moved| - 1], cpu, t);
    }
  }

  /** One round of the balancer: pop, relabel, push. */
  method MoveThread(src: RingQueue<Addr>, dst: RingQueue<Addr>, cpu: nat, sched: array<SchedState>)
    requires src.Valid() && dst.Valid() && src != dst && src.data != dst.data
    requires |dst.Contents()| < CAPACITY
    requires src.Contents() != [] ==> src.Contents()[0].Task? && src.Contents()[0].slot < sched.Length
    modifies src`head, src`len, dst`tail, dst`len, dst.data, sched
    ensures src.Valid() && dst.Valid()
    ensures var from, to := old(src.Contents()), old(dst.Contents());
            if from == [] then src.Contents() == from && dst.Contents() == to && sched[..] == old(sched[..])
            else
              && src.Contents() == from[1..] && dst.Contents() == to + [from[0]]
              && from[0].slot < |old(sched[..])|
              && sched[..] == old(sched[..])[from[0].slot := old(sched[..])[from[0].slot].(cpu := Some(cpu))]
  {
    var popped := src.Pop();
    if popped.Some? {
      var a := popped.value;
      sched[a.slot] := sched[a.slot].(cpu := Some(cpu));
      var rejected := dst.Push(a);
      assert rejected.None?;
    }
  }

  /** One direction of the balancer. */
  method MoveThreads(src: RingQueue<Addr>, dst: RingQueue<Addr>, count: nat, cpu: nat, sched: array<SchedState>)
    requires src.Valid() && dst.Valid() && src != dst && src.data != dst.data
    requires count <= |src.Contents()| && |dst.Contents()| + count <= CAPACITY
    requires forall a :: a in src.Contents() ==> a.Task? && a.slot < sched.Length
    modifies src`head, src`len, dst`tail, dst`len, dst.data, sched
    ensures src.Valid() && dst.Valid()
    ensures (src.Contents(), dst.Contents()) == Migrate(old(src.Contents()), old(dst.Contents()), count)
    ensures forall a :: a in old(src.Contents())[..count] ==> a.Task? && a.slot < |old(sched[..])|
    ensures sched[..] == Relabel(old(sched[..]), old(src.Contents())[..count], cpu)
  {
    ghost var from, to, states := src.Contents(), dst.Contents(), sched[..];
    assert to + from[..0] == to && from[0..] == from;
    for i := 0 to count
      invariant src.Valid() && dst.Valid()
      invariant src.Contents() == from[i..] && dst.Contents() == to + from[..i]
      invariant forall a :: a in from[..i] ==> a.Task? && a.slot < |states|
      invariant sched[..] == Relabel(states, from[..i], cpu)
    {
      assert from[i..][0] == from[i] && from[i] in from;
      assert from[..i + 1] == from[..i] + [from[i]];
      assert from[..i + 1][..i] == from[..i];
      MoveThread(src, dst, cpu, sched);
    }
  }

  /** Moves half of the imbalance from the longer to the shorter queue. */
  method DoLoadBalance(qa: RingQueue<Addr>, qb: RingQueue<Addr>, cpu: nat, other: nat, sched: array<SchedState>)
    requires qa.Valid() && qb.Valid() && qa != qb && qa.data != qb.data
    requires forall a :: a in qa.Contents() || a in qb.Contents() ==> a.Task? && a.slot < sched.Length
    modifies qa, qb, qa.data, qb.data, sched
    ensures qa.Valid() && qb.Valid()
    ensures (qa.Contents(), qb.Contents()) == BalanceSpec(old(qa.Contents()), old(qb.Contents()))
    ensures var a, b := old(qa.Contents()), old(qb.Contents());
            var k := ToMove(|a|, |b|);
            var moved, target := if |a| >= |b| then a[..k] else b[..k], if |a| >= |b| then other else cpu;
            && (forall x :: x in moved ==> x.Task? && x.slot < |old(sched[..])|)
            && sched[..] == Relabel(old(sched[..]), moved, target)
  {
    var delta: int := qa.len - qb.len;
    if -1 <= delta <= 1 {
      ghost var a, b := qa.Contents(), qb.Contents();
      assert a[0..] == a && b[0..] == b && a + b[..0] == a && b + a[..0] == b;
      return;
    }
    if delta > 0 {
      MoveThreads(qa, qb, delta / 2, other, sched);
    } else {
      MoveThreads(qb, qa, (-delta) / 2, cpu, sched);
    }
  }
}
