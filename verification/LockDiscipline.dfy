/**
 Lock discipline: guards and interrupt flags follow the program points, every lock has at most
 one holder, and a timer interrupt never hits a CPU that holds or awaits a lock.
 */
module LockDiscipline {
  import opened Wrappers
  import opened SchedSpec
  import opened Machine

  // ---------------------------------------------------------------- what a step does to lock lists

  /** `longer` is `shorter` with one more lock acquired last. */
  predicate Extends(longer: seq<Lock>, shorter: seq<Lock>)
  {
    |longer| == |shorter| + 1 && forall i :: 0 <= i < |shorter| ==> longer[i] == shorter[i]
  }

  predicate SameMode(pc: Pc, to: Pc) { InHandler(pc) == InHandler(to) }

  /** How a lock operation moves along the static lock lists of a program. */
  predicate Flow(c: nat, pc: Pc, op: Op, to: Pc)
  {
    var h, h' := Held(pc, c), Held(to, c);
    var w, w' := Wanted(pc, c), Wanted(to, c);
    match op
    case Stay => h' == h && w == w' == None && SameMode(pc, to) && to.Open? == pc.Open?
    case Begin(l) => h' == h && w == None && w' == Some(l) && SameMode(pc, to) && !to.Open?
    case Grant => w.Some? && w'.None? && Extends(h', h) && h'[|h|] == w.value && SameMode(pc, to) && !to.Open?
    case Drop => Extends(h, h') && w == w' == None && SameMode(pc, to) && to.Open? == (h' == [] && !InHandler(pc))
    case Trap(l) => pc.Open? && h' == [] && w' == Some(l) && InHandler(to)
    case Iret => h == h' == [] && w == w' == None && to.Open?
  }

  /** A guard being acquired when nothing is held and the code does not start from `Open` is
      acquired inside the handler. */
  predicate BeginsInside(c: nat, pc: Pc, op: Op)
  {
    op.Begin? && Held(pc, c) == [] && !pc.Open? ==> InHandler(pc)
  }

  lemma MatchGrant(guards: seq<Guard>, held: seq<Lock>, first: bool, g: Guard, held': seq<Lock>)
    requires GuardsMatch(guards, held, first) && g.saved == (held == [] && first)
    requires Extends(held', held) && held'[|held|] == g.lock
    ensures GuardsMatch(guards + [g], held', first)
  {
  }

  lemma MatchDrop(guards: seq<Guard>, held: seq<Lock>, first: bool, held': seq<Lock>)
    requires GuardsMatch(guards, held, first) && Extends(held, held')
    ensures GuardsMatch(guards[..|held'|], held', first)
    ensures guards[|held'|] == Guard(held[|held'|], held' == [] && first)
  {
  }

  lemma EffectKeepsDiscipline(s: State, c: nat, a: Act)
    requires Shape(s) && c < |s.pc| && DataOnly(s, a.data)
    requires Disciplined(c, s.pc[c], s.want[c], s.guards[c], s.irq[c], s.cur[c])
    requires Flow(c, s.pc[c], a.op, a.to) && BeginsInside(c, s.pc[c], a.op)
    requires a.data.cur[c].Boot? == s.cur[c].Boot? || (InHandler(s.pc[c]) && !a.to.Open?) || a.op.Iret?
    requires a.op.Iret? ==> !a.data.cur[c].Boot?
    ensures var s' := Do(s, c, a);
            Disciplined(c, s'.pc[c], s'.want[c], s'.guards[c], s'.irq[c], s'.cur[c])
  {
    var pc, cur, cur' := s.pc[c], s.cur[c], a.data.cur[c];
    var h, h' := Held(pc, c), Held(a.to, c);
    if a.op.Grant? {
      MatchGrant(s.guards[c], h, FoundEnabled(pc, cur), s.want[c].value, h');
    } else if a.op.Drop? {
      MatchDrop(s.guards[c], h, FoundEnabled(pc, cur), h');
      assert h' != [] ==> FoundEnabled(pc, cur) == FoundEnabled(a.to, cur');
    }
  }

  // ---------------------------------------------------------------- mutual exclusion

  predicate Holds(s: State, c: nat, l: Lock)
  {
    c < |s.pc| && l in Held(s.pc[c], c)
  }

  function HeldBy(s: State): seq<seq<Lock>>
  {
    seq(|s.pc|, c requires 0 <= c < |s.pc| => Held(s.pc[c], c))
  }

  /** Every lock bit that is set has exactly one holder, and nobody holds any other lock. */
  ghost predicate Exclusive(held: seq<seq<Lock>>, locks: set<Lock>)
  {
    && (forall c, l :: 0 <= c < |held| && l in held[c] ==> l in locks)
    && (forall c, d, l :: 0 <= c < |held| && 0 <= d < |held| && l in held[c] && l in held[d] ==> c == d)
    && (forall l :: l in locks ==> exists c :: 0 <= c < |held| && l in held[c])
  }

  ghost predicate Mutex(s: State)
  {
    Exclusive(HeldBy(s), s.locks)
  }

  lemma ExclusiveGrant(held: seq<seq<Lock>>, locks: set<Lock>, c: nat, l: Lock)
    requires Exclusive(held, locks) && c < |held| && l !in locks
    ensures Exclusive(held[c := held[c] + [l]], locks + {l})
  {
    var held' := held[c := held[c] + [l]];
    assert l in held'[c];
    forall x | x in locks ensures exists d :: 0 <= d < |held'| && x in held'[d] {
      var d :| 0 <= d < |held| && x in held[d];
      assert x in held'[d];
    }
  }

  lemma ExclusiveDrop(held: seq<seq<Lock>>, locks: set<Lock>, c: nat, h: seq<Lock>, l: Lock)
    requires Exclusive(held, locks) && c < |held| && held[c] == h + [l] && l !in h
    ensures Exclusive(held[c := h], locks - {l})
  {
    var held' := held[c := h];
    assert l in held[c];
    forall x | x in locks - {l} ensures exists d :: 0 <= d < |held'| && x in held'[d] {
      var d :| 0 <= d < |held| && x in held[d];
      assert x in held'[d];
    }
  }

  predicate Distinct(h: seq<Lock>)
  {
    forall i, j :: 0 <= i < j < |h| ==> h[i] != h[j]
  }

  lemma HeldDistinct(c: nat, pc: Pc, cur: Addr, cpus: nat, table: Table, local: map<Addr, Local>)
    requires InRange(c, pc, cur, cpus, table, local)
    ensures Distinct(Held(pc, c))
  {
  }

  lemma EffectKeepsMutex(s: State, c: nat, a: Act)
    requires Shape(s) && c < |s.pc| && DataOnly(s, a.data) && Mutex(s)
    requires Disciplined(c, s.pc[c], s.want[c], s.guards[c], s.irq[c], s.cur[c])
    requires Flow(c, s.pc[c], a.op, a.to) && Distinct(Held(s.pc[c], c))
    requires a.op.Grant? ==> s.want[c].value.lock !in s.locks
    ensures Mutex(Do(s, c, a))
  {
    var s' := Do(s, c, a);
    var h, h' := Held(s.pc[c], c), Held(a.to, c);
    assert s'.pc == s.pc[c := a.to];
    assert HeldBy(s') == HeldBy(s)[c := h'];
    if a.op.Grant? {
      assert h' == h + [s.want[c].value.lock];
      ExclusiveGrant(HeldBy(s), s.locks, c, s.want[c].value.lock);
    } else if a.op.Drop? {
      assert h == h' + [h[|h'|]];
      ExclusiveDrop(HeldBy(s), s.locks, c, h', h[|h'|]);
    } else {
      assert HeldBy(s)[c] == h == h';
      assert HeldBy(s') == HeldBy(s);
    }
  }

  lemma MutexAt(s: State, c: nat, d: nat, l: Lock)
    requires Mutex(s) && Holds(s, c, l) && Holds(s, d, l)
    ensures c == d && l in s.locks
  {
    assert l in HeldBy(s)[c] && l in HeldBy(s)[d];
  }
}
