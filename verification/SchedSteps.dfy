/** Every step of every CPU keeps the invariant. */
module SchedSteps {
  import opened Wrappers
  import opened SchedSpec
  import opened Machine
  import opened LockDiscipline
  import opened SchedInvariant
  import opened Sums

  /** What must be known about a step's own CPU and about its data to keep the invariant. */
  ghost predicate OwnSide(s: State, c: nat, a: Act)
    requires Shape(s) && c < |s.pc|
  {
    var d := a.data;
    && DataOnly(s, d)
    && Flow(c, s.pc[c], a.op, a.to) && BeginsInside(c, s.pc[c], a.op)
    && (a.op.Grant? ==> s.want[c].Some? && s.want[c].value.lock !in s.locks)
    && (d.cur[c].Boot? == s.cur[c].Boot? || (InHandler(s.pc[c]) && !a.to.Open?) || a.op.Iret?)
    && (a.op.Iret? || InHandler(a.to) ==> !d.cur[c].Boot?)
    && OwnCurrent(c, d.cur[c])
    && InRange(c, a.to, d.cur[c], |s.pc|, d.table, d.local)
    && Relies(c, a.to, d.queues, d.table, d.local)
  }

  /** What must be known about every other CPU: nothing it relies on was touched. */
  predicate OtherSide(s: State, c: nat, d: State, o: nat)
    requires Shape(s) && c < |s.pc| && o < |s.pc| && DataOnly(s, d)
  {
    && d.cur[o] == s.cur[o]
    && InRange(o, s.pc[o], s.cur[o], |s.pc|, d.table, d.local)
    && Relies(o, s.pc[o], d.queues, d.table, d.local)
  }

  ghost predicate DataSide(s: State, c: nat, a: Act)
    requires c < |s.pc|
  {
    && IdsOk(a.data.table, a.data.local, a.data.nextId)
    && Conserved(s.pc[c := a.to], a.data.cur, a.data.queues, a.data.table)
    && LabelsOk(a.data.cur, a.data.queues, a.data.table)
  }

  lemma EffectKeepsOwn(s: State, c: nat, a: Act)
    requires Shape(s) && c < |s.pc| && CpuWf(s, c) && Mutex(s) && OwnSide(s, c, a)
    ensures CpuWf(Do(s, c, a), c) && Mutex(Do(s, c, a))
  {
    HeldDistinct(c, s.pc[c], s.cur[c], |s.pc|, s.table, s.local);
    EffectKeepsDiscipline(s, c, a);
    EffectKeepsMutex(s, c, a);
  }

  /** A step changes the program point, the guards and the interrupt flag of its own CPU only. */
  lemma EffectFrame(s: State, c: nat, a: Act)
    requires Shape(s) && c < |s.pc| && DataOnly(s, a.data)
    ensures var s' := Do(s, c, a);
            && Shape(s') && |s'.pc| == |s.pc| && s'.pc == s.pc[c := a.to]
            && s'.cur == a.data.cur && s'.queues == a.data.queues && s'.table == a.data.table
            && s'.local == a.data.local && s'.nextId == a.data.nextId && s'.online == a.data.online
            && forall o :: 0 <= o < |s.pc| && o != c ==>
                 s'.want[o] == s.want[o] && s'.guards[o] == s.guards[o] && s'.irq[o] == s.irq[o]
  {
  }

  lemma OtherKept(s: State, s': State, o: nat)
    requires Shape(s) && Shape(s') && o < |s.pc| == |s'.pc| && CpuWf(s, o)
    requires s'.pc[o] == s.pc[o] && s'.want[o] == s.want[o] && s'.guards[o] == s.guards[o]
    requires s'.irq[o] == s.irq[o] && s'.cur[o] == s.cur[o]
    requires InRange(o, s.pc[o], s.cur[o], |s.pc|, s'.table, s'.local)
    ensures CpuWf(s', o)
  {
  }

  lemma Assemble(s: State, c: nat, a: Act)
    requires Inv(s) && c < |s.pc| && OwnSide(s, c, a) && DataSide(s, c, a)
    requires forall o :: 0 <= o < |s.pc| && o != c ==> OtherSide(s, c, a.data, o)
    ensures Inv(Do(s, c, a))
  {
    assert CpuWf(s, c);
    EffectKeepsOwn(s, c, a);
    EffectFrame(s, c, a);
    AssembleFrom(s, c, a, Do(s, c, a));
  }

  lemma AssembleFrom(s: State, c: nat, a: Act, s': State)
    requires Wf(s) && c < |s.pc| && DataOnly(s, a.data) && DataSide(s, c, a)
    requires forall o :: 0 <= o < |s.pc| && o != c ==> OtherSide(s, c, a.data, o)
    requires Shape(s') && |s'.pc| == |s.pc| && s'.pc == s.pc[c := a.to]
    requires s'.cur == a.data.cur && s'.queues == a.data.queues && s'.table == a.data.table
    requires s'.local == a.data.local && s'.nextId == a.data.nextId
    requires forall o :: 0 <= o < |s.pc| && o != c ==>
      s'.want[o] == s.want[o] && s'.guards[o] == s.guards[o] && s'.irq[o] == s.irq[o]
    requires CpuWf(s', c) && Mutex(s') && Relies(c, a.to, s'.queues, s'.table, s'.local)
    ensures Inv(s')
  {
    forall o | 0 <= o < |s.pc|
      ensures CpuWf(s', o) && Relies(o, s'.pc[o], s'.queues, s'.table, s'.local)
    {
      if o != c {
        assert OtherSide(s, c, a.data, o);
        OtherKept(s, s', o);
      }
    }
  }

  // ---------------------------------------------------------------- steps that move no thread

  /** A step that only moves along the code, or changes the registry of online CPUs. */
  ghost predicate Quiet(s: State, c: nat, a: Act)
    requires Shape(s) && c < |s.pc|
  {
    && OwnSide(s, c, a) && InHand(a.to) == InHand(s.pc[c])
    && a.data.cur == s.cur && a.data.queues == s.queues && a.data.table == s.table
    && a.data.local == s.local && a.data.nextId == s.nextId
  }

  lemma QuietKeepsInv(s: State, c: nat, a: Act)
    requires Inv(s) && c < |s.pc| && Quiet(s, c, a)
    ensures Inv(Do(s, c, a))
  {
    GatherSame(s.pc, InHand, c, a.to);
    forall o | 0 <= o < |s.pc| && o != c ensures OtherSide(s, c, a.data, o) {
      assert CpuWf(s, o);
    }
    Assemble(s, c, a);
  }

  /** A CPU about to take a step, with what it relies on. */
  predicate Active(s: State, c: nat)
  {
    Shape(s) && c < |s.pc| && CpuWf(s, c) && Relies(c, s.pc[c], s.queues, s.table, s.local)
  }

  lemma GrantedFlow(c: nat, pc: Pc)
    requires Wanted(pc, c).Some?
    ensures Flow(c, pc, Grant, Granted(pc)) && InHand(Granted(pc)) == InHand(pc)
  {
  }

  lemma GrantedInRange(c: nat, pc: Pc, cur: Addr, cpus: nat, table: Table, local: map<Addr, Local>)
    requires InRange(c, pc, cur, cpus, table, local)
    ensures InRange(c, Granted(pc), cur, cpus, table, local)
  {
  }

  lemma GrantedRelies(c: nat, pc: Pc, queues: seq<seq<Addr>>, table: Table, local: map<Addr, Local>)
    requires Relies(c, pc, queues, table, local)
    ensures Relies(c, Granted(pc), queues, table, local)
  {
  }

  lemma GrantIsQuiet(s: State, c: nat)
    requires Active(s, c) && s.want[c].Some? && s.want[c].value.lock !in s.locks
    ensures Quiet(s, c, Act(Grant, Granted(s.pc[c]), s))
  {
    GrantedFlow(c, s.pc[c]);
    GrantedInRange(c, s.pc[c], s.cur[c], |s.pc|, s.table, s.local);
    GrantedRelies(c, s.pc[c], s.queues, s.table, s.local);
  }

  lemma ThreadStepIsQuiet(s: State, c: nat)
    requires Active(s, c) && s.want[c].None?
    requires s.pc[c].OnlineHeld? || s.pc[c].LeafHeld? || s.pc[c].ReadyDropSched? || s.pc[c].ReadyDropTable?
    ensures Quiet(s, c, ThreadWork(s, c))
  {
  }

  /** A step of the handler that only moves along the code. */
  lemma MovingAlongIsQuiet(s: State, c: nat, op: Op, to: Pc)
    requires Active(s, c) && InHandler(s.pc[c]) && !op.Grant?
    requires Flow(c, s.pc[c], op, to) && InHand(to) == InHand(s.pc[c])
    requires InRange(c, to, s.cur[c], |s.pc|, s.table, s.local) && Relies(c, to, s.queues, s.table, s.local)
    ensures Quiet(s, c, Act(op, to, s))
  {
  }

  lemma PickedIsQuiet(s: State, c: nat, k: nat)
    requires Active(s, c) && s.pc[c] == PickHeld(k)
    ensures Quiet(s, c, PickedAct(s, c, k))
  {
    var a := PickedAct(s, c, k);
    MovingAlongIsQuiet(s, c, Drop, a.to);
  }

  lemma HandlerStepIsQuiet(s: State, c: nat)
    requires Active(s, c) && s.want[c].None?
    requires s.pc[c].PickHeld? || s.pc[c].Ordering? || s.pc[c].LowHeld? || s.pc[c].LogHeld?
          || s.pc[c].DropHigh? || s.pc[c].DropLow? || s.pc[c].Returning?
    ensures Quiet(s, c, HandlerWork(s, c))
  {
    if s.pc[c].PickHeld? {
      PickedIsQuiet(s, c, s.pc[c].choice);
    } else {
      var a := HandlerWork(s, c);
      MovingAlongIsQuiet(s, c, a.op, a.to);
    }
  }

  lemma PlanStarts(queues: seq<seq<Addr>>, src: nat, dst: nat)
    requires src < |queues| && dst < |queues| && |queues[src]| > |queues[dst]|
    ensures var k := ToMove(|queues[src]|, |queues[dst]|);
            PlanOk(Plan(src, dst, queues[src], queues[dst], k), k, queues)
  {
    assert queues[src][0..] == queues[src] && queues[dst] + queues[src][..0] == queues[dst];
  }

  lemma PlanFlow(c: nat, lo: nat, hi: nat, p: Plan, k: nat)
    requires Low(p) == lo && High(p) == hi
    ensures Flow(c, Comparing(lo, hi), Stay, Moving(p, k)) && InHandler(Moving(p, k))
    ensures InHand(Comparing(lo, hi)) == InHand(Moving(p, k))
  {
  }

  /** A decision to move threads from `src` to `dst`. */
  lemma PlanIsQuiet(s: State, c: nat, p: Plan, k: nat)
    requires Active(s, c) && s.pc[c] == Comparing(Low(p), High(p)) && PlanOk(p, k, s.queues)
    ensures Quiet(s, c, Act(Stay, Moving(p, k), s))
  {
    PlanFlow(c, Low(p), High(p), p, k);
    MovingAlongIsQuiet(s, c, Stay, Moving(p, k));
  }

  lemma CompareIsQuiet(s: State, c: nat, lo: nat, hi: nat)
    requires Active(s, c) && s.pc[c] == Comparing(lo, hi)
    ensures Quiet(s, c, CompareAct(s, c, lo, hi))
  {
    var to := CompareAct(s, c, lo, hi).to;
    if to.Moving? {
      PlanStarts(s.queues, to.plan.src, to.plan.dst);
      PlanIsQuiet(s, c, to.plan, to.left);
    } else {
      MovingAlongIsQuiet(s, c, Stay, DropHigh(lo, hi));
    }
  }

  lemma EventIsQuiet(s: State, c: nat, e: Event)
    requires Active(s, c) && Enabled(s, c, e)
    requires e.Timer? || e.Pick? || e.StartOnline? || e.StartLeaf? || e.StartAdd? || e.StartFind?
    ensures Quiet(s, c, ActOf(s, c, e))
  {
  }

  // ---------------------------------------------------------------- steps on ids

  predicate SlotsKept(table: Table, table': Table)
  {
    |table'| == |table| && forall t :: 0 <= t < |table| && table[t].Some? ==> table'[t].Some?
  }

  lemma InRangeKept(o: nat, pc: Pc, cur: Addr, cpus: nat,
                    table: Table, local: map<Addr, Local>, table': Table, local': map<Addr, Local>)
    requires InRange(o, pc, cur, cpus, table, local) && SlotsKept(table, table')
    requires cur in local ==> cur in local' && local'[cur] == local[cur]
    ensures InRange(o, pc, cur, cpus, table', local')
  {
  }

  /** A step that changes the table or its own thread's private state, in ways that the other
      CPUs' assumptions survive, does not disturb the other CPUs. */
  lemma OthersKept(s: State, c: nat, d: State)
    requires Inv(s) && c < |s.pc| && DataOnly(s, d) && d.cur == s.cur && d.queues == s.queues
    requires SlotsKept(s.table, d.table)
    requires forall x :: x in s.local && x != s.cur[c] ==> x in d.local && d.local[x] == s.local[x]
    requires forall o :: 0 <= o < |s.pc| && o != c && Relies(o, s.pc[o], s.queues, s.table, s.local) ==>
               Relies(o, s.pc[o], s.queues, d.table, d.local)
    ensures forall o :: 0 <= o < |s.pc| && o != c ==> OtherSide(s, c, d, o)
  {
    forall o | 0 <= o < |s.pc| && o != c ensures OtherSide(s, c, d, o) {
      assert CpuWf(s, o) && CpuWf(s, c);
      CurrentsDiffer(s, c, o);
      InRangeKept(o, s.pc[o], s.cur[o], |s.pc|, s.table, s.local, d.table, d.local);
    }
  }

  lemma FreshIdHarmless(table: Table, local: map<Addr, Local>, id: nat, me: Addr,
                        o: nat, pc: Pc, queues: seq<seq<Addr>>)
    requires IdsOk(table, local, id) && Relies(o, pc, queues, table, local)
    ensures Relies(o, pc, queues, table, local[me := Fresh(id)])
  {
    var local' := local[me := Fresh(id)];
    forall t: nat | Newborn(table, local, t) ensures Newborn(table, local', t) {
      assert HasId(table, t, table[t].value.id);
    }
  }

  lemma FetchIdKeepsInv(s: State, c: nat)
    requires Inv(s) && Enabled(s, c, FetchId) && CpuWf(s, c)
    ensures Inv(Do(s, c, ActOf(s, c, FetchId)))
  {
    var a := ActOf(s, c, FetchId);
    assert s.pc[c := a.to] == s.pc;
    forall o | 0 <= o < |s.pc| && o != c && Relies(o, s.pc[o], s.queues, s.table, s.local)
      ensures Relies(o, s.pc[o], s.queues, a.data.table, a.data.local)
    {
      FreshIdHarmless(s.table, s.local, s.nextId, s.cur[c], o, s.pc[o], s.queues);
    }
    OthersKept(s, c, a.data);
    Assemble(s, c, a);
  }

  /** Adding a newborn thread to a free slot keeps the ids straight. */
  lemma AddedIds(table: Table, local: map<Addr, Local>, nextId: nat, me: Addr, f: nat)
    requires IdsOk(table, local, nextId) && me in local && local[me].Fresh?
    requires f < |table| && table[f].None?
    ensures var th := Thread(local[me].id, SchedState(None, Born));
            IdsOk(table[f := Some(th)], local[me := Added(local[me].id)], nextId)
  {
    var id := local[me].id;
    var table' := table[f := Some(Thread(id, SchedState(None, Born)))];
    var local' := local[me := Added(id)];
    assert HasId(table', f, id);
    forall t: nat, i: nat ensures HasId(table', t, i) <==> HasId(table, t, i) || (t == f && i == id) {
    }
    forall x | x in local' && local'[x].Added? ensures BornWithId(table', local'[x].id) {
      if x != me {
        var t: nat :| HasId(table, t, local[x].id) && table[t].value.sched.state.Born?;
        assert HasId(table', t, local'[x].id) && table'[t].value.sched.state.Born?;
      }
    }
  }

  /** ... and changes nothing for the threads already there. */
  lemma AddedData(table: Table, f: nat, th: Thread, cur: seq<Addr>, queues: seq<seq<Addr>>)
    requires f < |table| && table[f].None? && th.sched.state.Born?
    ensures var table' := table[f := Some(th)];
            && ReadySet(table') == ReadySet(table)
            && (LabelsOk(cur, queues, table) ==> LabelsOk(cur, queues, table'))
  {
    var table' := table[f := Some(th)];
    forall t: nat ensures IsReady(table', t) == IsReady(table, t) {}
  }

  lemma AddedRelies(s: State, c: nat, d: State)
    requires c < |s.pc| && SameThreads(s.table, d.table) && d.queues == s.queues
    requires forall x :: x in d.local ==> x in s.local && d.local[x].id == s.local[x].id
    ensures forall o :: 0 <= o < |s.pc| && o != c && Relies(o, s.pc[o], s.queues, s.table, s.local) ==>
              Relies(o, s.pc[o], s.queues, d.table, d.local)
  {
  }

  predicate SameThreads(table: Table, table': Table)
  {
    |table'| == |table| && forall t :: 0 <= t < |table| && table[t].Some? ==> table'[t] == table[t]
  }

  lemma AddOwn(s: State, c: nat)
    requires Active(s, c) && s.pc[c].AddHeld?
    ensures OwnSide(s, c, AddAct(s, c))
    ensures var d := AddAct(s, c).data; SameThreads(s.table, d.table) && d.queues == s.queues && d.cur == s.cur
  {
  }

  lemma AddedSide(s: State, c: nat)
    requires Active(s, c) && s.pc[c].AddHeld? && IdsOk(s.table, s.local, s.nextId)
    requires Conserved(s.pc, s.cur, s.queues, s.table) && LabelsOk(s.cur, s.queues, s.table)
    ensures DataSide(s, c, AddAct(s, c))
  {
    var a, me, f := AddAct(s, c), s.cur[c], FirstFree(s.table);
    GatherSame(s.pc, InHand, c, a.to);
    if f.Some? {
      AddedIds(s.table, s.local, s.nextId, me, f.value);
      AddedData(s.table, f.value, Thread(s.local[me].id, SchedState(None, Born)), s.cur, s.queues);
    }
  }

  lemma AddKeepsInv(s: State, c: nat)
    requires Inv(s) && c < |s.pc| && CpuWf(s, c) && s.pc[c].AddHeld?
    ensures Inv(Do(s, c, AddAct(s, c)))
  {
    var a := AddAct(s, c);
    assert Active(s, c);
    AddOwn(s, c);
    AddedRelies(s, c, a.data);
    OthersKept(s, c, a.data);
    AddedSide(s, c);
    Assemble(s, c, a);
  }

  /** The second lookup of `spawn_raw` finds the thread it added, still newborn. */
  lemma LookupFindsOwnThread(table: Table, local: map<Addr, Local>, nextId: nat, me: Addr)
    requires IdsOk(table, local, nextId) && me in local && local[me].Added?
    ensures var found := FindId(table, local[me].id);
            && found.Some? && HasId(table, found.value, local[me].id)
            && Newborn(table, local - {me}, found.value)
  {
    var id := local[me].id;
    var t: nat :| HasId(table, t, id) && table[t].value.sched.state.Born?;
    var found := FindId(table, id);
    assert HasId(table, found.value, id);
  }

  lemma FindOwn(s: State, c: nat)
    requires Active(s, c) && s.pc[c].FindHeld? && IdsOk(s.table, s.local, s.nextId)
    ensures var a := FindAct(s, c);
            && OwnSide(s, c, a) && a.to.ReadySchedSpin? && a.data.local == s.local - {s.cur[c]}
            && a.data.table == s.table && a.data.queues == s.queues && a.data.cur == s.cur && a.data.nextId == s.nextId
  {
    LookupFindsOwnThread(s.table, s.local, s.nextId, s.cur[c]);
  }

  lemma FindKeepsInv(s: State, c: nat)
    requires Inv(s) && c < |s.pc| && CpuWf(s, c) && s.pc[c].FindHeld?
    ensures !FindAct(s, c).to.Panicked? && Inv(Do(s, c, FindAct(s, c)))
  {
    var a := FindAct(s, c);
    FindOwn(s, c);
    AddedRelies(s, c, a.data);
    OthersKept(s, c, a.data);
    assert DataSide(s, c, a) by {
      GatherSame(s.pc, InHand, c, a.to);
    }
    Assemble(s, c, a);
  }

  // ---------------------------------------------------------------- making a thread ready

  lemma MarkedIds(table: Table, local: map<Addr, Local>, nextId: nat, t: nat, sched: SchedState)
    requires IdsOk(table, local, nextId) && Newborn(table, local, t)
    ensures IdsOk(table[t := Some(table[t].value.(sched := sched))], local, nextId)
  {
    var table' := table[t := Some(table[t].value.(sched := sched))];
    forall u: nat, i: nat ensures HasId(table', u, i) <==> HasId(table, u, i) {
    }
    forall x | x in local && local[x].Added? ensures BornWithId(table', local[x].id) {
      var u: nat :| HasId(table, u, local[x].id) && table[u].value.sched.state.Born?;
      assert HasId(table', u, local[x].id) && table'[u].value.sched.state.Born?;
    }
  }

  lemma MarkedReadySet(table: Table, t: nat, cpu: nat)
    requires t < |table| && table[t].Some? && !IsReady(table, t)
    ensures var table' := table[t := Some(table[t].value.(sched := SchedState(Some(cpu), Ready)))];
            multiset(ReadySet(table')) == multiset(ReadySet(table)) + multiset{Task(t)}
  {
    var table' := table[t := Some(table[t].value.(sched := SchedState(Some(cpu), Ready)))];
    forall u: nat ensures IsReady(table', u) <==> IsReady(table, u) || u == t {}
    assert ReadySet(table') == ReadySet(table) + {Task(t)};
    assert Task(t) !in ReadySet(table);
  }

  /** Another CPU's assumptions speak about slot `t` only if it holds the table lock. */
  lemma MarkedRelies(s: State, c: nat, t: nat, o: nat, d: State)
    requires Mutex(s) && c < |s.pc| && o < |s.pc| && o != c && s.pc[c] == ReadyMark(t)
    requires t < |s.table| && s.table[t].Some?
    requires d.table == s.table[t := Some(s.table[t].value.(sched := SchedState(Some(c), Ready)))] && d.local == s.local
    requires Relies(o, s.pc[o], s.queues, s.table, s.local)
    ensures Relies(o, s.pc[o], s.queues, d.table, d.local)
  {
    assert Holds(s, c, TableLock);
    if Holds(s, o, TableLock) {
      MutexAt(s, c, o, TableLock);
      assert false;
    }
  }

  lemma MarkOwn(s: State, c: nat, t: nat)
    requires Active(s, c) && s.pc[c] == ReadyMark(t)
    ensures OwnSide(s, c, MarkAct(s, c, t))
  {
  }

  lemma MarkLabels(s: State, c: nat, t: nat, table': Table)
    requires Conserved(s.pc, s.cur, s.queues, s.table) && LabelsOk(s.cur, s.queues, s.table)
    requires !IsReady(s.table, t) && |table'| == |s.table|
    requires forall u :: 0 <= u < |s.table| && u != t ==> table'[u] == s.table[u]
    ensures LabelsOk(s.cur, s.queues, table')
  {
    NotReadyIsNowhere(s, t);
  }

  /** A thread appears in a hand. */
  lemma MarkBag(s: State, c: nat, to: Pc, x: Addr)
    requires c < |s.pc| && InHand(s.pc[c]) == multiset{} && InHand(to) == multiset{x}
    ensures Bag(s.pc[c := to], s.cur, s.queues) == Bag(s.pc, s.cur, s.queues) + multiset{x}
  {
    GatherAdd(s.pc, InHand, c, to, multiset{x});
  }

  lemma MarkKeepsInv(s: State, c: nat, t: nat)
    requires Inv(s) && c < |s.pc| && CpuWf(s, c) && s.pc[c] == ReadyMark(t)
    ensures Inv(Do(s, c, MarkAct(s, c, t)))
  {
    var a := MarkAct(s, c, t);
    assert Relies(c, s.pc[c], s.queues, s.table, s.local);
    MarkOwn(s, c, t);
    forall o | 0 <= o < |s.pc| && o != c && Relies(o, s.pc[o], s.queues, s.table, s.local)
      ensures Relies(o, s.pc[o], s.queues, a.data.table, a.data.local)
    {
      MarkedRelies(s, c, t, o, a.data);
    }
    OthersKept(s, c, a.data);
    assert DataSide(s, c, a) by {
      MarkedIds(s.table, s.local, s.nextId, t, SchedState(Some(c), Ready));
      MarkLabels(s, c, t, a.data.table);
      MarkedReadySet(s.table, t, c);
      MarkBag(s, c, a.to, Task(t));
    }
    Assemble(s, c, a);
  }

  // ---------------------------------------------------------------- steps on queues

  /** Only the holder of a queue's lock has assumptions about the queue. */
  lemma QueueRelies(s: State, c: nat, q: nat, queue: seq<Addr>, o: nat)
    requires Mutex(s) && Holds(s, c, QueueLock(q)) && o < |s.pc| && o != c && q < |s.queues|
    requires Relies(o, s.pc[o], s.queues, s.table, s.local)
    ensures Relies(o, s.pc[o], s.queues[q := queue], s.table, s.local)
  {
    if Holds(s, o, QueueLock(q)) {
      MutexAt(s, c, o, QueueLock(q));
      assert false;
    }
  }

  lemma QueueOthers(s: State, c: nat, q: nat, queue: seq<Addr>, d: State)
    requires Inv(s) && Holds(s, c, QueueLock(q)) && q < |s.queues| && DataOnly(s, d)
    requires d.queues == s.queues[q := queue] && d.table == s.table && d.local == s.local
    requires forall o :: 0 <= o < |s.pc| && o != c ==> d.cur[o] == s.cur[o]
    ensures forall o :: 0 <= o < |s.pc| && o != c ==> OtherSide(s, c, d, o)
  {
    forall o | 0 <= o < |s.pc| && o != c ensures OtherSide(s, c, d, o) {
      assert CpuWf(s, o);
      QueueRelies(s, c, q, queue, o);
    }
  }

  /** A thread goes from a hand to the back of a queue. */
  lemma PushBag(s: State, c: nat, to: Pc, q: nat, x: Addr)
    requires c < |s.pc| && q < |s.queues| && InHand(s.pc[c]) == multiset{x} && InHand(to) == multiset{}
    ensures Bag(s.pc[c := to], s.cur, s.queues[q := s.queues[q] + [x]]) == Bag(s.pc, s.cur, s.queues)
  {
    GatherRemove(s.pc, InHand, c, to, multiset{x});
    assert multiset(s.queues[q] + [x]) == multiset(s.queues[q]) + multiset{x};
    GatherAdd(s.queues, InQueue, q, s.queues[q] + [x], multiset{x});
  }

  lemma PushOwn(s: State, c: nat, t: nat)
    requires Active(s, c) && s.pc[c] == ReadyQueueHeld(t) && |s.queues[c]| < CAPACITY
    ensures OwnSide(s, c, ReadyPushAct(s, c, t))
  {
  }

  lemma PushKeepsInv(s: State, c: nat, t: nat)
    requires Inv(s) && c < |s.pc| && CpuWf(s, c) && s.pc[c] == ReadyQueueHeld(t)
    ensures !ReadyPushAct(s, c, t).to.Panicked? && Inv(Do(s, c, ReadyPushAct(s, c, t)))
  {
    var a := ReadyPushAct(s, c, t);
    assert Relies(c, s.pc[c], s.queues, s.table, s.local);
    QueuesFit(s, c);
    PushOwn(s, c, t);
    QueueOthers(s, c, c, s.queues[c] + [Task(t)], a.data);
    assert DataSide(s, c, a) by {
      PushBag(s, c, a.to, c, Task(t));
    }
    Assemble(s, c, a);
  }

  // ---------------------------------------------------------------- switch

  lemma {:induction false} MultisetHead(q: seq<Addr>)
    requires q != []
    ensures multiset(q) == multiset(q[1..]) + multiset{q[0]}
  {
    assert q == [q[0]] + q[1..];
  }

  /** The oldest waiting thread leaves the queue for the place of the idle thread. */
  lemma SwitchFromIdleBag(s: State, c: nat, to: Pc)
    requires c < |s.pc| && c < |s.cur| && c < |s.queues| && InHand(to) == InHand(s.pc[c])
    requires s.queues[c] != [] && s.queues[c][0].Task? && !s.cur[c].Task?
    ensures Bag(s.pc[c := to], s.cur[c := s.queues[c][0]], s.queues[c := s.queues[c][1..]])
            == Bag(s.pc, s.cur, s.queues)
  {
    var next := s.queues[c][0];
    GatherSame(s.pc, InHand, c, to);
    MultisetHead(s.queues[c]);
    GatherRemove(s.queues, InQueue, c, s.queues[c][1..], multiset{next});
    GatherAdd(s.cur, AsCurrent, c, next, multiset{next});
  }

  lemma QueueExchange(queues: seq<seq<Addr>>, c: nat, x: Addr)
    requires c < |queues| && queues[c] != []
    ensures Gather(queues[c := queues[c][1..] + [x]], InQueue) + multiset{queues[c][0]}
            == Gather(queues, InQueue) + multiset{x}
  {
    var next, rest := queues[c][0], queues[c][1..];
    MultisetHead(queues[c]);
    assert multiset(rest + [x]) == multiset(rest) + multiset{x};
    GatherExchange(queues, InQueue, c, rest + [x], multiset(rest), multiset{next}, multiset{x});
  }

  lemma CurrentExchange(cur: seq<Addr>, c: nat, x: Addr)
    requires c < |cur| && cur[c].Task? && x.Task?
    ensures Gather(cur[c := x], AsCurrent) + multiset{cur[c]} == Gather(cur, AsCurrent) + multiset{x}
  {
    GatherExchange(cur, AsCurrent, c, x, multiset{}, multiset{cur[c]}, multiset{x});
  }

  lemma ExchangeInSum<A>(q: multiset<A>, q': multiset<A>, c: multiset<A>, c': multiset<A>,
                         x: multiset<A>, y: multiset<A>)
    requires q' + x == q + y && c' + y == c + x
    ensures q' + c' == q + c
  {
    forall a ensures q'[a] + c'[a] == q[a] + c[a] {
      assert (q' + x)[a] == (q + y)[a] && (c' + y)[a] == (c + x)[a];
    }
  }

  /** The oldest waiting thread and the current one change places. */
  lemma SwitchBag(s: State, c: nat, to: Pc)
    requires c < |s.pc| && c < |s.cur| && c < |s.queues| && InHand(to) == InHand(s.pc[c])
    requires s.queues[c] != [] && s.queues[c][0].Task? && s.cur[c].Task?
    ensures Bag(s.pc[c := to], s.cur[c := s.queues[c][0]], s.queues[c := s.queues[c][1..] + [s.cur[c]]])
            == Bag(s.pc, s.cur, s.queues)
  {
    var me, next := s.cur[c], s.queues[c][0];
    GatherSame(s.pc, InHand, c, to);
    QueueExchange(s.queues, c, me);
    CurrentExchange(s.cur, c, next);
    ExchangeInSum(Gather(s.queues, InQueue), Gather(s.queues[c := s.queues[c][1..] + [me]], InQueue),
                  Gather(s.cur, AsCurrent), Gather(s.cur[c := next], AsCurrent), multiset{next}, multiset{me});
  }

  lemma SwitchFits(s: State, c: nat)
    requires Shape(s) && Conserved(s.pc, s.cur, s.queues, s.table) && c < |s.pc|
    ensures !SwitchAct(s, c).to.Panicked?
  {
    QueuesFit(s, c);
  }

  lemma SwitchOwn(s: State, c: nat)
    requires Active(s, c) && s.pc[c].SwitchHeld? && LabelsOk(s.cur, s.queues, s.table)
    requires !SwitchAct(s, c).to.Panicked?
    ensures OwnSide(s, c, SwitchAct(s, c))
  {
    if s.queues[c] != [] {
      assert s.queues[c][0] in s.queues[c];
    }
  }

  lemma SwitchNothingBag(s: State, c: nat, to: Pc)
    requires c < |s.pc| && c < |s.cur| && c < |s.queues| && InHand(to) == InHand(s.pc[c])
    ensures Bag(s.pc[c := to], s.cur[c := s.cur[c]], s.queues[c := s.queues[c]]) == Bag(s.pc, s.cur, s.queues)
  {
    GatherSame(s.pc, InHand, c, to);
    assert s.cur[c := s.cur[c]] == s.cur && s.queues[c := s.queues[c]] == s.queues;
  }

  lemma SwitchConserves(s: State, c: nat)
    requires Shape(s) && c < |s.pc| && s.pc[c].SwitchHeld? && OwnCurrent(c, s.cur[c]) && !s.cur[c].Boot?
    requires LabelsOk(s.cur, s.queues, s.table) && !SwitchAct(s, c).to.Panicked?
    ensures var a := SwitchAct(s, c); Bag(s.pc[c := a.to], a.data.cur, a.data.queues) == Bag(s.pc, s.cur, s.queues)
  {
    var a := SwitchAct(s, c);
    if s.queues[c] == [] {
      assert a == Act(Drop, Picking, s.(queues := s.queues[c := s.queues[c]], cur := s.cur[c := s.cur[c]]));
      SwitchNothingBag(s, c, a.to);
    } else {
      assert s.queues[c][0] in s.queues[c];
      if s.cur[c].Task? {
        SwitchBag(s, c, a.to);
      } else {
        SwitchFromIdleBag(s, c, a.to);
      }
    }
  }

  lemma SwitchLabels(s: State, c: nat)
    requires Active(s, c) && s.pc[c].SwitchHeld? && LabelsOk(s.cur, s.queues, s.table)
    requires !SwitchAct(s, c).to.Panicked?
    ensures var a := SwitchAct(s, c); LabelsOk(a.data.cur, a.data.queues, s.table)
  {
    var a := SwitchAct(s, c);
    forall x | x in a.data.queues[c] ensures Labelled(s.table, x, c) {
      assert x in s.queues[c] || x == s.cur[c];
    }
    if s.queues[c] != [] {
      assert s.queues[c][0] in s.queues[c];
    }
  }

  lemma SwitchData(s: State, c: nat)
    requires Inv(s) && Active(s, c) && s.pc[c].SwitchHeld? && !SwitchAct(s, c).to.Panicked?
    ensures DataSide(s, c, SwitchAct(s, c))
  {
    SwitchConserves(s, c);
    SwitchLabels(s, c);
  }

  lemma SwitchFrame(s: State, c: nat)
    requires Shape(s) && c < |s.pc| && s.pc[c].SwitchHeld?
    ensures Holds(s, c, QueueLock(c))
    ensures var d := SwitchAct(s, c).data;
            && d.queues == s.queues[c := d.queues[c]] && d.table == s.table && d.local == s.local
            && forall o :: 0 <= o < |s.pc| && o != c ==> d.cur[o] == s.cur[o]
  {
  }

  lemma SwitchKeepsInv(s: State, c: nat)
    requires Inv(s) && c < |s.pc| && CpuWf(s, c) && s.pc[c].SwitchHeld?
    ensures !SwitchAct(s, c).to.Panicked? && Inv(Do(s, c, SwitchAct(s, c)))
  {
    var a := SwitchAct(s, c);
    SwitchFits(s, c);
    assert Active(s, c);
    SwitchOwn(s, c);
    SwitchData(s, c);
    SwitchFrame(s, c);
    QueueOthers(s, c, c, a.data.queues[c], a.data);
    Assemble(s, c, a);
  }

  // ---------------------------------------------------------------- balance

  lemma TakeOwn(s: State, c: nat, p: Plan, left: nat)
    requires Active(s, c) && s.pc[c] == Moving(p, left) && left > 0 && LabelsOk(s.cur, s.queues, s.table)
    ensures var a := MoveAct(s, p, left);
            && s.queues[p.src] != [] && a.to.MoveSpin? && a.to.hand == s.queues[p.src][0]
            && OwnSide(s, c, a)
  {
    var k := p.total - left;
    var q := s.queues[p.src];
    assert q[0] in q;
    assert q[1..] == p.srcOld[k + 1..];
  }

  /** A thread goes from the front of a queue into a hand. */
  lemma TakeBag(s: State, c: nat, to: Pc, q: nat)
    requires c < |s.pc| && q < |s.queues| && s.queues[q] != []
    requires InHand(s.pc[c]) == multiset{} && InHand(to) == multiset{s.queues[q][0]}
    ensures Bag(s.pc[c := to], s.cur, s.queues[q := s.queues[q][1..]]) == Bag(s.pc, s.cur, s.queues)
  {
    MultisetHead(s.queues[q]);
    GatherRemove(s.queues, InQueue, q, s.queues[q][1..], multiset{s.queues[q][0]});
    GatherAdd(s.pc, InHand, c, to, multiset{s.queues[q][0]});
  }

  lemma HoldsBoth(s: State, c: nat)
    requires c < |s.pc| && (s.pc[c].Moving? || s.pc[c].MoveSpin? || s.pc[c].MoveHeld?)
    ensures Holds(s, c, QueueLock(s.pc[c].plan.src)) && Holds(s, c, QueueLock(s.pc[c].plan.dst))
  {
    var h := Held(s.pc[c], c);
    assert h[0] in h && h[1] in h;
  }

  lemma MoveKeepsInv(s: State, c: nat, p: Plan, left: nat)
    requires Inv(s) && c < |s.pc| && CpuWf(s, c) && s.pc[c] == Moving(p, left)
    ensures Inv(Do(s, c, MoveAct(s, p, left)))
  {
    assert Active(s, c);
    if left == 0 {
      LogIsQuiet(s, c, p);
      QuietKeepsInv(s, c, MoveAct(s, p, 0));
    } else {
      TakeKeepsInv(s, c, p, left);
    }
  }

  lemma TakeKeepsInv(s: State, c: nat, p: Plan, left: nat)
    requires Inv(s) && Active(s, c) && s.pc[c] == Moving(p, left) && left > 0
    ensures Inv(Do(s, c, MoveAct(s, p, left)))
  {
    var a := MoveAct(s, p, left);
    TakeOwn(s, c, p, left);
    HoldsBoth(s, c);
    QueueOthers(s, c, p.src, s.queues[p.src][1..], a.data);
    assert DataSide(s, c, a) by {
      TakeBag(s, c, a.to, p.src);
    }
    Assemble(s, c, a);
  }

  lemma LogIsQuiet(s: State, c: nat, p: Plan)
    requires Active(s, c) && s.pc[c] == Moving(p, 0)
    ensures Quiet(s, c, MoveAct(s, p, 0))
  {
  }

  lemma LandOwn(s: State, c: nat, p: Plan, left: nat, x: Addr)
    requires Active(s, c) && s.pc[c] == MoveHeld(p, left, x) && |s.queues[p.dst]| < CAPACITY
    ensures OwnSide(s, c, LandAct(s, p, left, x))
  {
    var k := p.total - left;
    assert p.srcOld[..k + 1] == p.srcOld[..k] + [x];
    assert p.dstOld + p.srcOld[..k + 1] == s.queues[p.dst] + [x];
  }

  lemma RelabelledIds(table: Table, local: map<Addr, Local>, nextId: nat, t: nat, cpu: nat)
    requires IdsOk(table, local, nextId) && t < |table| && table[t].Some?
    ensures IdsOk(Relabelled(table, t, cpu), local, nextId)
    ensures ReadySet(Relabelled(table, t, cpu)) == ReadySet(table)
  {
    var table' := Relabelled(table, t, cpu);
    forall u: nat, i: nat ensures HasId(table', u, i) <==> HasId(table, u, i) {}
    forall u: nat ensures IsReady(table', u) <==> IsReady(table, u) {}
    forall x | x in local && local[x].Added? ensures BornWithId(table', local[x].id) {
      var u: nat :| HasId(table, u, local[x].id) && table[u].value.sched.state.Born?;
      assert HasId(table', u, local[x].id) && table'[u].value.sched.state.Born?;
    }
  }

  lemma LandLabels(s: State, c: nat, q: nat, x: Addr)
    requires Conserved(s.pc, s.cur, s.queues, s.table) && LabelsOk(s.cur, s.queues, s.table)
    requires c < |s.pc| && q < |s.queues| && x in InHand(s.pc[c]) && ValidTask(s.table, x)
    ensures LabelsOk(s.cur, s.queues[q := s.queues[q] + [x]], Relabelled(s.table, x.slot, q))
  {
    InHandIsNowhereElse(s, c, x);
    var queues' := s.queues[q := s.queues[q] + [x]];
    forall r, y | 0 <= r < |queues'| && y in queues'[r] ensures Labelled(Relabelled(s.table, x.slot, q), y, r) {
      assert y in s.queues[r] || (r == q && y == x);
    }
  }

  /** Other CPUs' assumptions survive a landing: they have none about the queue, and none about
      the label of a thread whose scheduling lock they do not hold. */
  lemma LandRelies(s: State, c: nat, p: Plan, left: nat, x: Addr, o: nat, queue: seq<Addr>)
    requires Mutex(s) && c < |s.pc| && o < |s.pc| && o != c && s.pc[c] == MoveHeld(p, left, x)
    requires ValidTask(s.table, x) && p.dst < |s.queues|
    requires Relies(o, s.pc[o], s.queues, s.table, s.local)
    ensures Relies(o, s.pc[o], s.queues[p.dst := queue], Relabelled(s.table, x.slot, p.dst), s.local)
  {
    HoldsBoth(s, c);
    QueueRelies(s, c, p.dst, queue, o);
    var h := Held(s.pc[c], c);
    assert h[2] in h && Holds(s, c, SchedLock(x));
    if Holds(s, o, SchedLock(x)) {
      MutexAt(s, c, o, SchedLock(x));
      assert false;
    }
    RelabelRelies(o, s.pc[o], s.queues[p.dst := queue], s.table, s.local, x, p.dst);
  }

  lemma RelabelRelies(o: nat, pc: Pc, queues: seq<seq<Addr>>, table: Table, local: map<Addr, Local>, x: Addr, cpu: nat)
    requires Relies(o, pc, queues, table, local) && ValidTask(table, x)
    requires SchedLock(x) !in Held(pc, o)
    ensures Relies(o, pc, queues, Relabelled(table, x.slot, cpu), local)
  {
    if pc.ReadyQueueSpin? || pc.ReadyQueueHeld? {
      var h := Held(pc, o);
      assert h[1] in h;
    }
  }

  lemma LandOthers(s: State, c: nat, p: Plan, left: nat, x: Addr, d: State)
    requires Inv(s) && c < |s.pc| && s.pc[c] == MoveHeld(p, left, x) && ValidTask(s.table, x)
    requires p.dst < |s.queues| && DataOnly(s, d) && d.cur == s.cur && d.local == s.local
    requires d.queues == s.queues[p.dst := s.queues[p.dst] + [x]]
    requires d.table == Relabelled(s.table, x.slot, p.dst)
    ensures forall o :: 0 <= o < |s.pc| && o != c ==> OtherSide(s, c, d, o)
  {
    forall o | 0 <= o < |s.pc| && o != c ensures OtherSide(s, c, d, o) {
      assert CpuWf(s, o);
      LandRelies(s, c, p, left, x, o, s.queues[p.dst] + [x]);
      InRangeKept(o, s.pc[o], s.cur[o], |s.pc|, s.table, s.local, d.table, d.local);
    }
  }

  lemma LandKeepsInv(s: State, c: nat, p: Plan, left: nat, x: Addr)
    requires Inv(s) && c < |s.pc| && CpuWf(s, c) && s.pc[c] == MoveHeld(p, left, x)
    ensures !LandAct(s, p, left, x).to.Panicked? && Inv(Do(s, c, LandAct(s, p, left, x)))
  {
    var a := LandAct(s, p, left, x);
    assert Relies(c, s.pc[c], s.queues, s.table, s.local);
    QueuesFit(s, p.dst);
    LandOwn(s, c, p, left, x);
    LandOthers(s, c, p, left, x, a.data);
    RelabelledIds(s.table, s.local, s.nextId, x.slot, p.dst);
    LandLabels(s, c, p.dst, x);
    PushBag(s, c, a.to, p.dst, x);
    Assemble(s, c, a);
  }

  // ---------------------------------------------------------------- leaving the boot code

  lemma IdleOwn(s: State, c: nat, a: Act)
    requires Shape(s) && Enabled(s, c, ForceIdle) && CpuWf(s, c)
    requires a == Act(Iret, Open, s.(cur := s.cur[c := Idle(c)]))
    ensures OwnSide(s, c, a)
  {
  }

  lemma IdleData(s: State, c: nat, a: Act)
    requires c < |s.pc| && c < |s.cur| && s.pc[c].Open? && s.cur[c].Boot?
    requires a == Act(Iret, Open, s.(cur := s.cur[c := Idle(c)])) && IdsOk(s.table, s.local, s.nextId)
    requires Conserved(s.pc, s.cur, s.queues, s.table) && LabelsOk(s.cur, s.queues, s.table)
    ensures DataSide(s, c, a)
  {
    assert s.pc[c := Open] == s.pc;
    GatherSame(s.cur, AsCurrent, c, Idle(c));
  }

  lemma ForceIdleKeepsInv(s: State, c: nat)
    requires Inv(s) && Enabled(s, c, ForceIdle) && CpuWf(s, c)
    ensures Inv(Do(s, c, ActOf(s, c, ForceIdle)))
  {
    var a := Act(Iret, Open, s.(cur := s.cur[c := Idle(c)]));
    IdleOwn(s, c, a);
    IdleData(s, c, a);
    forall o | 0 <= o < |s.pc| && o != c ensures OtherSide(s, c, a.data, o) {
      assert CpuWf(s, o);
    }
    Assemble(s, c, a);
  }

  // ---------------------------------------------------------------- all steps

  lemma ThreadWorkKeepsInv(s: State, c: nat)
    requires Inv(s) && c < |s.pc| && CpuWf(s, c) && s.want[c].None?
    requires !s.pc[c].Open? && !s.pc[c].Panicked? && !InHandler(s.pc[c])
    ensures !ThreadWork(s, c).to.Panicked? && Inv(Do(s, c, ThreadWork(s, c)))
  {
    var pc := s.pc[c];
    if pc.AddHeld? {
      AddKeepsInv(s, c);
    } else if pc.FindHeld? {
      FindKeepsInv(s, c);
    } else if pc.ReadyMark? {
      MarkKeepsInv(s, c, pc.slot);
    } else if pc.ReadyQueueHeld? {
      PushKeepsInv(s, c, pc.slot);
    } else {
      ThreadStepIsQuiet(s, c);
      QuietKeepsInv(s, c, ThreadWork(s, c));
    }
  }

  lemma HandlerWorkKeepsInv(s: State, c: nat)
    requires Inv(s) && c < |s.pc| && CpuWf(s, c) && s.want[c].None?
    requires InHandler(s.pc[c]) && !s.pc[c].Picking?
    ensures !HandlerWork(s, c).to.Panicked? && Inv(Do(s, c, HandlerWork(s, c)))
  {
    var pc := s.pc[c];
    if pc.SwitchHeld? {
      SwitchKeepsInv(s, c);
    } else if pc.Comparing? {
      CompareIsQuiet(s, c, pc.lo, pc.hi);
      QuietKeepsInv(s, c, CompareAct(s, c, pc.lo, pc.hi));
    } else if pc.Moving? {
      MoveKeepsInv(s, c, pc.plan, pc.left);
    } else if pc.MoveHeld? {
      LandKeepsInv(s, c, pc.plan, pc.left, pc.hand);
    } else {
      HandlerStepIsQuiet(s, c);
      QuietKeepsInv(s, c, HandlerWork(s, c));
    }
  }

  /** No step of any CPU breaks the invariant, and none panics. */
  lemma StepKeepsInv(s: State, c: nat, e: Event)
    requires Inv(s) && Enabled(s, c, e)
    ensures CpuWf(s, c) && Inv(Next(s, c, e)) && !ActOf(s, c, e).to.Panicked?
  {
    assert CpuWf(s, c) && Active(s, c);
    if e.FetchId? {
      FetchIdKeepsInv(s, c);
    } else if e.ForceIdle? {
      ForceIdleKeepsInv(s, c);
    } else if !e.Advance? {
      EventIsQuiet(s, c, e);
      QuietKeepsInv(s, c, ActOf(s, c, e));
    } else if s.want[c].Some? {
      GrantIsQuiet(s, c);
      QuietKeepsInv(s, c, Act(Grant, Granted(s.pc[c]), s));
    } else if InHandler(s.pc[c]) {
      HandlerWorkKeepsInv(s, c);
    } else {
      ThreadWorkKeepsInv(s, c);
    }
  }
}
