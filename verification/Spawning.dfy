/**
 A spawned thread does become ready: every newborn thread has somebody on the way to make it ready,
 and when its spawner is done it is scheduled, whatever other CPUs do in between.
 */
module Spawning {
  import opened Wrappers
  import opened SchedSpec
  import opened Machine
  import opened SchedInvariant
  import opened SchedSteps
  import opened SchedTheorems
  import opened Sums

  predicate IsBorn(table: Table, t: nat)
  {
    t < |table| && table[t].Some? && table[t].value.sched.state.Born?
  }

  /** On the way to making the thread in slot `t` ready. */
  predicate Readying(pc: Pc, t: nat) { pc == ReadySchedSpin(t) || pc == ReadyMark(t) }

  /** The thread that added the one in slot `t` and still has to look it up again. */
  predicate Spawner(table: Table, local: map<Addr, Local>, t: nat, x: Addr)
  {
    t < |table| && table[t].Some? && x in local && local[x] == Added(table[t].value.id)
  }

  ghost predicate CaredFor(pc: seq<Pc>, table: Table, local: map<Addr, Local>, t: nat)
  {
    || (exists x :: Spawner(table, local, t, x))
    || (exists c :: 0 <= c < |pc| && Readying(pc[c], t))
  }

  /** Threads are newborn or ready, and somebody is about to make each newborn ready. */
  ghost predicate AllCaredFor(pc: seq<Pc>, table: Table, local: map<Addr, Local>)
  {
    && (forall t: nat :: IsBorn(table, t) ==> CaredFor(pc, table, local, t))
    && (forall t: nat :: t < |table| && table[t].Some? ==> IsBorn(table, t) || IsReady(table, t))
  }

  // ---------------------------------------------------------------- steps

  /** Steps outside spawning and landing leave the table and the spawners alone. */
  lemma TableUntouched(s: State, c: nat, e: Event)
    requires Active(s, c) && Enabled(s, c, e) && !e.FetchId?
    requires e.Advance? ==>
      !s.pc[c].AddHeld? && !s.pc[c].FindHeld? && !s.pc[c].ReadyMark? && !s.pc[c].MoveHeld?
    ensures var a := ActOf(s, c, e); a.data.table == s.table && a.data.local == s.local
  {
  }

  /** The point after the lock is granted is on the way, too. */
  lemma ReadyingGoesOn(s: State, c: nat, e: Event, t: nat)
    requires Active(s, c) && Enabled(s, c, e) && Readying(s.pc[c], t)
    requires !(e.Advance? && s.pc[c].ReadyMark?)
    ensures Readying(ActOf(s, c, e).to, t)
  {
  }

  lemma CareKept(pc: seq<Pc>, pc': seq<Pc>, table: Table, table': Table, local: map<Addr, Local>,
                 local': map<Addr, Local>, t: nat, c: nat)
    requires CaredFor(pc, table, local, t) && t < |table| && table[t].Some?
    requires |pc'| == |pc| && c < |pc| && forall o :: 0 <= o < |pc| && o != c ==> pc'[o] == pc[o]
    requires Readying(pc[c], t) ==> Readying(pc'[c], t)
    requires t < |table'| && table'[t].Some? && table'[t].value.id == table[t].value.id
    requires forall x :: x in local && local[x] == Added(table[t].value.id) ==> x in local' && local'[x] == local[x]
    ensures CaredFor(pc', table', local', t)
  {
    if x :| Spawner(table, local, t, x) {
      assert Spawner(table', local', t, x);
    } else {
      var o :| 0 <= o < |pc| && Readying(pc[o], t);
      assert Readying(pc'[o], t);
    }
  }

  lemma QuietCare(s: State, c: nat, e: Event)
    requires Active(s, c) && Enabled(s, c, e) && AllCaredFor(s.pc, s.table, s.local) && !e.FetchId?
    requires e.Advance? ==>
      !s.pc[c].AddHeld? && !s.pc[c].FindHeld? && !s.pc[c].ReadyMark? && !s.pc[c].MoveHeld?
    ensures var a := ActOf(s, c, e); AllCaredFor(s.pc[c := a.to], a.data.table, a.data.local)
  {
    var a := ActOf(s, c, e);
    TableUntouched(s, c, e);
    forall t: nat | IsBorn(s.table, t) ensures CaredFor(s.pc[c := a.to], s.table, s.local, t) {
      if Readying(s.pc[c], t) {
        ReadyingGoesOn(s, c, e, t);
      }
      CareKept(s.pc, s.pc[c := a.to], s.table, s.table, s.local, s.local, t, c);
    }
  }

  lemma FetchCare(s: State, c: nat)
    requires Active(s, c) && Enabled(s, c, FetchId) && AllCaredFor(s.pc, s.table, s.local)
    ensures AllCaredFor(s.pc[c := Open], s.table, s.local[s.cur[c] := Fresh(s.nextId)])
  {
    forall t: nat | IsBorn(s.table, t)
      ensures CaredFor(s.pc[c := Open], s.table, s.local[s.cur[c] := Fresh(s.nextId)], t)
    {
      CareKept(s.pc, s.pc[c := Open], s.table, s.table, s.local, s.local[s.cur[c] := Fresh(s.nextId)], t, c);
    }
  }

  lemma AddCare(s: State, c: nat)
    requires Active(s, c) && s.pc[c].AddHeld? && AllCaredFor(s.pc, s.table, s.local)
    ensures var a := AddAct(s, c); AllCaredFor(s.pc[c := a.to], a.data.table, a.data.local)
  {
    var a, me := AddAct(s, c), s.cur[c];
    var table', local' := a.data.table, a.data.local;
    forall t: nat | IsBorn(table', t) ensures CaredFor(s.pc[c := a.to], table', local', t) {
      if FirstFree(s.table) == Some(t) {
        assert Spawner(table', local', t, me);
      } else {
        CareKept(s.pc, s.pc[c := a.to], s.table, table', s.local, local', t, c);
      }
    }
  }

  lemma FindCare(s: State, c: nat)
    requires Active(s, c) && s.pc[c].FindHeld? && AllCaredFor(s.pc, s.table, s.local)
    requires IdsOk(s.table, s.local, s.nextId)
    ensures var a := FindAct(s, c); AllCaredFor(s.pc[c := a.to], a.data.table, a.data.local)
  {
    var a, me := FindAct(s, c), s.cur[c];
    LookupFindsOwnThread(s.table, s.local, s.nextId, me);
    var pc' := s.pc[c := a.to];
    forall t: nat | IsBorn(s.table, t) ensures CaredFor(pc', s.table, a.data.local, t) {
      if Spawner(s.table, s.local, t, me) {
        assert HasId(s.table, t, s.local[me].id);
        assert Readying(pc'[c], t);
      } else {
        CareKept(s.pc, pc', s.table, s.table, s.local, a.data.local, t, c);
      }
    }
  }

  lemma MarkCare(s: State, c: nat, t: nat)
    requires Active(s, c) && s.pc[c] == ReadyMark(t) && AllCaredFor(s.pc, s.table, s.local)
    ensures var a := MarkAct(s, c, t); AllCaredFor(s.pc[c := a.to], a.data.table, a.data.local)
  {
    var a := MarkAct(s, c, t);
    forall u: nat | IsBorn(a.data.table, u) ensures CaredFor(s.pc[c := a.to], a.data.table, s.local, u) {
      assert u != t;
      CareKept(s.pc, s.pc[c := a.to], s.table, a.data.table, s.local, s.local, u, c);
    }
  }

  lemma LandCare(s: State, c: nat, p: Plan, left: nat, x: Addr)
    requires Active(s, c) && s.pc[c] == MoveHeld(p, left, x) && AllCaredFor(s.pc, s.table, s.local)
    ensures var a := LandAct(s, p, left, x); AllCaredFor(s.pc[c := a.to], a.data.table, a.data.local)
  {
    var a := LandAct(s, p, left, x);
    forall u: nat | IsBorn(a.data.table, u) ensures CaredFor(s.pc[c := a.to], a.data.table, s.local, u) {
      CareKept(s.pc, s.pc[c := a.to], s.table, a.data.table, s.local, s.local, u, c);
    }
  }

  lemma StepKeepsCare(s: State, c: nat, e: Event)
    requires Inv(s) && Enabled(s, c, e) && AllCaredFor(s.pc, s.table, s.local)
    ensures CpuWf(s, c)
    ensures var s' := Next(s, c, e); AllCaredFor(s'.pc, s'.table, s'.local)
  {
    assert CpuWf(s, c) && Active(s, c);
    EffectFrame(s, c, ActOf(s, c, e));
    var pc := s.pc[c];
    if e.FetchId? {
      FetchCare(s, c);
    } else if e.Advance? && pc.AddHeld? {
      AddCare(s, c);
    } else if e.Advance? && pc.FindHeld? {
      FindCare(s, c);
    } else if e.Advance? && pc.ReadyMark? {
      MarkCare(s, c, pc.slot);
    } else if e.Advance? && pc.MoveHeld? {
      LandCare(s, c, pc.plan, pc.left, pc.hand);
    } else {
      QuietCare(s, c, e);
    }
  }

  lemma {:induction false} RunKeepsCare(s: State, labels: seq<Label>)
    requires Inv(s) && CanRun(s, labels) && AllCaredFor(s.pc, s.table, s.local)
    ensures var s' := After(s, labels); AllCaredFor(s'.pc, s'.table, s'.local)
    decreases |labels|
  {
    if labels != [] {
      StepKeepsCare(s, labels[0].cpu, labels[0].event);
      StepKeepsInv(s, labels[0].cpu, labels[0].event);
      RunKeepsCare(Next(s, labels[0].cpu, labels[0].event), labels[1..]);
    }
  }

  /** With no critical section open, every thread of the table is ready if and only if its spawner is
      not between the two critical sections of `spawn_raw`. */
  lemma ReadyUnlessSpawning(s: State, t: nat)
    requires Reachable(s) && Quiescent(s) && t < |s.table| && s.table[t].Some?
    ensures IsReady(s.table, t) <==> !exists x :: Spawner(s.table, s.local, t, x)
  {
    ReachableInv(s);
    ReachableCare(s);
    if x :| Spawner(s.table, s.local, t, x) {
      SpawnedIsBorn(s.table, s.local, s.nextId, t, x);
    }
  }

  lemma ReachableCare(s: State)
    requires Reachable(s)
    ensures AllCaredFor(s.pc, s.table, s.local)
  {
    var cpus: nat, labels :| Reaches(cpus, labels, s);
    InitInv(cpus);
    RunKeepsCare(Init(cpus), labels);
  }

  lemma SpawnedIsBorn(table: Table, local: map<Addr, Local>, nextId: nat, t: nat, x: Addr)
    requires IdsOk(table, local, nextId) && Spawner(table, local, t, x)
    ensures IsBorn(table, t)
  {
    var u: nat :| HasId(table, u, local[x].id) && table[u].value.sched.state.Born?;
    assert HasId(table, t, local[x].id);
  }

  // ---------------------------------------------------------------- one spawn

  /** The thread that CPU `c` is readying is on its way or has become ready. */
  predicate OnItsWay(s: State, c: nat, t: nat, id: nat)
  {
    && c < |s.pc| && c < |s.cur| && HasId(s.table, t, id)
    && ( || (s.pc[c].FindHeld? && s.cur[c] in s.local && s.local[s.cur[c]] == Added(id))
         || Readying(s.pc[c], t)
         || IsReady(s.table, t))
  }

  lemma ReadyStays(s: State, c: nat, e: Event, t: nat)
    requires Active(s, c) && Enabled(s, c, e) && IsReady(s.table, t)
    ensures IsReady(ActOf(s, c, e).data.table, t)
  {
  }

  /** A step changes the current thread of its own CPU and what its own current thread remembers. */
  lemma OthersRemember(s: State, o: nat, e: Event, c: nat)
    requires Active(s, o) && Enabled(s, o, e) && c < |s.cur| && c != o && s.cur[c] != s.cur[o]
    requires s.cur[c] in s.local
    ensures var d := ActOf(s, o, e).data;
            |d.cur| == |s.cur| && d.cur[c] == s.cur[c] && s.cur[c] in d.local && d.local[s.cur[c]] == s.local[s.cur[c]]
  {
  }

  lemma OwnStepOnItsWay(s: State, c: nat, e: Event, t: nat, id: nat)
    requires Active(s, c) && Enabled(s, c, e) && IdsOk(s.table, s.local, s.nextId)
    requires OnItsWay(s, c, t, id) && !IsReady(s.table, t)
    ensures var a := ActOf(s, c, e); Readying(a.to, t) || IsReady(a.data.table, t)
  {
    if s.pc[c].FindHeld? {
      LookupFindsOwnThread(s.table, s.local, s.nextId, s.cur[c]);
      assert HasId(s.table, FindId(s.table, id).value, id);
    } else if s.pc[c].ReadySchedSpin? {
      ReadyingGoesOn(s, c, e, t);
    }
  }

  lemma StepOnItsWay(s: State, o: nat, e: Event, c: nat, t: nat, id: nat)
    requires Inv(s) && Enabled(s, o, e) && OnItsWay(s, c, t, id)
    ensures CpuWf(s, o) && OnItsWay(Next(s, o, e), c, t, id)
  {
    assert CpuWf(s, o) && Active(s, o) && CpuWf(s, c);
    EffectFrame(s, o, ActOf(s, o, e));
    ActKeepsIds(s, o, e, t, id);
    if IsReady(s.table, t) {
      ReadyStays(s, o, e, t);
    } else if o == c {
      OwnStepOnItsWay(s, c, e, t, id);
    } else if s.pc[c].FindHeld? {
      CurrentsDiffer(s, c, o);
      OthersRemember(s, o, e, c);
    }
  }

  lemma {:induction false} RunOnItsWay(s: State, labels: seq<Label>, c: nat, t: nat, id: nat)
    requires Inv(s) && CanRun(s, labels) && OnItsWay(s, c, t, id)
    ensures OnItsWay(After(s, labels), c, t, id)
    decreases |labels|
  {
    if labels != [] {
      StepOnItsWay(s, labels[0].cpu, labels[0].event, c, t, id);
      StepKeepsInv(s, labels[0].cpu, labels[0].event);
      RunOnItsWay(Next(s, labels[0].cpu, labels[0].event), labels[1..], c, t, id);
    }
  }

  /** Current, waiting, or being moved. */
  ghost predicate Scheduled(s: State, t: nat)
  {
    || (exists c: nat :: RunsOn(s, t, c))
    || (exists q: nat, i: nat :: WaitsAt(s, t, q, i))
    || (exists c :: 0 <= c < |s.pc| && Task(t) in InHand(s.pc[c]))
  }

  lemma ReadyIsScheduled(s: State, t: nat)
    requires Inv(s) && IsReady(s.table, t)
    ensures Scheduled(s, t)
  {
    var a := Task(t);
    OncePerAddress(s, a);
    assert a in ReadySet(s.table);
    if a in Gather(s.cur, AsCurrent) {
      var c := GatherSource(s.cur, AsCurrent, a);
      assert RunsOn(s, t, c);
    } else if a in Gather(s.queues, InQueue) {
      var q := GatherSource(s.queues, InQueue, a);
      var i :| 0 <= i < |s.queues[q]| && s.queues[q][i] == a;
      assert WaitsAt(s, t, q, i);
    } else {
      var c := GatherSource(s.pc, InHand, a);
    }
  }

  /** Spawning schedules: a CPU in the second critical section of `spawn_raw` is about to ready the
      thread with the id it drew. After any run from there at whose end that CPU is back in thread
      code, or anywhere else, that thread is ready and current, waiting or being moved. */
  lemma SpawnSchedules(s: State, c: nat, labels: seq<Label>, t: nat)
    requires Reachable(s) && c < |s.pc| && s.pc[c].FindHeld? && CanRun(s, labels)
    requires c < |s.cur| && s.cur[c] in s.local && HasId(s.table, t, s.local[s.cur[c]].id)
    ensures var s' := After(s, labels);
            && c < |s'.pc| && HasId(s'.table, t, s.local[s.cur[c]].id)
            && (!s'.pc[c].FindHeld? && !Readying(s'.pc[c], t) ==> IsReady(s'.table, t) && Scheduled(s', t))
  {
    ReachableInv(s);
    assert CpuWf(s, c);
    RunOnItsWay(s, labels, c, t, s.local[s.cur[c]].id);
    RunKeepsInv(s, labels);
    var s' := After(s, labels);
    if IsReady(s'.table, t) {
      ReadyIsScheduled(s', t);
    }
  }
}
