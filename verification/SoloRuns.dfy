/**
 What whole kernel operations do when nothing interferes: a CPU that is alone in the kernel runs an
 operation from beginning to end, and the complete state afterwards is the one the operation's
 description gives. Each operation can run to its end from every quiet state.
 */
module SoloRuns {
  import opened Wrappers
  import opened SchedSpec
  import opened Machine
  import opened LockDiscipline
  import opened SchedInvariant
  import opened SchedSteps
  import opened SchedTheorems
  import opened Deadlock

  // ---------------------------------------------------------------- running alone

  predicate OthersOpen(s: State, c: nat)
  {
    c < |s.pc| && forall o :: 0 <= o < |s.pc| && o != c ==> s.pc[o].Open?
  }

  /** CPU `c` just goes on, with `k` as the number it draws if it draws one. */
  predicate GoesOn(labels: seq<Label>, c: nat, k: nat)
  {
    forall i :: 0 <= i < |labels| ==> labels[i] == Label(c, Advance) || labels[i] == Label(c, Pick(k))
  }

  /** One step of a CPU that is alone in the kernel. */
  lemma AloneStep(s: State, c: nat, e: Event)
    requires Inv(s) && OthersOpen(s, c) && Enabled(s, c, e)
    ensures CpuWf(s, c) && Inv(Next(s, c, e)) && OthersOpen(Next(s, c, e), c)
    ensures |Next(s, c, e).pc| == |s.pc|
  {
    StepKeepsInv(s, c, e);
    EffectFrame(s, c, ActOf(s, c, e));
  }

  lemma FirstOfRun(s: State, labels: seq<Label>, c: nat, k: nat)
    requires CanRun(s, labels) && labels != [] && GoesOn(labels, c, k)
    ensures Wf(s) && labels[0].cpu == c && (labels[0].event == Advance || labels[0].event == Pick(k))
    ensures Enabled(s, c, labels[0].event) && CpuWf(s, c)
    ensures CanRun(Next(s, c, labels[0].event), labels[1..]) && GoesOn(labels[1..], c, k)
    ensures After(s, labels) == After(Next(s, c, labels[0].event), labels[1..])
  {
    assert labels[0] == Label(c, Advance) || labels[0] == Label(c, Pick(k));
  }

  /** It can always finish. */
  lemma {:induction false} FinishesAlone(s: State, c: nat, k: nat) returns (labels: seq<Label>)
    requires Inv(s) && OthersOpen(s, c)
    ensures CanRun(s, labels) && GoesOn(labels, c, k)
    ensures Quiescent(After(s, labels))
    decreases TotalWork(s)
  {
    if Quiescent(s) {
      labels := [];
    } else {
      var d, e := OneMoreStep(s, k);
      assert d == c;
      AloneStep(s, c, e);
      var rest := FinishesAlone(Next(s, c, e), c, k);
      labels := [Label(c, e)] + rest;
      RunFrom(s, c, e, rest);
    }
  }

  /** Quiet states differ in their data only. */
  lemma QuietAlike(s: State, s': State)
    requires Inv(s) && Inv(s') && Quiescent(s) && Quiescent(s') && |s.pc| == |s'.pc|
    requires forall c :: 0 <= c < |s.cur| && c < |s'.cur| ==> s'.cur[c].Boot? == s.cur[c].Boot?
    ensures s'.pc == s.pc && s'.want == s.want && s'.guards == s.guards && s'.irq == s.irq && s'.locks == s.locks
  {
    NothingLocked(s);
    NothingLocked(s');
    forall c | 0 <= c < |s.pc|
      ensures s'.pc[c] == s.pc[c] && s'.want[c] == s.want[c] && s'.guards[c] == s.guards[c] && s'.irq[c] == s.irq[c]
    {
      assert CpuWf(s, c) && CpuWf(s', c);
    }
  }

  lemma NothingLocked(s: State)
    requires Mutex(s) && Quiescent(s)
    ensures s.locks == {}
  {
    assert forall c :: 0 <= c < |HeldBy(s)| ==> HeldBy(s)[c] == [];
  }

  // ---------------------------------------------------------------- short critical sections

  predicate InSection(pc: Pc, e: Event)
  {
    if e.StartOnline? then pc.OnlineSpin? || pc.OnlineHeld?
    else e.StartLeaf? && (pc == LeafSpin(e.leaf) || pc == LeafHeld(e.leaf))
  }

  predicate SameData(s: State, s': State)
  {
    && s'.cur == s.cur && s'.queues == s.queues && s'.table == s.table && s'.nextId == s.nextId
    && s'.local == s.local
  }

  /** What a short section has done so far. */
  predicate SectionPhase(s0: State, c: nat, e: Event, s: State)
  {
    && OthersOpen(s, c) && |s.pc| == |s0.pc| && SameData(s0, s)
    && ( || (InSection(s.pc[c], e) && s.online == s0.online)
         || (s.pc[c].Open? && s.online == if e.StartOnline? then s0.online + {c} else s0.online))
  }

  lemma SectionStep(s0: State, c: nat, e: Event, s: State)
    requires Active(s, c) && Enabled(s, c, Advance) && SectionPhase(s0, c, e, s)
    ensures SectionPhase(s0, c, e, Next(s, c, Advance))
  {
    EffectFrame(s, c, ActOf(s, c, Advance));
  }

  lemma {:induction false} SectionRun(s0: State, c: nat, e: Event, s: State, labels: seq<Label>)
    requires Inv(s) && SectionPhase(s0, c, e, s) && CanRun(s, labels) && GoesOn(labels, c, 0)
    ensures SectionPhase(s0, c, e, After(s, labels))
    decreases |labels|
  {
    if labels != [] {
      assert CpuWf(s, c) && Active(s, c);
      assert labels[0] == Label(c, Advance);
      SectionStep(s0, c, e, s);
      AloneStep(s, c, Advance);
      SectionRun(s0, c, e, Next(s, c, Advance), labels[1..]);
    }
  }

  /** Bringing a CPU online registers that CPU and changes nothing else; printing and allocating
      frames leave the scheduler as it is. */
  lemma SectionAlone(s: State, c: nat, e: Event, labels: seq<Label>)
    requires Inv(s) && Quiescent(s) && (e.StartOnline? || e.StartLeaf?)
    requires CanRun(s, [Label(c, e)] + labels) && GoesOn(labels, c, 0)
    ensures var s' := After(s, [Label(c, e)] + labels);
            Quiescent(s') ==> s' == s.(online := if e.StartOnline? then s.online + {c} else s.online)
  {
    assert ([Label(c, e)] + labels)[1..] == labels;
    SectionBegins(s, c, e);
    var s1 := Next(s, c, e);
    SectionRun(s, c, e, s1, labels);
    RunKeepsInv(s1, labels);
    if Quiescent(After(s1, labels)) {
      QuietAlike(s, After(s1, labels));
    }
  }

  lemma SectionBegins(s: State, c: nat, e: Event)
    requires Inv(s) && Quiescent(s) && (e.StartOnline? || e.StartLeaf?) && Enabled(s, c, e)
    ensures CpuWf(s, c) && Inv(Next(s, c, e)) && SectionPhase(s, c, e, Next(s, c, e))
  {
    AloneStep(s, c, e);
    EffectFrame(s, c, ActOf(s, c, e));
  }

  /** Such sections can always be run to their end. */
  lemma SectionFinishes(s: State, c: nat, e: Event) returns (labels: seq<Label>)
    requires Inv(s) && Quiescent(s) && (e.StartOnline? || e.StartLeaf?) && Enabled(s, c, e)
    ensures CanRun(s, [Label(c, e)] + labels) && GoesOn(labels, c, 0)
    ensures After(s, [Label(c, e)] + labels) == s.(online := if e.StartOnline? then s.online + {c} else s.online)
  {
    SectionBegins(s, c, e);
    labels := FinishesAlone(Next(s, c, e), c, 0);
    RunFrom(s, c, e, labels);
    SectionAlone(s, c, e, labels);
  }

  /** Once a CPU is online, `force_switch_to_idle` makes its idle thread current and enables its
      interrupts. */
  lemma IdleAlone(s: State, c: nat)
    requires Inv(s) && Quiescent(s) && c < |s.pc| && c in s.online && s.cur[c].Boot? && s.cur[c] !in s.local
    ensures Enabled(s, c, ForceIdle) && CpuWf(s, c)
    ensures Next(s, c, ForceIdle) == s.(cur := s.cur[c := Idle(c)], irq := s.irq[c := true])
  {
    assert CpuWf(s, c);
    assert s.pc[c := Open] == s.pc;
  }

  // ---------------------------------------------------------------- spawning

  /** The state after a spawn by the current thread of CPU `c`: a fresh id is used up; unless the table
      is full, the lowest free slot holds a ready thread with that id, labelled with the CPU and last
      in its queue. */
  function Spawned(s: State, c: nat): State
    requires Shape(s) && c < |s.pc|
  {
    var f := FirstFree(s.table);
    if f.None? then s.(nextId := s.nextId + 1)
    else s.(nextId := s.nextId + 1,
            table := s.table[f.value := Some(Thread(s.nextId, SchedState(Some(c), Ready)))],
            queues := s.queues[c := s.queues[c] + [Task(f.value)]])
  }

  /** How far a spawn has come, by program point: what the table, the queues and the private state of
      the spawning thread are. */
  predicate SpawnPhase(s0: State, c: nat, pc: Pc, table: Table, queues: seq<seq<Addr>>, local: map<Addr, Local>)
    requires Shape(s0) && c < |s0.pc|
  {
    var f := FirstFree(s0.table);
    || Starting(s0, c, pc, table, queues, local)
    || (f.None? && pc.Open? && table == s0.table && queues == s0.queues && local == s0.local)
    || (f.Some? && (|| Looking(s0, c, f.value, pc, table, queues, local)
                    || Marking(s0, c, f.value, pc, table, queues, local)
                    || Queueing(s0, c, f.value, pc, table, queues, local)))
  }

  predicate Starting(s0: State, c: nat, pc: Pc, table: Table, queues: seq<seq<Addr>>, local: map<Addr, Local>)
    requires c < |s0.cur|
  {
    && (pc.Open? || pc.AddSpin? || pc.AddHeld?)
    && table == s0.table && queues == s0.queues && local == s0.local[s0.cur[c] := Fresh(s0.nextId)]
  }

  function WithChild(s0: State, f: nat, sched: SchedState): Table
    requires f < |s0.table|
  {
    s0.table[f := Some(Thread(s0.nextId, sched))]
  }

  predicate Looking(s0: State, c: nat, f: nat, pc: Pc, table: Table, queues: seq<seq<Addr>>, local: map<Addr, Local>)
    requires c < |s0.cur| && f < |s0.table|
  {
    && (pc.Open? || pc.FindSpin? || pc.FindHeld?)
    && table == WithChild(s0, f, SchedState(None, Born)) && queues == s0.queues
    && local == s0.local[s0.cur[c] := Added(s0.nextId)]
  }

  predicate Marking(s0: State, c: nat, f: nat, pc: Pc, table: Table, queues: seq<seq<Addr>>, local: map<Addr, Local>)
    requires f < |s0.table|
  {
    && (pc == ReadySchedSpin(f) || pc == ReadyMark(f))
    && table == WithChild(s0, f, SchedState(None, Born)) && queues == s0.queues && local == s0.local
  }

  predicate Queueing(s0: State, c: nat, f: nat, pc: Pc, table: Table, queues: seq<seq<Addr>>, local: map<Addr, Local>)
    requires c < |s0.queues| && f < |s0.table|
  {
    && table == WithChild(s0, f, SchedState(Some(c), Ready)) && local == s0.local
    && if pc == ReadyQueueSpin(f) || pc == ReadyQueueHeld(f) then queues == s0.queues
       else (pc == ReadyDropSched(f) || pc.ReadyDropTable? || pc.Open?)
            && queues == s0.queues[c := s0.queues[c] + [Task(f)]]
  }

  /** The new thread is the only one with its id. */
  lemma FindsFresh(table: Table, f: nat, id: nat, sched: SchedState)
    requires f < |table| && forall t: nat :: !HasId(table, t, id)
    ensures FindId(table[f := Some(Thread(id, sched))], id) == Some(f)
  {
    var found := FindId(table[f := Some(Thread(id, sched))], id);
    assert table[f := Some(Thread(id, sched))][f].value.id == id;
    assert found.Some?;
    assert !HasId(table, found.value, id);
  }

  predicate SpawnEvent(e: Event) { e.Advance? || e.StartAdd? || e.StartFind? }

  /** The act of a step leads to the next phase. */
  predicate SpawnAct(s0: State, c: nat, a: Act)
    requires Shape(s0) && c < |s0.pc|
  {
    SpawnPhase(s0, c, a.to, a.data.table, a.data.queues, a.data.local)
  }

  ghost predicate SpawnFrame(s0: State, c: nat, s: State)
    requires Shape(s0) && c < |s0.pc|
  {
    && OthersOpen(s, c) && |s.pc| == |s0.pc| && s.cur == s0.cur && s.online == s0.online && s.nextId == s0.nextId + 1
    && s0.cur[c] !in s0.local && forall t: nat :: !HasId(s0.table, t, s0.nextId)
  }

  lemma StartingStep(s0: State, c: nat, s: State, e: Event)
    requires Shape(s0) && c < |s0.pc| && Active(s, c) && Enabled(s, c, e) && SpawnEvent(e)
    requires SpawnFrame(s0, c, s) && Starting(s0, c, s.pc[c], s.table, s.queues, s.local)
    ensures SpawnAct(s0, c, ActOf(s, c, e))
  {
    if s.pc[c].AddHeld? {
      assert s.local - {s0.cur[c]} == s0.local;
      assert s.local[s0.cur[c] := Added(s0.nextId)] == s0.local[s0.cur[c] := Added(s0.nextId)];
    }
  }

  lemma LookingStep(s0: State, c: nat, f: nat, s: State, e: Event)
    requires Shape(s0) && c < |s0.pc| && Active(s, c) && Enabled(s, c, e) && SpawnEvent(e) && SpawnFrame(s0, c, s)
    requires FirstFree(s0.table) == Some(f) && Looking(s0, c, f, s.pc[c], s.table, s.queues, s.local)
    ensures SpawnAct(s0, c, ActOf(s, c, e))
  {
    if s.pc[c].FindHeld? {
      FindsFresh(s0.table, f, s0.nextId, SchedState(None, Born));
      assert s.local - {s0.cur[c]} == s0.local;
    }
  }

  lemma MarkingStep(s0: State, c: nat, f: nat, s: State, e: Event)
    requires Shape(s0) && c < |s0.pc| && Active(s, c) && Enabled(s, c, e) && SpawnEvent(e) && SpawnFrame(s0, c, s)
    requires FirstFree(s0.table) == Some(f) && Marking(s0, c, f, s.pc[c], s.table, s.queues, s.local)
    ensures SpawnAct(s0, c, ActOf(s, c, e))
  {
    assert s.table[f := Some(Thread(s0.nextId, SchedState(Some(c), Ready)))]
        == WithChild(s0, f, SchedState(Some(c), Ready));
  }

  lemma QueueingStep(s0: State, c: nat, f: nat, s: State, e: Event)
    requires Shape(s0) && c < |s0.pc| && Active(s, c) && Enabled(s, c, e) && SpawnEvent(e) && SpawnFrame(s0, c, s)
    requires FirstFree(s0.table) == Some(f) && Queueing(s0, c, f, s.pc[c], s.table, s.queues, s.local)
    requires s.pc[c].ReadyQueueHeld? ==> |s.queues[c]| < CAPACITY
    ensures SpawnAct(s0, c, ActOf(s, c, e))
  {
  }

  lemma SpawnDataKept(s: State, c: nat, e: Event)
    requires Active(s, c) && Enabled(s, c, e) && SpawnEvent(e) && !InHandler(s.pc[c]) && !s.pc[c].OnlineHeld?
    ensures var d := ActOf(s, c, e).data; d.cur == s.cur && d.online == s.online && d.nextId == s.nextId
  {
  }

  ghost predicate Spawns(s0: State, c: nat, s: State)
    requires Shape(s0) && c < |s0.pc|
  {
    SpawnFrame(s0, c, s) && SpawnPhase(s0, c, s.pc[c], s.table, s.queues, s.local)
  }

  lemma SpawnActStep(s0: State, c: nat, s: State, e: Event)
    requires Shape(s0) && c < |s0.pc| && Active(s, c) && Enabled(s, c, e) && SpawnEvent(e) && Spawns(s0, c, s)
    requires s.pc[c].ReadyQueueHeld? ==> |s.queues[c]| < CAPACITY
    ensures SpawnAct(s0, c, ActOf(s, c, e))
  {
    var f := FirstFree(s0.table);
    if Starting(s0, c, s.pc[c], s.table, s.queues, s.local) {
      StartingStep(s0, c, s, e);
    } else if f.Some? && Looking(s0, c, f.value, s.pc[c], s.table, s.queues, s.local) {
      LookingStep(s0, c, f.value, s, e);
    } else if f.Some? && Marking(s0, c, f.value, s.pc[c], s.table, s.queues, s.local) {
      MarkingStep(s0, c, f.value, s, e);
    } else if f.Some? {
      QueueingStep(s0, c, f.value, s, e);
    }
  }

  lemma RoomToReady(s: State, c: nat)
    requires Inv(s) && c < |s.pc| && s.pc[c].ReadyQueueHeld?
    ensures |s.queues[c]| < CAPACITY
  {
    QueuesFit(s, c);
    assert |InHand(s.pc[c])| > 0;
  }

  lemma SpawnNext(s0: State, c: nat, s: State, e: Event)
    requires Shape(s0) && c < |s0.pc| && Active(s, c) && Enabled(s, c, e) && SpawnEvent(e) && Spawns(s0, c, s)
    requires SpawnAct(s0, c, ActOf(s, c, e))
    ensures Spawns(s0, c, Next(s, c, e))
  {
    EffectFrame(s, c, ActOf(s, c, e));
    SpawnDataKept(s, c, e);
  }

  lemma SpawnStep(s0: State, c: nat, s: State, e: Event)
    requires Shape(s0) && c < |s0.pc| && Inv(s) && Enabled(s, c, e) && SpawnEvent(e) && Spawns(s0, c, s)
    ensures CpuWf(s, c) && Inv(Next(s, c, e)) && Spawns(s0, c, Next(s, c, e))
  {
    assert CpuWf(s, c) && Active(s, c);
    if s.pc[c].ReadyQueueHeld? {
      RoomToReady(s, c);
    }
    SpawnActStep(s0, c, s, e);
    SpawnNext(s0, c, s, e);
    StepKeepsInv(s, c, e);
  }

  /** CPU `c` goes on spawning. */
  predicate SpawnsOn(labels: seq<Label>, c: nat)
  {
    forall i :: 0 <= i < |labels| ==> labels[i].cpu == c && SpawnEvent(labels[i].event)
  }

  lemma {:induction false} SpawnRun(s0: State, c: nat, s: State, labels: seq<Label>)
    requires Shape(s0) && c < |s0.pc| && Inv(s) && Spawns(s0, c, s) && CanRun(s, labels) && SpawnsOn(labels, c)
    ensures Inv(After(s, labels)) && Spawns(s0, c, After(s, labels))
    decreases |labels|
  {
    if labels != [] {
      assert labels[0].cpu == c;
      SpawnStep(s0, c, s, labels[0].event);
      SpawnRun(s0, c, Next(s, c, labels[0].event), labels[1..]);
    }
  }

  lemma SpawnBegins(s: State, c: nat)
    requires Inv(s) && Quiescent(s) && Enabled(s, c, FetchId)
    ensures CpuWf(s, c) && Inv(Next(s, c, FetchId)) && Spawns(s, c, Next(s, c, FetchId))
  {
    AloneStep(s, c, FetchId);
    EffectFrame(s, c, ActOf(s, c, FetchId));
  }

  lemma SpawnEnds(s0: State, c: nat, s: State)
    requires Inv(s0) && Quiescent(s0) && c < |s0.pc| && Inv(s) && Spawns(s0, c, s)
    requires s.pc[c].Open? && s0.cur[c] !in s.local
    ensures s == Spawned(s0, c)
  {
    QuietAlike(s0, s);
    SpawnData(s0, c, s);
  }

  lemma SpawnData(s0: State, c: nat, s: State)
    requires Shape(s0) && c < |s0.pc| && Spawns(s0, c, s) && s.pc[c].Open? && s0.cur[c] !in s.local
    ensures var w := Spawned(s0, c);
            && s.table == w.table && s.queues == w.queues && s.local == w.local && s.nextId == w.nextId
            && s.cur == w.cur && s.online == w.online
  {
  }

  /** Spawning alone: from any quiet state, a run of the spawning code of one thread to its end leaves
      exactly the state `Spawned`. */
  lemma SpawnAlone(s: State, c: nat, labels: seq<Label>)
    requires Inv(s) && Quiescent(s) && c < |s.pc|
    requires CanRun(s, [Label(c, FetchId)] + labels) && SpawnsOn(labels, c)
    ensures var s' := After(s, [Label(c, FetchId)] + labels);
            c < |s'.pc| && (s'.pc[c].Open? && s.cur[c] !in s'.local ==> s' == Spawned(s, c))
  {
    assert ([Label(c, FetchId)] + labels)[1..] == labels;
    SpawnBegins(s, c);
    SpawnRun(s, c, Next(s, c, FetchId), labels);
    var s' := After(Next(s, c, FetchId), labels);
    if s'.pc[c].Open? && s.cur[c] !in s'.local {
      SpawnEnds(s, c, s');
    }
  }

  /** Steps left, by program point and by what the spawning thread remembers. */
  function SpawnRank(pc: Pc, me: Addr, local: map<Addr, Local>): nat
  {
    if pc.Open? then (if me !in local then 0 else if local[me].Fresh? then 23 else 20)
    else if pc.AddSpin? then 22
    else if pc.AddHeld? then 21
    else 10 + WorkLeft(pc)
  }

  lemma SpawnGoesOn(s0: State, c: nat, s: State) returns (e: Event)
    requires Shape(s0) && c < |s0.pc| && Inv(s) && Spawns(s0, c, s)
    requires !(s.pc[c].Open? && s0.cur[c] !in s.local)
    ensures Enabled(s, c, e) && SpawnEvent(e)
  {
    if s.pc[c].Open? {
      e := if s.local[s0.cur[c]].Fresh? then StartAdd else StartFind;
    } else {
      var d;
      d, e := SomeoneContinues(s, 0);
      assert d == c;
    }
  }

  predicate InSpawn(pc: Pc)
  {
    || pc.Open? || pc.AddSpin? || pc.AddHeld? || pc.FindSpin? || pc.FindHeld? || InReady(pc)
  }

  predicate InReady(pc: Pc)
  {
    || pc.ReadySchedSpin? || pc.ReadyMark? || pc.ReadyQueueSpin? || pc.ReadyQueueHeld? || pc.ReadyDropSched?
    || pc.ReadyDropTable?
  }

  lemma SpawnRankFalls(s: State, c: nat, e: Event)
    requires Active(s, c) && Enabled(s, c, e) && SpawnEvent(e) && InSpawn(s.pc[c])
    requires InReady(s.pc[c]) ==> s.cur[c] !in s.local
    ensures var a := ActOf(s, c, e); SpawnRank(a.to, s.cur[c], a.data.local) < SpawnRank(s.pc[c], s.cur[c], s.local)
  {
    if e.Advance? && s.want[c].Some? {
      GrantDescends(c, s.pc[c]);
    } else if e.Advance? {
      ThreadWorkDescends(s, c);
    }
  }

  lemma SpawnPoints(s0: State, c: nat, s: State)
    requires Shape(s0) && c < |s0.pc| && Spawns(s0, c, s)
    ensures InSpawn(s.pc[c]) && (InReady(s.pc[c]) ==> s0.cur[c] !in s.local)
  {
  }

  lemma SpawnOneMore(s0: State, c: nat, s: State) returns (e: Event, s': State)
    requires Shape(s0) && c < |s0.pc| && Inv(s) && Spawns(s0, c, s)
    requires !(s.pc[c].Open? && s0.cur[c] !in s.local)
    ensures Wf(s) && Enabled(s, c, e) && SpawnEvent(e) && CpuWf(s, c)
    ensures s' == Next(s, c, e) && Inv(s') && Spawns(s0, c, s')
    ensures SpawnRank(s'.pc[c], s0.cur[c], s'.local) < SpawnRank(s.pc[c], s0.cur[c], s.local)
  {
    e := SpawnGoesOn(s0, c, s);
    SpawnStep(s0, c, s, e);
    SpawnNearer(s0, c, s, e);
    s' := Next(s, c, e);
  }

  lemma {:induction false} SpawnsToTheEnd(s0: State, c: nat, s: State) returns (labels: seq<Label>)
    requires Shape(s0) && c < |s0.pc| && Inv(s) && Spawns(s0, c, s)
    ensures CanRun(s, labels) && SpawnsOn(labels, c)
    ensures var s' := After(s, labels); c < |s'.pc| && s'.pc[c].Open? && s0.cur[c] !in s'.local
    decreases SpawnRank(s.pc[c], s0.cur[c], s.local)
  {
    if s.pc[c].Open? && s0.cur[c] !in s.local {
      labels := [];
    } else {
      var e, s' := SpawnOneMore(s0, c, s);
      var rest := SpawnsToTheEnd(s0, c, s');
      labels := [Label(c, e)] + rest;
      SpawnsFrom(s, c, e, s', rest);
    }
  }

  lemma SpawnsFrom(s: State, c: nat, e: Event, s': State, rest: seq<Label>)
    requires Wf(s) && Enabled(s, c, e) && CpuWf(s, c) && s' == Next(s, c, e) && SpawnEvent(e)
    requires CanRun(s', rest) && SpawnsOn(rest, c)
    ensures CanRun(s, [Label(c, e)] + rest) && SpawnsOn([Label(c, e)] + rest, c)
    ensures After(s, [Label(c, e)] + rest) == After(s', rest)
  {
    RunFrom(s, c, e, rest);
  }

  lemma SpawnNearer(s0: State, c: nat, s: State, e: Event)
    requires Shape(s0) && c < |s0.pc| && Inv(s) && Enabled(s, c, e) && SpawnEvent(e) && Spawns(s0, c, s)
    ensures CpuWf(s, c)
    ensures var s' := Next(s, c, e);
            |s'.pc| == |s.pc| && SpawnRank(s'.pc[c], s0.cur[c], s'.local) < SpawnRank(s.pc[c], s0.cur[c], s.local)
  {
    assert CpuWf(s, c) && Active(s, c);
    SpawnPoints(s0, c, s);
    SpawnRankFalls(s, c, e);
    EffectFrame(s, c, ActOf(s, c, e));
  }

  /** ... and every spawn can run to its end. */
  lemma SpawnFinishes(s: State, c: nat) returns (labels: seq<Label>)
    requires Inv(s) && Quiescent(s) && c < |s.pc| && c in s.online && s.cur[c] !in s.local
    ensures CanRun(s, [Label(c, FetchId)] + labels) && SpawnsOn(labels, c)
    ensures After(s, [Label(c, FetchId)] + labels) == Spawned(s, c)
  {
    SpawnBegins(s, c);
    labels := SpawnsToTheEnd(s, c, Next(s, c, FetchId));
    RunFrom(s, c, FetchId, labels);
    SpawnAlone(s, c, labels);
  }
}
