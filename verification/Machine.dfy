/**
 The kernel's CPUs as one interleaved step system. Every CPU runs its own program; CPUs
 interleave at every lock operation, and everything a CPU does between two of its lock
 operations is one step. A lock is a bit, as in the source: who holds it is a matter of which
 guards exist, and that no two CPUs hold the same one is a theorem, not a definition.

 Modelled programs: bringing a CPU online, spawning a thread (two critical sections on the
 thread table, preemptible in between, the second one nesting `ready`), any short critical
 section on the console or the frame allocator, and the timer handler (switch, then balance).
 */
module Machine {
  import opened Wrappers
  import opened SchedSpec

  // ---------------------------------------------------------------- state

  datatype Lock =
    | TableLock                // global thread table
    | CpusLock                 // registry of online CPUs
    | TerminalLock             // console
    | FramesLock               // frame allocator
    | SchedLock(thread: Addr)  // a thread's scheduling state
    | QueueLock(cpu: nat)      // a CPU's ready queue

  /** An acquired lock with the interrupt flag to restore when it is dropped. */
  datatype Guard = Guard(lock: Lock, saved: bool)

  /** A balancing decision: `total` threads go from queue `src` to queue `dst`. The old contents
      of both queues are remembered for the proofs only; no step reads them. */
  datatype Plan = Plan(src: nat, dst: nat, srcOld: seq<Addr>, dstOld: seq<Addr>, total: nat)

  /** Where a CPU is in the kernel's code. `...Spin` means spinning on a lock. */
  datatype Pc =
    | Open                                  // in the code of the current thread, no guard alive
    | Panicked
    // bringing the CPU online
    | OnlineSpin | OnlineHeld
    // printing, or allocating frames
    | LeafSpin(leaf: Lock) | LeafHeld(leaf: Lock)
    // spawning a thread
    | AddSpin | AddHeld
    | FindSpin | FindHeld
    | ReadySchedSpin(slot: nat) | ReadyMark(slot: nat)
    | ReadyQueueSpin(slot: nat) | ReadyQueueHeld(slot: nat)
    | ReadyDropSched(slot: nat) | ReadyDropTable
    // timer handler: switch
    | SwitchSpin | SwitchHeld
    // timer handler: pick a CPU to balance with
    | Picking | PickSpin(choice: nat) | PickHeld(choice: nat)
    // timer handler: lock both queues, lower CPU id first
    | Ordering(lo: nat, hi: nat)
    | LowSpin(lo: nat, hi: nat) | LowHeld(lo: nat, hi: nat)
    | HighSpin(lo: nat, hi: nat) | Comparing(lo: nat, hi: nat)
    // timer handler: move threads one at a time
    | Moving(plan: Plan, left: nat)
    | MoveSpin(plan: Plan, left: nat, hand: Addr)
    | MoveHeld(plan: Plan, left: nat, hand: Addr)
    | LogSpin(lo: nat, hi: nat) | LogHeld(lo: nat, hi: nat)
    | DropHigh(lo: nat, hi: nat) | DropLow(lo: nat, hi: nat)
    | Returning

  /** What a thread in the middle of `spawn_raw` remembers outside critical sections. */
  datatype Local = Fresh(id: nat) | Added(id: nat)

  datatype State = State(
    pc: seq<Pc>,                   // per CPU
    want: seq<Option<Guard>>,      // per CPU: the guard it is spinning for
    guards: seq<seq<Guard>>,       // per CPU: live guards, innermost last
    irq: seq<bool>,                // per CPU: interrupts enabled
    cur: seq<Addr>,                // per CPU: current thread
    queues: seq<seq<Addr>>,        // per CPU: ready queue
    table: Table,
    nextId: nat,
    local: map<Addr, Local>,       // per thread
    online: set<nat>,
    locks: set<Lock>)              // the lock bits that are set

  // ---------------------------------------------------------------- static facts about programs

  function Low(p: Plan): nat { if p.src < p.dst then p.src else p.dst }

  function High(p: Plan): nat { if p.src < p.dst then p.dst else p.src }

  /** The locks a CPU has acquired, outermost first. */
  function Held(pc: Pc, c: nat): seq<Lock>
  {
    match pc
    case OnlineHeld => [CpusLock]
    case LeafHeld(l) => [l]
    case AddHeld => [TableLock]
    case FindHeld => [TableLock]
    case ReadySchedSpin(_) => [TableLock]
    case ReadyMark(t) => [TableLock, SchedLock(Task(t))]
    case ReadyQueueSpin(t) => [TableLock, SchedLock(Task(t))]
    case ReadyQueueHeld(t) => [TableLock, SchedLock(Task(t)), QueueLock(c)]
    case ReadyDropSched(t) => [TableLock, SchedLock(Task(t))]
    case ReadyDropTable => [TableLock]
    case SwitchHeld => [QueueLock(c)]
    case PickHeld(_) => [CpusLock]
    case LowHeld(lo, _) => [QueueLock(lo)]
    case HighSpin(lo, _) => [QueueLock(lo)]
    case Comparing(lo, hi) => [QueueLock(lo), QueueLock(hi)]
    case Moving(p, _) => [QueueLock(Low(p)), QueueLock(High(p))]
    case MoveSpin(p, _, _) => [QueueLock(Low(p)), QueueLock(High(p))]
    case MoveHeld(p, _, a) => [QueueLock(Low(p)), QueueLock(High(p)), SchedLock(a)]
    case LogSpin(lo, hi) => [QueueLock(lo), QueueLock(hi)]
    case LogHeld(lo, hi) => [QueueLock(lo), QueueLock(hi), TerminalLock]
    case DropHigh(lo, hi) => [QueueLock(lo), QueueLock(hi)]
    case DropLow(lo, _) => [QueueLock(lo)]
    case _ => []
  }

  /** The lock a CPU is spinning on. */
  function Wanted(pc: Pc, c: nat): Option<Lock>
  {
    match pc
    case OnlineSpin => Some(CpusLock)
    case LeafSpin(l) => Some(l)
    case AddSpin => Some(TableLock)
    case FindSpin => Some(TableLock)
    case ReadySchedSpin(t) => Some(SchedLock(Task(t)))
    case ReadyQueueSpin(_) => Some(QueueLock(c))
    case SwitchSpin => Some(QueueLock(c))
    case PickSpin(_) => Some(CpusLock)
    case LowSpin(lo, _) => Some(QueueLock(lo))
    case HighSpin(_, hi) => Some(QueueLock(hi))
    case MoveSpin(_, _, a) => Some(SchedLock(a))
    case LogSpin(_, _) => Some(TerminalLock)
    case _ => None
  }

  /** Where the code continues once the lock it spins on is granted. */
  function Granted(pc: Pc): Pc
  {
    match pc
    case OnlineSpin => OnlineHeld
    case LeafSpin(l) => LeafHeld(l)
    case AddSpin => AddHeld
    case FindSpin => FindHeld
    case ReadySchedSpin(t) => ReadyMark(t)
    case ReadyQueueSpin(t) => ReadyQueueHeld(t)
    case SwitchSpin => SwitchHeld
    case PickSpin(k) => PickHeld(k)
    case LowSpin(lo, hi) => LowHeld(lo, hi)
    case HighSpin(lo, hi) => Comparing(lo, hi)
    case MoveSpin(p, k, a) => MoveHeld(p, k, a)
    case LogSpin(lo, hi) => LogHeld(lo, hi)
    case _ => pc
  }

  /** In the timer handler (as opposed to the code of a thread). */
  predicate InHandler(pc: Pc)
  {
    !(pc.Open? || pc.Panicked? || pc.OnlineSpin? || pc.OnlineHeld? || pc.LeafSpin? || pc.LeafHeld?
      || pc.AddSpin? || pc.AddHeld? || pc.FindSpin? || pc.FindHeld? || pc.ReadySchedSpin?
      || pc.ReadyMark? || pc.ReadyQueueSpin? || pc.ReadyQueueHeld? || pc.ReadyDropSched?
      || pc.ReadyDropTable?)
  }

  // ---------------------------------------------------------------- well-formed states

  /** Would a guard created now by the first lock call find interrupts enabled? Not in the timer
      handler, and not while the CPU boots. */
  predicate FoundEnabled(pc: Pc, cur: Addr) { !InHandler(pc) && !cur.Boot? }

  /** These guards are for these locks, and only the outermost may have found interrupts enabled. */
  predicate GuardsMatch(guards: seq<Guard>, held: seq<Lock>, first: bool)
  {
    && |guards| == |held|
    && forall i :: 0 <= i < |held| ==> guards[i] == Guard(held[i], i == 0 && first)
  }

  /** Guards and interrupt flag of one CPU agree with its program point: interrupts are enabled
      exactly when the CPU runs a thread and no guard is alive or being acquired. */
  predicate Disciplined(c: nat, pc: Pc, want: Option<Guard>, guards: seq<Guard>, irq: bool, cur: Addr)
  {
    && GuardsMatch(guards, Held(pc, c), FoundEnabled(pc, cur))
    && want.Some? == Wanted(pc, c).Some?
    && (want.Some? ==> want.value == Guard(Wanted(pc, c).value, Held(pc, c) == [] && FoundEnabled(pc, cur)))
    && irq == (pc.Open? && !cur.Boot?)
  }

  predicate ValidTask(table: Table, a: Addr)
  {
    a.Task? && a.slot < |table| && table[a.slot].Some?
  }

  /** A CPU runs its own boot code, its own idle thread or a thread of the table. */
  predicate OwnCurrent(c: nat, cur: Addr)
  {
    cur == Boot(c) || cur == Idle(c) || cur.Task?
  }

  predicate OwnPair(cpus: nat, c: nat, lo: nat, hi: nat)
  {
    lo < hi < cpus && (c == lo || c == hi)
  }

  /** The CPU numbers, addresses and ids that a program point refers to exist. */
  predicate InRange(c: nat, pc: Pc, cur: Addr, cpus: nat, table: Table, local: map<Addr, Local>)
  {
    match pc
    case Panicked => false
    case LeafSpin(l) => l == TerminalLock || l == FramesLock
    case LeafHeld(l) => l == TerminalLock || l == FramesLock
    case AddSpin => cur in local && local[cur].Fresh?
    case AddHeld => cur in local && local[cur].Fresh?
    case FindSpin => cur in local && local[cur].Added?
    case FindHeld => cur in local && local[cur].Added?
    case ReadySchedSpin(t) => ValidTask(table, Task(t))
    case ReadyMark(t) => ValidTask(table, Task(t))
    case ReadyQueueSpin(t) => ValidTask(table, Task(t))
    case ReadyQueueHeld(t) => ValidTask(table, Task(t))
    case Ordering(lo, hi) => OwnPair(cpus, c, lo, hi)
    case LowSpin(lo, hi) => OwnPair(cpus, c, lo, hi)
    case LowHeld(lo, hi) => OwnPair(cpus, c, lo, hi)
    case HighSpin(lo, hi) => OwnPair(cpus, c, lo, hi)
    case Comparing(lo, hi) => OwnPair(cpus, c, lo, hi)
    case Moving(p, _) => OwnPair(cpus, c, Low(p), High(p))
    case MoveSpin(p, left, a) => OwnPair(cpus, c, Low(p), High(p)) && ValidTask(table, a) && left > 0
    case MoveHeld(p, left, a) => OwnPair(cpus, c, Low(p), High(p)) && ValidTask(table, a) && left > 0
    case LogSpin(lo, hi) => OwnPair(cpus, c, lo, hi)
    case LogHeld(lo, hi) => OwnPair(cpus, c, lo, hi)
    case DropHigh(lo, hi) => OwnPair(cpus, c, lo, hi)
    case DropLow(lo, hi) => OwnPair(cpus, c, lo, hi)
    case _ => true
  }

  predicate Shape(s: State)
  {
    && |s.pc| == |s.want| == |s.guards| == |s.irq| == |s.cur| == |s.queues| <= 256
    && |s.table| == SLOTS
  }

  predicate CpuWf(s: State, c: nat)
    requires Shape(s) && c < |s.pc|
  {
    && Disciplined(c, s.pc[c], s.want[c], s.guards[c], s.irq[c], s.cur[c])
    && InRange(c, s.pc[c], s.cur[c], |s.pc|, s.table, s.local)
    && OwnCurrent(c, s.cur[c])
    && (InHandler(s.pc[c]) ==> !s.cur[c].Boot?)
  }

  predicate Wf(s: State)
  {
    Shape(s) && forall c :: 0 <= c < |s.pc| ==> CpuWf(s, c)
  }

  // ---------------------------------------------------------------- steps

  /** What can happen next on a CPU. Everything but `Advance` is a choice of the environment. */
  datatype Event =
    | Advance             // the next step of the kernel code
    | Timer               // a timer interrupt
    | Pick(choice: nat)   // the random CPU number drawn by the balancer
    | StartOnline         // `setup_tls` reaches the registry
    | ForceIdle           // `force_switch_to_idle`
    | StartLeaf(leaf: Lock)
    | FetchId             // `spawn_raw` draws an id
    | StartAdd            // `spawn_raw` goes for the table
    | StartFind           // `spawn_raw` goes for the table again

  /** The lock operation in which a step ends. */
  datatype Op =
    | Stay
    | Begin(lock: Lock)   // save the interrupt flag, disable interrupts, start spinning
    | Grant               // the compare-exchange succeeds
    | Drop                // the innermost guard is dropped
    | Trap(lock: Lock)    // the processor disables interrupts on entry, then as `Begin`
    | Iret                // return to a thread with interrupts enabled

  /** A step: its lock operation, the new program point, and the state with its data changes. */
  datatype Act = Act(op: Op, to: Pc, data: State)

  predicate Enabled(s: State, c: nat, e: Event)
    requires Shape(s)
  {
    c < |s.pc| &&
    match e
    case Advance =>
      && !s.pc[c].Open? && !s.pc[c].Panicked? && !s.pc[c].Picking?
      && (s.want[c].Some? ==> s.want[c].value.lock !in s.locks)
    case Timer => s.irq[c]
    case Pick(_) => s.pc[c].Picking?
    case StartOnline => s.pc[c].Open? && s.cur[c].Boot? && c !in s.online
    case ForceIdle => s.pc[c].Open? && s.cur[c].Boot? && c in s.online && s.cur[c] !in s.local
    case StartLeaf(l) => s.pc[c].Open? && (l == TerminalLock || l == FramesLock)
    case FetchId => s.pc[c].Open? && c in s.online && s.cur[c] !in s.local
    case StartAdd => s.pc[c].Open? && s.cur[c] in s.local && s.local[s.cur[c]].Fresh?
    case StartFind => s.pc[c].Open? && s.cur[c] in s.local && s.local[s.cur[c]].Added?
  }

  /** A step's data changes touch neither program points nor locks. */
  predicate DataOnly(s: State, d: State)
  {
    && d.pc == s.pc && d.want == s.want && d.guards == s.guards && d.irq == s.irq && d.locks == s.locks
    && |d.cur| == |s.cur| && |d.queues| == |s.queues| && |d.table| == |s.table|
  }

  /** The table lock is held: put the new thread in the first free slot, or give up. */
  function AddAct(s: State, c: nat): (act: Act)
    requires Shape(s) && c < |s.pc| && CpuWf(s, c) && s.pc[c].AddHeld?
    ensures DataOnly(s, act.data)
  {
    var me := s.cur[c];
    var id := s.local[me].id;
    var free := FirstFree(s.table);
    if free.None? then Act(Drop, Open, s.(local := s.local - {me}))
    else Act(Drop, Open, s.(
      table := s.table[free.value := Some(Thread(id, SchedState(None, Born)))],
      local := s.local[me := Added(id)]))
  }

  /** The table lock is held again: look the new thread up and make it ready. */
  function FindAct(s: State, c: nat): (act: Act)
    requires Shape(s) && c < |s.pc| && CpuWf(s, c) && s.pc[c].FindHeld?
    ensures DataOnly(s, act.data)
  {
    var me := s.cur[c];
    var found := FindId(s.table, s.local[me].id);
    if found.None? then Act(Stay, Panicked, s)
    else Act(Begin(SchedLock(Task(found.value))), ReadySchedSpin(found.value), s.(local := s.local - {me}))
  }

  function MarkAct(s: State, c: nat, t: nat): (act: Act)
    requires Shape(s) && c < |s.pc| && CpuWf(s, c) && s.pc[c] == ReadyMark(t)
    ensures DataOnly(s, act.data)
  {
    var th := s.table[t].value;
    Act(Begin(QueueLock(c)), ReadyQueueSpin(t),
        s.(table := s.table[t := Some(th.(sched := SchedState(Some(c), Ready)))]))
  }

  function ReadyPushAct(s: State, c: nat, t: nat): (act: Act)
    requires Shape(s) && c < |s.pc|
    ensures DataOnly(s, act.data)
  {
    if |s.queues[c]| == CAPACITY then Act(Stay, Panicked, s)
    else Act(Drop, ReadyDropSched(t), s.(queues := s.queues[c := s.queues[c] + [Task(t)]]))
  }

  function SwitchAct(s: State, c: nat): (act: Act)
    requires Shape(s) && c < |s.pc|
    ensures DataOnly(s, act.data)
  {
    var r := SwitchSpec(s.queues[c], s.cur[c], Idle(c));
    if r.None? then Act(Stay, Panicked, s)
    else Act(Drop, Picking, s.(queues := s.queues[c := r.value.0], cur := s.cur[c := r.value.1]))
  }

  function PickedAct(s: State, c: nat, k: nat): (act: Act)
    requires Shape(s)
    ensures DataOnly(s, act.data)
  {
    if k < |s.pc| && k in s.online && k != c
    then Act(Drop, if c < k then Ordering(c, k) else Ordering(k, c), s)
    else Act(Drop, Returning, s)
  }

  /** Both queues are locked: decide how many threads go which way. */
  function CompareAct(s: State, c: nat, lo: nat, hi: nat): (act: Act)
    requires Shape(s) && OwnPair(|s.pc|, c, lo, hi)
    ensures DataOnly(s, act.data)
  {
    var other := if c == lo then hi else lo;
    var qa, qb := s.queues[c], s.queues[other];
    var k := ToMove(|qa|, |qb|);
    if k == 0 then Act(Stay, DropHigh(lo, hi), s)
    else if |qa| > |qb| then Act(Stay, Moving(Plan(c, other, qa, qb, k), k), s)
    else Act(Stay, Moving(Plan(other, c, qb, qa, k), k), s)
  }

  /** One round of the moving loop: take the oldest thread of the longer queue. */
  function MoveAct(s: State, p: Plan, left: nat): (act: Act)
    requires Shape(s) && p.src < |s.pc|
    ensures DataOnly(s, act.data)
  {
    if left == 0 then Act(Begin(TerminalLock), LogSpin(Low(p), High(p)), s)
    else if s.queues[p.src] == [] then Act(Stay, Moving(p, left - 1), s)
    else
      var a := s.queues[p.src][0];
      Act(Begin(SchedLock(a)), MoveSpin(p, left, a),
          s.(queues := s.queues[p.src := s.queues[p.src][1..]]))
  }

  /** The thread in hand is relabelled, its lock dropped, and it goes to the shorter queue. */
  function LandAct(s: State, p: Plan, left: nat, a: Addr): (act: Act)
    requires Shape(s) && p.dst < |s.pc| && left > 0 && ValidTask(s.table, a)
    ensures DataOnly(s, act.data)
  {
    if |s.queues[p.dst]| == CAPACITY then Act(Stay, Panicked, s)
    else Act(Drop, Moving(p, left - 1), s.(
      table := Relabelled(s.table, a.slot, p.dst),
      queues := s.queues[p.dst := s.queues[p.dst] + [a]]))
  }

  function Relabelled(table: Table, t: nat, cpu: nat): Table
    requires t < |table| && table[t].Some?
  {
    var th := table[t].value;
    table[t := Some(th.(sched := th.sched.(cpu := Some(cpu))))]
  }

  /** The next step of code that runs in a thread. */
  function ThreadWork(s: State, c: nat): (act: Act)
    requires Shape(s) && c < |s.pc| && CpuWf(s, c) && s.want[c].None?
    requires !s.pc[c].Open? && !s.pc[c].Panicked? && !InHandler(s.pc[c])
    ensures DataOnly(s, act.data)
  {
    match s.pc[c]
    case OnlineHeld => Act(Drop, Open, s.(online := s.online + {c}))
    case LeafHeld(_) => Act(Drop, Open, s)
    case AddHeld => AddAct(s, c)
    case FindHeld => FindAct(s, c)
    case ReadyMark(t) => MarkAct(s, c, t)
    case ReadyQueueHeld(t) => ReadyPushAct(s, c, t)
    case ReadyDropSched(_) => Act(Drop, ReadyDropTable, s)
    case ReadyDropTable => Act(Drop, Open, s)
  }

  /** The next step of the timer handler. */
  function HandlerWork(s: State, c: nat): (act: Act)
    requires Shape(s) && c < |s.pc| && CpuWf(s, c) && s.want[c].None?
    requires InHandler(s.pc[c]) && !s.pc[c].Picking?
    ensures DataOnly(s, act.data)
  {
    match s.pc[c]
    case SwitchHeld => SwitchAct(s, c)
    case PickHeld(k) => PickedAct(s, c, k)
    case Ordering(lo, hi) => Act(Begin(QueueLock(lo)), LowSpin(lo, hi), s)
    case LowHeld(lo, hi) => Act(Begin(QueueLock(hi)), HighSpin(lo, hi), s)
    case Comparing(lo, hi) => CompareAct(s, c, lo, hi)
    case Moving(p, left) => MoveAct(s, p, left)
    case MoveHeld(p, left, a) => LandAct(s, p, left, a)
    case LogHeld(lo, hi) => Act(Drop, DropHigh(lo, hi), s)
    case DropHigh(lo, hi) => Act(Drop, DropLow(lo, hi), s)
    case DropLow(_, _) => Act(Drop, Returning, s)
    case Returning => Act(Iret, Open, s)
  }

  function ActOf(s: State, c: nat, e: Event): (act: Act)
    requires Shape(s) && Enabled(s, c, e) && CpuWf(s, c)
    ensures DataOnly(s, act.data)
  {
    match e
    case Advance =>
      if s.want[c].Some? then Act(Grant, Granted(s.pc[c]), s)
      else if InHandler(s.pc[c]) then HandlerWork(s, c)
      else ThreadWork(s, c)
    case Timer => Act(Trap(QueueLock(c)), SwitchSpin, s)
    case Pick(k) => Act(Begin(CpusLock), PickSpin(k), s)
    case StartOnline => Act(Begin(CpusLock), OnlineSpin, s)
    case ForceIdle => Act(Iret, Open, s.(cur := s.cur[c := Idle(c)]))
    case StartLeaf(l) => Act(Begin(l), LeafSpin(l), s)
    case FetchId => Act(Stay, Open, s.(nextId := s.nextId + 1, local := s.local[s.cur[c] := Fresh(s.nextId)]))
    case StartAdd => Act(Begin(TableLock), AddSpin, s)
    case StartFind => Act(Begin(TableLock), FindSpin, s)
  }

  /** The effect of a lock operation: lock bits, guards and interrupt flag. */
  function LockEffect(s: State, c: nat, op: Op, to: Pc): State
    requires Shape(s) && c < |s.pc|
  {
    var s := s.(pc := s.pc[c := to]);
    match op
    case Stay => s
    case Begin(l) => s.(want := s.want[c := Some(Guard(l, s.irq[c]))], irq := s.irq[c := false])
    case Trap(l) => s.(want := s.want[c := Some(Guard(l, false))], irq := s.irq[c := false])
    case Grant =>
      if s.want[c].None? then s
      else s.(want := s.want[c := None],
              guards := s.guards[c := s.guards[c] + [s.want[c].value]],
              locks := s.locks + {s.want[c].value.lock})
    case Drop =>
      if s.guards[c] == [] then s
      else
        var last := |s.guards[c]| - 1;
        var top := s.guards[c][last];
        s.(guards := s.guards[c := s.guards[c][..last]],
           locks := s.locks - {top.lock},
           irq := s.irq[c := if top.saved then true else s.irq[c]])
    case Iret => s.(irq := s.irq[c := true])
  }

  function Do(s: State, c: nat, a: Act): State
    requires Shape(s) && DataOnly(s, a.data) && c < |s.pc|
  {
    LockEffect(a.data, c, a.op, a.to)
  }

  /** The state after event `e` on CPU `c`. */
  function Next(s: State, c: nat, e: Event): State
    requires Shape(s) && Enabled(s, c, e) && CpuWf(s, c)
  {
    Do(s, c, ActOf(s, c, e))
  }
}
