/** One worker process, the database and the broker's queue (see Broker), as a machine over
    labelled steps.
    Each step is one atomic section between two awaits, one SQL statement, one broker action or
    one change made by somebody else. */
module Pipeline {
  import opened Tables
  import opened Brokers

  // ----- the state

  /** Where the task of one delivery stands. */
  datatype Pc =
    | Waiting                                                // behind an earlier task of its user
    | Started
    | Seeding                                                // awaiting the stored sequence number
    | Looking                                                // inside report, before the snapshot lookup
    | Hinting(current: set<AreaId>)
    | Reading(current: set<AreaId>)                          // awaiting the unlocked presence read
    | HaveRead(current: set<AreaId>, got: set<AreaId>)       // read answered, not yet kept
    | Opening(current: set<AreaId>)                          // transaction wanted, lock not yet held
    | InTx(current: set<AreaId>, previous: set<AreaId>)      // lock held, presence read
    | Committed(current: set<AreaId>)                        // commit done, memory not yet set
    | Finishing(reason: Reason)                              // report resolved, not yet acked

  /** What the process holds in memory. */
  datatype Worker = Worker(
    pcs: seq<Pc>,                          // parallel to published: the task of each delivery
    lastSeq: LastSeq,
    memory: map<string, set<AreaId>>,
    snapshot: Point -> set<AreaId>)

  datatype Db = Db(
    rows: Rows,
    live: set<AreaId>,                     // area rows that exist
    ever: set<AreaId>)                     // area ids ever used

  /** One report that ran to its end: the message, and the areas it found. */
  datatype Turn = Turn(n: nat, current: set<AreaId>)

  /** What happened so far; no step reads it. */
  datatype Past = Past(
    applied: set<nat>,                     // messages whose report ran to its end
    turns: seq<Turn>,                      // the same reports, in the order in which they ended
    committed: set<nat>,                   // messages whose report committed a transaction
    succeeded: map<string, seq<nat>>)      // successes per dedup key, in this worker lifetime

  datatype State = State(broker: Broker, worker: Worker, db: Db, past: Past)

  datatype Step =
    | Publish(e: Event)
    | Deliver(pos: nat)
    | Start(n: nat)
    | Gate(n: nat)
    | Seed(n: nat)
    | Lookup(n: nat)
    | Hint(n: nat)
    | ReadHint(n: nat)
    | KeepHint(n: nat)
    | Open(n: nat)
    | Commit(n: nat)
    | FkDrop(n: nat)
    | SetMemory(n: nat)
    | Finish(n: nat)
    | Fail(n: nat, pos: nat)
    | Crash
    | CreateArea(area: AreaId)
    | DeleteArea(area: AreaId)
    | Rebuild(snapshot: Point -> set<AreaId>)
  {
    /** Steps of the task of message n. */
    predicate IsTask() {
      Start? || Gate? || Seed? || Lookup? || Hint? || ReadHint? || KeepHint? || Open? || Commit?
      || FkDrop? || SetMemory? || Finish?
    }
  }

  ghost predicate Shaped(s: State) {
    InRange(s.broker) && |s.worker.pcs| == |s.broker.published|
  }

  /** Message n is out for processing. */
  ghost predicate Out(s: State, n: nat) {
    Shaped(s) && n in s.broker.unacked && n < |s.broker.published|
  }

  ghost function PresenceOf(s: State, user: string): set<AreaId> { RowsOf(s.db.rows, user).presence }

  ghost predicate IsFirstOfUser(b: Broker, n: nat)
    requires InRange(b) && n in b.unacked
  {
    var k := IndexOf(b.unacked, n);
    forall i :: 0 <= i < k ==> b.published[b.unacked[i]].user != b.published[n].user
  }

  ghost predicate LockFree(c: Config, s: State, user: string)
    requires Shaped(s)
  {
    forall m :: m in s.broker.unacked && s.worker.pcs[m].InTx? ==> c.lockKey(s.broker.published[m].user) != c.lockKey(user)
  }

  /** An await that rejects. Nothing after the commit can. */
  predicate CanFail(pc: Pc) {
    pc.Seeding? || pc.Looking? || pc.Reading? || pc.Opening? || pc.InTx?
  }

  /** The task has looked its areas up and still holds them. */
  predicate KnowsCurrent(pc: Pc) {
    pc.Hinting? || pc.Reading? || pc.HaveRead? || pc.Opening? || pc.InTx? || pc.Committed?
  }

  predicate EntersOnlyLive(pc: Pc, live: set<AreaId>)
    requires pc.InTx?
  {
    pc.current - pc.previous <= live
  }

  // ----- when a step can happen

  ghost predicate TaskEnabled(c: Config, s: State, step: Step)
    requires step.IsTask() && Out(s, step.n)
  {
    var e, pc := s.broker.published[step.n], s.worker.pcs[step.n];
    match step
    case Start(n) => pc.Waiting? && IsFirstOfUser(s.broker, n)
    case Gate(n) => pc.Started?
    case Seed(n) => pc.Seeding? && e.HasIdentity()
    case Lookup(n) => pc.Looking? && e.PassesAccuracyGate()
    case Hint(n) => pc.Hinting?
    case ReadHint(n) => pc.Reading?
    case KeepHint(n) => pc.HaveRead?
    case Open(n) => pc.Opening? && LockFree(c, s, e.user)
    case Commit(n) => pc.InTx? && EntersOnlyLive(pc, s.db.live)
    case FkDrop(n) => pc.InTx? && !EntersOnlyLive(pc, s.db.live)
    case SetMemory(n) => pc.Committed?
    case Finish(n) => pc.Finishing?
  }

  ghost predicate Enabled(c: Config, s: State, step: Step) {
    Shaped(s) &&
    match step
    case Publish(_) => true
    case Deliver(pos) => s.broker.queue != [] && pos < |s.broker.queue|
    case Fail(n, pos) => Out(s, n) && CanFail(s.worker.pcs[n]) && pos <= |s.broker.queue|
    case Crash => true
    case CreateArea(a) => a !in s.db.ever
    case DeleteArea(a) => a in s.db.live
    case Rebuild(snapshot) => forall p :: snapshot(p) <= s.db.ever
    case _ => Out(s, step.n) && TaskEnabled(c, s, step)
  }

  // ----- what a step does

  ghost function Goto(s: State, n: nat, pc: Pc): State
    requires n < |s.worker.pcs|
  {
    s.(worker := s.worker.(pcs := s.worker.pcs[n := pc]))
  }

  ghost function Ack(s: State, n: nat, reason: Reason): State
    requires n in s.broker.unacked
  {
    s.(broker := Acked(s.broker, n, reason))
  }

  ghost function Remembering(s: State, user: string, areas: set<AreaId>): State {
    s.(worker := s.worker.(memory := s.worker.memory[user := areas]))
  }

  /** The process dies: everything it held in memory is gone. */
  function Forgotten(w: Worker): Worker {
    w.(lastSeq := map[], memory := map[])
  }

  /** The fork of report(): equal sets end the report, different sets open a transaction. */
  ghost function Compared(s: State, n: nat, current: set<AreaId>, hint: set<AreaId>): State
    requires n < |s.worker.pcs|
  {
    if current == hint
    then Goto(s, n, Finishing(NoChange)).(
      past := s.past.(applied := s.past.applied + {n}, turns := s.past.turns + [Turn(n, current)]))
    else Goto(s, n, Opening(current))
  }

  ghost function NextTask(c: Config, s: State, step: Step): State
    requires step.IsTask() && Out(s, step.n) && TaskEnabled(c, s, step)
  {
    var n := step.n;
    var e, pc := s.broker.published[n], s.worker.pcs[n];
    match step
    case Start(_) => Goto(s, n, Started)
    case Gate(_) => NextGate(s, n, e)
    case Seed(_) => NextSeed(c, s, n, e)
    case Lookup(_) => Goto(s, n, Hinting(s.worker.snapshot(e.at)))
    case Hint(_) =>
      if e.user in s.worker.memory then Compared(s, n, pc.current, s.worker.memory[e.user])
      else Goto(s, n, Reading(pc.current))
    case ReadHint(_) => Goto(s, n, HaveRead(pc.current, PresenceOf(s, e.user)))
    case KeepHint(_) => Compared(Remembering(s, e.user, pc.got), n, pc.current, pc.got)
    case Open(_) => Goto(s, n, InTx(pc.current, PresenceOf(s, e.user)))
    case Commit(_) => NextCommit(s, n, e, pc)
    case FkDrop(_) => Ack(s, n, StaleArea)
    case SetMemory(_) => Goto(Remembering(s, e.user, pc.current), n, Finishing(Effect))
    case Finish(_) => NextFinish(s, n, e, pc.reason)
  }

  ghost function NextGate(s: State, n: nat, e: Event): State
    requires Out(s, n)
  {
    if !e.HasIdentity() then Goto(s, n, Looking)
    else if e.Key() !in s.worker.lastSeq then Goto(s, n, Seeding)
    else if e.seqNo.value <= s.worker.lastSeq[e.Key()] then Ack(s, n, Duplicate)
    else Goto(s, n, Looking)
  }

  ghost function NextSeed(c: Config, s: State, n: nat, e: Event): State
    requires Out(s, n) && e.HasIdentity()
  {
    var t := s.(worker := s.worker.(lastSeq := s.worker.lastSeq[e.Key() := c.SeedOf(e)]));
    if e.seqNo.value <= c.SeedOf(e) then Ack(t, n, Duplicate) else Goto(t, n, Looking)
  }

  ghost function NextCommit(s: State, n: nat, e: Event, pc: Pc): State
    requires Out(s, n) && pc.InTx?
  {
    var r := CommitWrites(RowsOf(s.db.rows, e.user), pc.previous, pc.current, e.stamp);
    Goto(s, n, Committed(pc.current)).(
      db := s.db.(rows := s.db.rows[e.user := r]),
      past := s.past.(applied := s.past.applied + {n}, turns := s.past.turns + [Turn(n, pc.current)],
                      committed := s.past.committed + {n}))
  }

  function SucceededOf(p: Past, key: string): seq<nat> {
    if key in p.succeeded then p.succeeded[key] else []
  }

  function WithSuccess(p: Past, e: Event): Past {
    if !e.HasIdentity() then p
    else p.(succeeded := p.succeeded[e.Key() := SucceededOf(p, e.Key()) + [e.seqNo.value]])
  }

  ghost function NextFinish(s: State, n: nat, e: Event, reason: Reason): State
    requires Out(s, n)
  {
    Ack(s.(worker := s.worker.(lastSeq := Remember(s.worker.lastSeq, e)), past := WithSuccess(s.past, e)), n, reason)
  }

  /** The task steps that end in an ack. */
  ghost predicate Acks(c: Config, s: State, step: Step)
    requires step.IsTask() && Out(s, step.n) && TaskEnabled(c, s, step)
  {
    var e := s.broker.published[step.n];
    match step
    case Gate(_) => e.HasIdentity() && e.Key() in s.worker.lastSeq && e.seqNo.value <= s.worker.lastSeq[e.Key()]
    case Seed(_) => e.seqNo.value <= c.SeedOf(e)
    case FkDrop(_) => true
    case Finish(_) => true
    case _ => false
  }

  /** The comparison with the hint finds no difference: the report ends without a transaction. */
  ghost predicate LetsOff(c: Config, s: State, step: Step)
    requires Enabled(c, s, step)
  {
    || (step.Hint? && var u := s.broker.published[step.n].user;
        u in s.worker.memory && s.worker.memory[u] == s.worker.pcs[step.n].current)
    || (step.KeepHint? && s.worker.pcs[step.n].got == s.worker.pcs[step.n].current)
  }

  /** A message of an unknown version goes straight back; any other waits in its user's chain. */
  ghost function NextDeliver(c: Config, s: State, pos: nat): State
    requires Shaped(s) && s.broker.queue != [] && pos < |s.broker.queue|
  {
    var n := s.broker.queue[0];
    if s.broker.published[n].v != SCHEMA_VERSION then s.(broker := GivenBack(c, Handed(s.broker), n, pos))
    else Goto(s.(broker := Handed(s.broker)), n, Waiting)
  }

  ghost function Next(c: Config, s: State, step: Step): State
    requires Enabled(c, s, step)
  {
    match step
    case Publish(e) => s.(broker := Enqueued(s.broker, e), worker := s.worker.(pcs := s.worker.pcs + [Waiting]))
    case Deliver(pos) => NextDeliver(c, s, pos)
    case Fail(n, pos) => s.(broker := GivenBack(c, s.broker, n, pos))
    case Crash =>
      State(AllGivenBack(c, s.broker), Forgotten(s.worker), s.db, s.past.(succeeded := map[]))
    case CreateArea(a) => s.(db := s.db.(live := s.db.live + {a}, ever := s.db.ever + {a}))
    case DeleteArea(a) => s.(db := s.db.(live := s.db.live - {a}, rows := DropArea(s.db.rows, a)))
    case Rebuild(snapshot) => s.(worker := s.worker.(snapshot := snapshot))
    case _ => NextTask(c, s, step)
  }

  // ----- runs

  ghost predicate Init(s: State) {
    && s.broker == Broker([], [], [], map[], {}, [], [])
    && s.worker.pcs == [] && s.worker.lastSeq == map[] && s.worker.memory == map[]
    && s.past == Past({}, [], {}, map[])
    && s.db.live <= s.db.ever
    && (forall p :: s.worker.snapshot(p) <= s.db.ever)
    && (forall u :: RowsOf(s.db.rows, u).presence <= s.db.live)
  }

  ghost predicate IsRun(c: Config, s: State, steps: seq<Step>)
    decreases |steps|
  {
    steps == [] || (Enabled(c, s, steps[0]) && IsRun(c, Next(c, s, steps[0]), steps[1..]))
  }

  ghost function After(c: Config, s: State, steps: seq<Step>): State
    requires IsRun(c, s, steps)
    decreases |steps|
  {
    if steps == [] then s else After(c, Next(c, s, steps[0]), steps[1..])
  }

  /** The state before step i of a run. */
  ghost function StateAt(c: Config, s: State, steps: seq<Step>, i: nat): State
    requires IsRun(c, s, steps) && i <= |steps|
    decreases |steps|
  {
    if i == 0 then s else StateAt(c, Next(c, s, steps[0]), steps[1..], i - 1)
  }

  lemma {:induction false} StepOfRun(c: Config, s: State, steps: seq<Step>, i: nat)
    requires IsRun(c, s, steps) && i < |steps|
    ensures Enabled(c, StateAt(c, s, steps, i), steps[i])
    ensures StateAt(c, s, steps, i + 1) == Next(c, StateAt(c, s, steps, i), steps[i])
    ensures StateAt(c, s, steps, |steps|) == After(c, s, steps)
    decreases |steps|
  {
    if i > 0 {
      StepOfRun(c, Next(c, s, steps[0]), steps[1..], i - 1);
    } else {
      EndOfRun(c, s, steps);
    }
  }

  lemma {:induction false} EndOfRun(c: Config, s: State, steps: seq<Step>)
    requires IsRun(c, s, steps)
    ensures StateAt(c, s, steps, |steps|) == After(c, s, steps)
    decreases |steps|
  {
    if steps != [] {
      EndOfRun(c, Next(c, s, steps[0]), steps[1..]);
    }
  }

  lemma {:induction false} Extend(c: Config, s: State, steps: seq<Step>, step: Step)
    requires IsRun(c, s, steps) && Enabled(c, After(c, s, steps), step)
    ensures IsRun(c, s, steps + [step])
    ensures After(c, s, steps + [step]) == Next(c, After(c, s, steps), step)
    decreases |steps|
  {
    var more := steps + [step];
    if steps == [] {
      assert more[1..] == [];
    } else {
      Extend(c, Next(c, s, steps[0]), steps[1..], step);
      assert more[1..] == steps[1..] + [step];
    }
  }
}
