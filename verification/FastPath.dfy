/** The presence memory in front of the table: in every run, with areas created and deleted by
    others at any moment, a report that skips its transaction skips nothing. */
module FastPath {
  import opened Tables
  import opened Brokers
  import opened Pipeline
  import opened Conservation

  /** A task of the user has committed but not yet updated the memory. */
  ghost predicate InGap(b: Broker, pcs: seq<Pc>, user: string)
    requires InRange(b) && |pcs| == |b.published|
  {
    exists n :: n in b.unacked && pcs[n].Committed? && b.published[n].user == user
  }

  ghost predicate DbFits(db: Db) {
    db.live <= db.ever && forall u :: RowsOf(db.rows, u).presence <= db.live
  }

  /** What a running task knows about its user's presence rows. */
  ghost predicate PcFits(db: Db, user: string, pc: Pc) {
    var presence := RowsOf(db.rows, user).presence;
    match pc
    case Hinting(current) => current <= db.ever
    case Reading(current) => current <= db.ever
    case HaveRead(current, got) => current <= db.ever && got <= db.ever && got * db.live == presence
    case Opening(current) => current <= db.ever
    case InTx(current, previous) => current <= db.ever && previous <= db.ever && previous * db.live == presence
    case Committed(current) => current <= db.ever && current * db.live == presence
    case _ => true
  }

  ghost predicate MemoryFits(db: Db, areas: set<AreaId>, user: string, gap: bool) {
    areas <= db.ever && (gap || areas * db.live == RowsOf(db.rows, user).presence)
  }

  ghost predicate Hints(c: Config, s: State) {
    && Sound(c, s)
    && DbFits(s.db)
    && (forall p :: s.worker.snapshot(p) <= s.db.ever)
    && (forall n :: n in s.broker.unacked ==> PcFits(s.db, s.broker.published[n].user, s.worker.pcs[n]))
    && (forall u :: u in s.worker.memory ==>
          MemoryFits(s.db, s.worker.memory[u], u, InGap(s.broker, s.worker.pcs, u)))
  }

  /** While one task of a user runs before its commit, the memory of that user is exact. */
  lemma MemoryIsExact(c: Config, s: State, n: nat)
    requires Hints(c, s) && n in s.broker.unacked
    requires !s.worker.pcs[n].Committed? && (!s.worker.pcs[n].Waiting? || IsFirstOfUser(s.broker, n))
    ensures var u := s.broker.published[n].user;
      !InGap(s.broker, s.worker.pcs, u)
      && (u in s.worker.memory ==> s.worker.memory[u] * s.db.live == PresenceOf(s, u))
  {
  }

  lemma OthersWait(b: Broker, pcs: seq<Pc>, n: nat, m: nat)
    requires Serial(b, pcs) && n in b.unacked && m in b.unacked && n != m
    requires !pcs[n].Waiting? || IsFirstOfUser(b, n)
    requires b.published[n].user == b.published[m].user
    ensures pcs[m].Waiting?
  {
  }

  /** The fast path refines the slow path. Whenever the comparison with the hint finds no
      difference, the transition that a transaction would have performed on the areas that
      still exist changes no row and writes no log. */
  lemma FastPathSkipsNothing(c: Config, s: State, n: nat, stamp: Stamp)
    requires Hints(c, s) && Out(s, n)
    requires s.worker.pcs[n].Hinting? || s.worker.pcs[n].HaveRead?
    requires var u, pc := s.broker.published[n].user, s.worker.pcs[n];
      if pc.Hinting? then u in s.worker.memory && s.worker.memory[u] == pc.current else pc.got == pc.current
    ensures var u, current := s.broker.published[n].user, s.worker.pcs[n].current;
      PresenceOf(s, u) == current * s.db.live
      && Transition(RowsOf(s.db.rows, u), current * s.db.live, stamp) == RowsOf(s.db.rows, u)
  {
    MemoryIsExact(c, s, n);
    TransitionToSamePresence(RowsOf(s.db.rows, s.broker.published[n].user), stamp);
  }

  /** An entry into or an exit from an existing area always reaches the transaction. */
  lemma RealChangeOpensTransaction(c: Config, s: State, step: Step)
    requires Hints(c, s) && Enabled(c, s, step) && (step.Hint? || step.KeepHint?)
    requires step.Hint? ==> s.broker.published[step.n].user in s.worker.memory
    requires s.worker.pcs[step.n].current * s.db.live != PresenceOf(s, s.broker.published[step.n].user)
    ensures Next(c, s, step).worker.pcs[step.n] == Opening(s.worker.pcs[step.n].current)
  {
  }

  /** The transaction performs exactly the transition to the current areas that still exist,
      and leaves every other user's rows alone. */
  lemma CommitPerformsTransition(c: Config, s: State, n: nat)
    requires Hints(c, s) && Enabled(c, s, Commit(n))
    ensures var e, current, t := s.broker.published[n], s.worker.pcs[n].current, Next(c, s, Commit(n));
      RowsOf(t.db.rows, e.user) == Transition(RowsOf(s.db.rows, e.user), current * s.db.live, e.stamp)
      && forall v :: v != e.user ==> RowsOf(t.db.rows, v) == RowsOf(s.db.rows, v)
  {
    var e, pc := s.broker.published[n], s.worker.pcs[n];
    assert PcFits(s.db, e.user, pc);
    CommitIsTransition(RowsOf(s.db.rows, e.user), pc.previous, pc.current, s.db.live, e.stamp);
  }

  // ----- the invariant is kept

  lemma GapsElsewhere(c: Config, s: State, t: State, n: nat, v: string)
    requires Sound(c, s) && Sound(c, t) && n in s.broker.unacked && v != s.broker.published[n].user
    requires t.broker.published == s.broker.published
    requires t.broker.unacked == s.broker.unacked || t.broker.unacked == Remove(s.broker.unacked, n)
    requires forall m :: m in s.broker.unacked && m != n ==> t.worker.pcs[m] == s.worker.pcs[m]
    ensures InGap(s.broker, s.worker.pcs, v) == InGap(t.broker, t.worker.pcs, v)
  {
  }

  /** What a step of the task of n must establish, about its own user alone. */
  lemma FitsAfterTask(c: Config, s: State, t: State, n: nat)
    requires Hints(c, s) && Sound(c, t) && n in s.broker.unacked
    requires !s.worker.pcs[n].Waiting? || IsFirstOfUser(s.broker, n)
    requires t.broker.published == s.broker.published && t.worker.snapshot == s.worker.snapshot
    requires t.broker.unacked == s.broker.unacked || t.broker.unacked == Remove(s.broker.unacked, n)
    requires forall m :: m in s.broker.unacked && m != n ==> t.worker.pcs[m] == s.worker.pcs[m]
    requires t.db.live == s.db.live && t.db.ever == s.db.ever
    requires var u := s.broker.published[n].user;
      && (forall v :: v != u ==> RowsOf(t.db.rows, v) == RowsOf(s.db.rows, v))
      && (forall v :: v != u && v in t.worker.memory ==> v in s.worker.memory && t.worker.memory[v] == s.worker.memory[v])
      && PresenceOf(t, u) <= t.db.live
      && (n in t.broker.unacked ==> PcFits(t.db, u, t.worker.pcs[n]))
      && (u in t.worker.memory ==> MemoryFits(t.db, t.worker.memory[u], u, InGap(t.broker, t.worker.pcs, u)))
    ensures Hints(c, t)
  {
    var u := s.broker.published[n].user;
    RemoveFacts(s.broker.unacked, n);
    forall m | m in t.broker.unacked ensures PcFits(t.db, t.broker.published[m].user, t.worker.pcs[m]) {
      if m != n && s.broker.published[m].user == u {
        OthersWait(s.broker, s.worker.pcs, n, m);
      } else if m != n {
        assert PcFits(s.db, s.broker.published[m].user, s.worker.pcs[m]);
      }
    }
    forall v | v in t.worker.memory
      ensures MemoryFits(t.db, t.worker.memory[v], v, InGap(t.broker, t.worker.pcs, v))
    {
      if v != u {
        GapsElsewhere(c, s, t, n, v);
      }
    }
  }

  /** Every task step but three leaves tables and memory alone and keeps what the task knows. */
  lemma QuietShape(c: Config, s: State, step: Step)
    requires step.IsTask() && Enabled(c, s, step) && !step.Commit? && !step.SetMemory? && !step.KeepHint?
    requires PcFits(s.db, s.broker.published[step.n].user, s.worker.pcs[step.n]) && DbFits(s.db)
    requires forall p :: s.worker.snapshot(p) <= s.db.ever
    ensures var t := Next(c, s, step);
      && t.db == s.db && t.worker.memory == s.worker.memory && t.worker.snapshot == s.worker.snapshot
      && (!Acks(c, s, step) ==> step.n < |t.worker.pcs| && PcFits(t.db, s.broker.published[step.n].user, t.worker.pcs[step.n]))
  {
  }

  lemma QuietStepKeepsHints(c: Config, s: State, step: Step)
    requires Hints(c, s) && step.IsTask() && Enabled(c, s, step)
    requires !step.Commit? && !step.SetMemory? && !step.KeepHint?
    ensures Hints(c, Next(c, s, step))
  {
    var n, t := step.n, Next(c, s, step);
    TaskShape(c, s, step);
    SoundNext(c, s, step);
    MemoryIsExact(c, s, n);
    assert PcFits(s.db, s.broker.published[n].user, s.worker.pcs[n]);
    QuietShape(c, s, step);
    RemoveFacts(s.broker.unacked, n);
    OneHome(s.broker, n);
    FitsAfterTask(c, s, t, n);
  }

  /** The answer of the unlocked read is kept, and is exact. */
  lemma KeepHintShape(c: Config, s: State, n: nat)
    requires Enabled(c, s, KeepHint(n)) && PcFits(s.db, s.broker.published[n].user, s.worker.pcs[n])
    ensures var t, u, got := Next(c, s, KeepHint(n)), s.broker.published[n].user, s.worker.pcs[n].got;
      && t.db == s.db && t.worker.snapshot == s.worker.snapshot && t.worker.memory == s.worker.memory[u := got]
      && got <= t.db.ever && got * t.db.live == RowsOf(t.db.rows, u).presence
      && n < |t.worker.pcs| && PcFits(t.db, u, t.worker.pcs[n])
  {
  }

  lemma KeepHintKeepsHints(c: Config, s: State, n: nat)
    requires Hints(c, s) && Enabled(c, s, KeepHint(n))
    ensures Hints(c, Next(c, s, KeepHint(n)))
  {
    KeepHintShape(c, s, n);
    TaskShape(c, s, KeepHint(n));
    SoundNext(c, s, KeepHint(n));
    assert PcFits(s.db, s.broker.published[n].user, s.worker.pcs[n]);
    FitsAfterTask(c, s, Next(c, s, KeepHint(n)), n);
  }

  lemma SetMemoryKeepsHints(c: Config, s: State, n: nat)
    requires Hints(c, s) && Enabled(c, s, SetMemory(n))
    ensures Hints(c, Next(c, s, SetMemory(n)))
  {
  }

  lemma CommitKeepsHints(c: Config, s: State, n: nat)
    requires Hints(c, s) && Enabled(c, s, Commit(n))
    ensures Hints(c, Next(c, s, Commit(n)))
  {
    var t, u := Next(c, s, Commit(n)), s.broker.published[n].user;
    TaskShape(c, s, Commit(n));
    SoundNext(c, s, Commit(n));
    CommitPerformsTransition(c, s, n);
    assert PcFits(s.db, u, s.worker.pcs[n]);
    assert InGap(t.broker, t.worker.pcs, u);
    FitsAfterTask(c, s, t, n);
  }

  lemma DroppedPresence(rows: Rows, area: AreaId, user: string)
    ensures RowsOf(DropArea(rows, area), user).presence == RowsOf(rows, user).presence - {area}
  {
  }

  lemma DeleteKeepsHints(c: Config, s: State, area: AreaId)
    requires Hints(c, s) && Enabled(c, s, DeleteArea(area))
    ensures Hints(c, Next(c, s, DeleteArea(area)))
  {
    var t := Next(c, s, DeleteArea(area));
    SoundNext(c, s, DeleteArea(area));
    forall u ensures RowsOf(t.db.rows, u).presence == RowsOf(s.db.rows, u).presence - {area} {
      DroppedPresence(s.db.rows, area, u);
    }
    forall n | n in t.broker.unacked ensures PcFits(t.db, t.broker.published[n].user, t.worker.pcs[n]) {
      assert PcFits(s.db, s.broker.published[n].user, s.worker.pcs[n]);
    }
    forall u | u in t.worker.memory
      ensures MemoryFits(t.db, t.worker.memory[u], u, InGap(t.broker, t.worker.pcs, u))
    {
      assert MemoryFits(s.db, s.worker.memory[u], u, InGap(s.broker, s.worker.pcs, u));
    }
  }

  lemma CreateKeepsHints(c: Config, s: State, area: AreaId)
    requires Hints(c, s) && Enabled(c, s, CreateArea(area))
    ensures Hints(c, Next(c, s, CreateArea(area)))
  {
  }

  lemma FailKeepsHints(c: Config, s: State, n: nat, pos: nat)
    requires Hints(c, s) && Enabled(c, s, Fail(n, pos))
    ensures Hints(c, Next(c, s, Fail(n, pos)))
  {
    SoundNext(c, s, Fail(n, pos));
    MemoryIsExact(c, s, n);
    FitsAfterTask(c, s, Next(c, s, Fail(n, pos)), n);
  }

  /** One more delivery, which waits, opens and closes no gap. */
  lemma GapsAfterDelivery(c: Config, s: State, t: State, n: nat, u: string)
    requires Sound(c, s) && Sound(c, t) && n !in s.broker.unacked && n < |s.worker.pcs|
    requires t.broker.published == s.broker.published && t.broker.unacked == s.broker.unacked + [n]
    requires t.worker.pcs == s.worker.pcs[n := Waiting]
    ensures InGap(t.broker, t.worker.pcs, u) == InGap(s.broker, s.worker.pcs, u)
  {
    if InGap(s.broker, s.worker.pcs, u) {
      var m :| m in s.broker.unacked && s.worker.pcs[m].Committed? && s.broker.published[m].user == u;
      assert m in t.broker.unacked && t.worker.pcs[m].Committed?;
    }
  }

  lemma HintsAfterDelivery(c: Config, s: State, t: State, n: nat)
    requires Hints(c, s) && Sound(c, t) && n !in s.broker.unacked && n < |s.worker.pcs|
    requires t.broker.published == s.broker.published && t.broker.unacked == s.broker.unacked + [n]
    requires t.worker == s.worker.(pcs := s.worker.pcs[n := Waiting]) && t.db == s.db
    ensures Hints(c, t)
  {
    forall m | m in t.broker.unacked ensures PcFits(t.db, t.broker.published[m].user, t.worker.pcs[m]) {
      assert m == n || m in s.broker.unacked;
    }
    forall u | u in t.worker.memory ensures MemoryFits(t.db, t.worker.memory[u], u, InGap(t.broker, t.worker.pcs, u)) {
      GapsAfterDelivery(c, s, t, n, u);
    }
  }

  lemma HintsAfterReturn(c: Config, s: State, t: State)
    requires Hints(c, s) && Sound(c, t)
    requires t.broker.published == s.broker.published && t.broker.unacked == s.broker.unacked
    requires t.worker == s.worker && t.db == s.db
    ensures Hints(c, t)
  {
    forall u | u in t.worker.memory ensures InGap(t.broker, t.worker.pcs, u) == InGap(s.broker, s.worker.pcs, u) {}
  }

  lemma DeliverKeepsHints(c: Config, s: State, pos: nat)
    requires Hints(c, s) && Enabled(c, s, Deliver(pos))
    ensures Hints(c, Next(c, s, Deliver(pos)))
  {
    var t, n := Next(c, s, Deliver(pos)), s.broker.queue[0];
    SoundNext(c, s, Deliver(pos));
    DeliverShape(c, s, pos);
    if s.broker.published[n].v != SCHEMA_VERSION {
      HintsAfterReturn(c, s, t);
    } else {
      HintsAfterDelivery(c, s, t, n);
    }
  }

  lemma PublishKeepsHints(c: Config, s: State, e: Event)
    requires Hints(c, s)
    ensures Hints(c, Next(c, s, Publish(e)))
  {
    SoundNext(c, s, Publish(e));
    HintsAfterPublish(c, s, Next(c, s, Publish(e)), e);
  }

  lemma HintsAfterPublish(c: Config, s: State, t: State, e: Event)
    requires Hints(c, s) && Sound(c, t) && t.db == s.db
    requires t.broker.published == s.broker.published + [e] && t.broker.unacked == s.broker.unacked
    requires t.worker == s.worker.(pcs := s.worker.pcs + [Waiting])
    ensures Hints(c, t)
  {
    forall u | u in t.worker.memory ensures InGap(t.broker, t.worker.pcs, u) == InGap(s.broker, s.worker.pcs, u) {
      if InGap(s.broker, s.worker.pcs, u) {
        var m :| m in s.broker.unacked && s.worker.pcs[m].Committed? && s.broker.published[m].user == u;
        assert m in t.broker.unacked && t.worker.pcs[m].Committed?;
      }
    }
  }

  lemma CrashKeepsHints(c: Config, s: State)
    requires Hints(c, s)
    ensures Hints(c, Next(c, s, Crash))
  {
    SoundNext(c, s, Crash);
  }

  lemma TaskKeepsHints(c: Config, s: State, step: Step)
    requires Hints(c, s) && step.IsTask() && Enabled(c, s, step)
    ensures Hints(c, Next(c, s, step))
  {
    if step.Commit? {
      CommitKeepsHints(c, s, step.n);
    } else if step.SetMemory? {
      SetMemoryKeepsHints(c, s, step.n);
    } else if step.KeepHint? {
      KeepHintKeepsHints(c, s, step.n);
    } else {
      QuietStepKeepsHints(c, s, step);
    }
  }

  lemma RebuildKeepsHints(c: Config, s: State, snapshot: Point -> set<AreaId>)
    requires Hints(c, s) && Enabled(c, s, Rebuild(snapshot))
    ensures Hints(c, Next(c, s, Rebuild(snapshot)))
  {
    SoundNext(c, s, Rebuild(snapshot));
  }

  lemma AreaStepKeepsHints(c: Config, s: State, step: Step)
    requires Hints(c, s) && (step.CreateArea? || step.DeleteArea? || step.Rebuild?) && Enabled(c, s, step)
    ensures Hints(c, Next(c, s, step))
  {
    if step.CreateArea? {
      CreateKeepsHints(c, s, step.area);
    } else if step.DeleteArea? {
      DeleteKeepsHints(c, s, step.area);
    } else {
      RebuildKeepsHints(c, s, step.snapshot);
    }
  }

  lemma HintsNext(c: Config, s: State, step: Step)
    requires Hints(c, s) && Enabled(c, s, step)
    ensures Hints(c, Next(c, s, step))
  {
    if step.IsTask() {
      TaskKeepsHints(c, s, step);
    } else if step.Publish? {
      PublishKeepsHints(c, s, step.e);
    } else if step.Deliver? {
      DeliverKeepsHints(c, s, step.pos);
    } else if step.Fail? {
      FailKeepsHints(c, s, step.n, step.pos);
    } else if step.Crash? {
      CrashKeepsHints(c, s);
    } else {
      AreaStepKeepsHints(c, s, step);
    }
  }

  lemma InitHints(c: Config, s: State)
    requires Init(s)
    ensures Hints(c, s)
  {
  }

  lemma {:induction false} RunKeepsHints(c: Config, s: State, steps: seq<Step>)
    requires Hints(c, s) && IsRun(c, s, steps)
    ensures Hints(c, After(c, s, steps))
    decreases |steps|
  {
    if steps != [] {
      HintsNext(c, s, steps[0]);
      RunKeepsHints(c, Next(c, s, steps[0]), steps[1..]);
    }
  }

  /** In every run from the start, outside the gap between a commit and the memory update, what a
      worker remembers of a user agrees with the table on the areas that exist. */
  lemma MemoryAgreesOutsideTheGap(c: Config, s: State, steps: seq<Step>, user: string)
    requires Init(s) && IsRun(c, s, steps)
    ensures Hints(c, After(c, s, steps))
    ensures var t := After(c, s, steps);
      user in t.worker.memory && !InGap(t.broker, t.worker.pcs, user) ==> t.worker.memory[user] * t.db.live == PresenceOf(t, user)
  {
    InitHints(c, s);
    RunKeepsHints(c, s, steps);
  }

  /** In every run from the start, no report that skips its transaction skips a change. */
  lemma NoRunSkipsAChange(c: Config, s: State, steps: seq<Step>, n: nat, stamp: Stamp)
    requires Init(s) && IsRun(c, s, steps)
    requires Out(After(c, s, steps), n)
    requires var t := After(c, s, steps);
      var u, pc := t.broker.published[n].user, t.worker.pcs[n];
      || (pc.Hinting? && u in t.worker.memory && t.worker.memory[u] == pc.current)
      || (pc.HaveRead? && pc.got == pc.current)
    ensures var t := After(c, s, steps);
      var u, current := t.broker.published[n].user, t.worker.pcs[n].current;
      Transition(RowsOf(t.db.rows, u), current * t.db.live, stamp) == RowsOf(t.db.rows, u)
  {
    InitHints(c, s);
    RunKeepsHints(c, s, steps);
    FastPathSkipsNothing(c, After(c, s, steps), n, stamp);
  }
}
