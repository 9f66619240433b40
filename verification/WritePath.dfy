/** The change transaction of report() at the level of single SQL statements, many of them at
    once, from any number of processes and whatever their hints were. The advisory lock can be
    switched off: then only the primary key of the presence table arbitrates. */
module WritePath {
  import opened Tables
  import opened Lists

  datatype Config = Config(useLock: bool, lockKey: string -> int)

  /** Begun; holding the lock; inserting the entered areas in ascending order; deleting the rows of
      the departed areas, one by one in an order of the database's choice, up to the commit. */
  datatype Phase =
    | Fresh
    | Holding
    | Inserting(previous: set<AreaId>, todo: seq<AreaId>)
    | Leaving(previous: set<AreaId>, gone: seq<AreaId>)

  /** An open transaction with its uncommitted row changes. */
  datatype Tx = Tx(
    user: string,
    current: set<AreaId>,
    stamp: Stamp,
    phase: Phase,
    inserted: set<AreaId>,
    deleted: set<AreaId>)

  /** What was committed, in commit order. */
  datatype Event =
    | Reported(user: string, current: set<AreaId>, stamp: Stamp)
    | AreaCreated(area: AreaId)
    | AreaDeleted(area: AreaId)

  /** Committed tables. `removed` counts the presence rows taken away by exits. */
  datatype World = World(rows: Rows, live: set<AreaId>, ever: set<AreaId>, removed: multiset<(string, AreaId)>)

  datatype State = State(world: World, txs: map<nat, Tx>, history: seq<Event>)

  datatype Step =
    | Begin(id: nat, user: string, current: set<AreaId>, stamp: Stamp)
    | Lock(id: nat)
    | Read(id: nat, todo: seq<AreaId>)
    | Insert(id: nat)
    | Leave(id: nat, gone: seq<AreaId>)
    | Delete(id: nat)
    | Commit(id: nat)
    | Abort(id: nat)
    | CreateArea(area: AreaId)
    | DeleteArea(area: AreaId)

  function Pres(w: World, user: string): set<AreaId> { RowsOf(w.rows, user).presence }

  /** Another open transaction of the same user holds an uncommitted version of row (user, a). */
  ghost predicate RowHeld(s: State, id: nat, a: AreaId)
    requires id in s.txs
  {
    exists k :: k in s.txs && k != id && s.txs[k].user == s.txs[id].user && (a in s.txs[k].inserted || a in s.txs[k].deleted)
  }

  /** Somebody else is past the lock statement with the same lock. */
  ghost predicate LockHeld(c: Config, s: State, id: nat)
    requires id in s.txs
  {
    && c.useLock
    && exists k :: k in s.txs && k != id && !s.txs[k].phase.Fresh? && c.lockKey(s.txs[k].user) == c.lockKey(s.txs[id].user)
  }

  /** Another open transaction of the same user has deleted row (user, a). */
  ghost predicate DeletedElsewhere(s: State, id: nat, a: AreaId)
    requires id in s.txs
  {
    exists k :: k in s.txs && k != id && s.txs[k].user == s.txs[id].user && a in s.txs[k].deleted
  }

  ghost predicate Touched(s: State, a: AreaId) {
    exists k :: k in s.txs && (a in s.txs[k].inserted || a in s.txs[k].deleted)
  }

  ghost predicate Enabled(c: Config, s: State, step: Step) {
    match step
    case Begin(id, _, _, _) => id !in s.txs
    case Lock(id) => id in s.txs && s.txs[id].phase.Fresh? && !LockHeld(c, s, id)
    case Read(id, todo) =>
      && id in s.txs && s.txs[id].phase.Holding?
      && StrictlyAscending(todo) && Elements(todo) == s.txs[id].current - Pres(s.world, s.txs[id].user)
    case Insert(id) =>
      && id in s.txs && s.txs[id].phase.Inserting? && s.txs[id].phase.todo != []
      && s.txs[id].phase.todo[0] in s.world.live && !RowHeld(s, id, s.txs[id].phase.todo[0])
    case Leave(id, gone) =>
      && id in s.txs && s.txs[id].phase.Inserting? && s.txs[id].phase.todo == [] && NoDuplicates(gone)
      && Elements(gone) == (s.txs[id].phase.previous - s.txs[id].current) * Pres(s.world, s.txs[id].user)
    case Delete(id) =>
      && id in s.txs && s.txs[id].phase.Leaving? && s.txs[id].phase.gone != []
      && !DeletedElsewhere(s, id, s.txs[id].phase.gone[0])
    case Commit(id) => id in s.txs && s.txs[id].phase.Leaving? && s.txs[id].phase.gone == []
    case Abort(id) => id in s.txs
    case CreateArea(a) => a !in s.world.ever
    case DeleteArea(a) => a in s.world.live && !Touched(s, a)
  }

  function UserPairs(user: string, areas: set<AreaId>): set<(string, AreaId)> {
    set a | a in areas :: (user, a)
  }

  function Committed(w: World, tx: Tx): World {
    var r := RowsOf(w.rows, tx.user);
    w.(rows := w.rows[tx.user := UserRows((r.presence + tx.inserted) - tx.deleted, WithLogs(r, tx.inserted, tx.stamp))],
       removed := w.removed + multiset(UserPairs(tx.user, tx.deleted)))
  }

  function Created(w: World, a: AreaId): World {
    w.(live := w.live + {a}, ever := w.ever + {a})
  }

  function Dropped(w: World, a: AreaId): World {
    w.(live := w.live - {a}, rows := DropArea(w.rows, a))
  }

  ghost function Next(c: Config, s: State, step: Step): State
    requires Enabled(c, s, step)
  {
    match step
    case Begin(id, user, current, stamp) => s.(txs := s.txs[id := Tx(user, current, stamp, Fresh, {}, {})])
    case Lock(id) => s.(txs := s.txs[id := s.txs[id].(phase := Holding)])
    case Read(id, todo) =>
      var tx := s.txs[id];
      s.(txs := s.txs[id := tx.(phase := Inserting(Pres(s.world, tx.user), todo))])
    case Insert(id) =>
      // ON CONFLICT DO NOTHING: a committed row makes the insert return no row.
      var tx := s.txs[id];
      var a, rest := tx.phase.todo[0], tx.phase.(todo := tx.phase.todo[1..]);
      s.(txs := s.txs[id := if a in Pres(s.world, tx.user) then tx.(phase := rest)
                            else tx.(phase := rest, inserted := tx.inserted + {a})])
    case Leave(id, gone) => s.(txs := s.txs[id := s.txs[id].(phase := Leaving(s.txs[id].phase.previous, gone))])
    case Delete(id) =>
      // A row that somebody else deleted and committed meanwhile is passed over.
      var tx := s.txs[id];
      var a, rest := tx.phase.gone[0], tx.phase.(gone := tx.phase.gone[1..]);
      s.(txs := s.txs[id := if a in Pres(s.world, tx.user) then tx.(phase := rest, deleted := tx.deleted + {a})
                            else tx.(phase := rest)])
    case Commit(id) =>
      var tx := s.txs[id];
      State(Committed(s.world, tx), s.txs - {id}, s.history + [Reported(tx.user, tx.current, tx.stamp)])
    case Abort(id) => s.(txs := s.txs - {id})
    case CreateArea(a) => s.(world := Created(s.world, a), history := s.history + [AreaCreated(a)])
    case DeleteArea(a) => s.(world := Dropped(s.world, a), history := s.history + [AreaDeleted(a)])
  }

  // ----- invariants that hold with and without the lock

  /** Log rows = rows removed by exits + the row present now, for every user and live area. */
  ghost predicate Balanced(w: World) {
    forall u, a :: BalancedAt(w, u, a)
  }

  ghost predicate BalancedAt(w: World, u: string, a: AreaId) {
    var logged := |LogOf(RowsOf(w.rows, u), a)|;
    && (a in w.live ==> logged == w.removed[(u, a)] + if a in Pres(w, u) then 1 else 0)
    && (a !in w.ever ==> logged == 0 && w.removed[(u, a)] == 0)
  }

  ghost predicate WorldFits(w: World) {
    && w.live <= w.ever
    && (forall u :: Pres(w, u) <= w.live)
    && Balanced(w)
  }

  /** Uncommitted inserts are new rows of live areas; uncommitted deletes are existing rows. */
  ghost predicate TxFits(w: World, tx: Tx) {
    && tx.inserted !! Pres(w, tx.user) && tx.inserted <= w.live * tx.current
    && tx.deleted <= Pres(w, tx.user) && tx.deleted !! tx.current
    && (!tx.phase.Leaving? ==> tx.deleted == {})
    && (tx.phase.Leaving? ==> Elements(tx.phase.gone) !! tx.current)
    && (tx.phase.Fresh? || tx.phase.Holding? ==> tx.inserted == {})
    && (tx.phase.Inserting? ==> TodoFits(tx.inserted, tx.phase.todo, tx.current))
  }

  ghost predicate TodoFits(inserted: set<AreaId>, todo: seq<AreaId>, current: set<AreaId>) {
    StrictlyAscending(todo) && Elements(todo) <= current && forall a, b :: a in inserted && b in todo ==> a < b
  }

  ghost predicate Apart(t1: Tx, t2: Tx) {
    t1.user == t2.user ==> t1.inserted !! t2.inserted && t1.deleted !! t2.deleted
  }

  ghost predicate Arbitrated(s: State) {
    && WorldFits(s.world)
    && (forall k :: k in s.txs ==> TxFits(s.world, s.txs[k]))
    && (forall k, m :: k in s.txs && m in s.txs && k != m ==> Apart(s.txs[k], s.txs[m]))
  }

  lemma CommittedKeepsBalance(w: World, tx: Tx)
    requires WorldFits(w) && TxFits(w, tx)
    ensures WorldFits(Committed(w, tx))
  {
    var v := Committed(w, tx);
    forall u ensures Pres(v, u) <= v.live { assert Pres(w, u) <= w.live; }
    forall u, a ensures BalancedAt(v, u, a) {
      assert BalancedAt(w, u, a);
      var pairs := UserPairs(tx.user, tx.deleted);
      assert (u, a) in pairs <==> u == tx.user && a in tx.deleted;
      assert v.removed[(u, a)] == w.removed[(u, a)] + if (u, a) in pairs then 1 else 0;
    }
  }

  lemma DroppedKeepsWorld(w: World, a: AreaId)
    requires WorldFits(w)
    ensures WorldFits(Dropped(w, a))
    ensures forall u :: Pres(Dropped(w, a), u) == Pres(w, u) - {a}
  {
    var v := Dropped(w, a);
    forall u ensures Pres(v, u) == Pres(w, u) - {a} && Pres(v, u) <= v.live { assert Pres(w, u) <= w.live; }
    forall u, b ensures BalancedAt(v, u, b) {
      assert BalancedAt(w, u, b);
    }
  }

  lemma CreatedKeepsWorld(w: World, a: AreaId)
    requires WorldFits(w) && a !in w.ever
    ensures WorldFits(Created(w, a))
  {
    var v := Created(w, a);
    forall u ensures Pres(v, u) <= v.live { assert Pres(w, u) <= w.live; }
    forall u, b ensures BalancedAt(v, u, b) {
      assert BalancedAt(w, u, b);
      assert Pres(w, u) <= w.live;
    }
  }

  lemma CommitKeepsArbitrated(c: Config, s: State, id: nat)
    requires Arbitrated(s) && Enabled(c, s, Commit(id))
    ensures Arbitrated(Next(c, s, Commit(id)))
  {
    var t, tx := Next(c, s, Commit(id)), s.txs[id];
    CommittedKeepsBalance(s.world, tx);
    forall k | k in t.txs ensures TxFits(t.world, t.txs[k]) {
      assert TxFits(s.world, s.txs[k]) && Apart(s.txs[id], s.txs[k]);
    }
  }

  predicate IsStatement(step: Step) { step.Lock? || step.Read? || step.Insert? || step.Leave? || step.Delete? }

  lemma StatementFits(c: Config, s: State, step: Step)
    requires Arbitrated(s) && Enabled(c, s, step) && IsStatement(step)
    ensures var t := Next(c, s, step); step.id in t.txs && TxFits(t.world, t.txs[step.id])
  {
    var tx := s.txs[step.id];
    assert TxFits(s.world, tx);
    if step.Insert? {
      var todo := tx.phase.todo;
      assert todo[0] in todo && Elements(todo[1..]) <= Elements(todo);
    } else if step.Read? {
      assert Elements(step.todo) <= tx.current;
    } else if step.Delete? {
      var gone := tx.phase.gone;
      assert gone[0] in Elements(gone) && Elements(gone[1..]) <= Elements(gone);
    }
  }

  lemma StatementKeepsArbitrated(c: Config, s: State, step: Step)
    requires Arbitrated(s) && Enabled(c, s, step) && IsStatement(step)
    ensures Arbitrated(Next(c, s, step))
  {
    var t := Next(c, s, step);
    StatementFits(c, s, step);
    assert TxFits(s.world, s.txs[step.id]);
    forall k | k in t.txs && k != step.id ensures Apart(t.txs[step.id], t.txs[k]) && Apart(t.txs[k], t.txs[step.id]) {
      assert Apart(s.txs[step.id], s.txs[k]);
      assert TxFits(s.world, s.txs[k]);
    }
  }

  lemma ArbitratedNext(c: Config, s: State, step: Step)
    requires Arbitrated(s) && Enabled(c, s, step)
    ensures Arbitrated(Next(c, s, step))
  {
    if step.Commit? {
      CommitKeepsArbitrated(c, s, step.id);
    } else if IsStatement(step) {
      StatementKeepsArbitrated(c, s, step);
    } else if step.CreateArea? {
      CreatedKeepsWorld(s.world, step.area);
    } else if step.DeleteArea? {
      DroppedKeepsWorld(s.world, step.area);
    }
  }

  // ----- with the lock, the run is serial

  /** Any tables that balance, with no transaction open, are a state to start from. */
  lemma QuietStateFits(c: Config, s: State)
    requires WorldFits(s.world) && s.txs == map[]
    ensures Arbitrated(s) && Serialized(c, s)
  {
  }

  /** What the holder of the lock knows: its read agrees with the table on the areas that still
      exist, and its inserts and deletes are on the way to exactly the difference. */
  ghost predicate Exact(w: World, tx: Tx) {
    match tx.phase
    case Fresh => true
    case Holding => true
    case Inserting(previous, todo) =>
      && previous <= w.ever && previous * w.live == Pres(w, tx.user)
      && tx.inserted + Elements(todo) == tx.current - previous
    case Leaving(previous, gone) =>
      && previous <= w.ever && previous * w.live == Pres(w, tx.user)
      && tx.inserted == tx.current - previous
      && tx.deleted + Elements(gone) * Pres(w, tx.user) == Pres(w, tx.user) - tx.current
  }

  ghost predicate LocksDiffer(c: Config, t1: Tx, t2: Tx) {
    !t1.phase.Fresh? && !t2.phase.Fresh? ==> c.lockKey(t1.user) != c.lockKey(t2.user)
  }

  ghost predicate Serialized(c: Config, s: State) {
    && Arbitrated(s)
    && (forall k, m :: k in s.txs && m in s.txs && k != m ==> LocksDiffer(c, s.txs[k], s.txs[m]))
    && (forall k :: k in s.txs ==> Exact(s.world, s.txs[k]))
  }

  /** A commit under the lock is one transition to the current areas that still exist: presence
      becomes exactly that set, the log gains exactly one row for each area newly entered, and
      no other user's rows change. */
  lemma CommitIsOneTransition(c: Config, s: State, id: nat)
    requires Serialized(c, s) && Enabled(c, s, Commit(id))
    ensures var tx, w := s.txs[id], Next(c, s, Commit(id)).world;
      && w.rows == s.world.rows[tx.user := Transition(RowsOf(s.world.rows, tx.user), tx.current * s.world.live, tx.stamp)]
      && forall u :: u != tx.user ==> RowsOf(w.rows, u) == RowsOf(s.world.rows, u)
  {
    var tx, w := s.txs[id], s.world;
    assert TxFits(w, tx) && Exact(w, tx);
    assert (Pres(w, tx.user) + tx.inserted) - tx.deleted == tx.current * w.live;
    assert tx.current * w.live - Pres(w, tx.user) == tx.inserted;
  }

  lemma CommitKeepsSerialized(c: Config, s: State, id: nat)
    requires Serialized(c, s) && Enabled(c, s, Commit(id))
    ensures Serialized(c, Next(c, s, Commit(id)))
  {
    var t, tx := Next(c, s, Commit(id)), s.txs[id];
    CommitKeepsArbitrated(c, s, id);
    CommitIsOneTransition(c, s, id);
    forall k | k in t.txs ensures Exact(t.world, t.txs[k]) {
      assert Exact(s.world, s.txs[k]) && LocksDiffer(c, s.txs[id], s.txs[k]);
    }
  }

  lemma StatementIsExact(c: Config, s: State, step: Step)
    requires Serialized(c, s) && Enabled(c, s, step) && IsStatement(step)
    ensures Exact(Next(c, s, step).world, Next(c, s, step).txs[step.id])
  {
  }

  lemma StatementKeepsSerialized(c: Config, s: State, step: Step)
    requires c.useLock && Serialized(c, s) && Enabled(c, s, step) && IsStatement(step)
    ensures Serialized(c, Next(c, s, step))
  {
    var t := Next(c, s, step);
    StatementKeepsArbitrated(c, s, step);
    StatementIsExact(c, s, step);
    forall k | k in t.txs && k != step.id
      ensures LocksDiffer(c, t.txs[step.id], t.txs[k]) && LocksDiffer(c, t.txs[k], t.txs[step.id])
    {
      assert LocksDiffer(c, s.txs[step.id], s.txs[k]);
    }
  }

  lemma DeleteKeepsSerialized(c: Config, s: State, a: AreaId)
    requires Serialized(c, s) && Enabled(c, s, DeleteArea(a))
    ensures Serialized(c, Next(c, s, DeleteArea(a)))
  {
    var t := Next(c, s, DeleteArea(a));
    ArbitratedNext(c, s, DeleteArea(a));
    DroppedKeepsWorld(s.world, a);
    forall k | k in t.txs ensures Exact(t.world, t.txs[k]) {
      assert Exact(s.world, s.txs[k]);
      assert Pres(t.world, s.txs[k].user) == Pres(s.world, s.txs[k].user) - {a};
      assert a !in s.txs[k].inserted && a !in s.txs[k].deleted;
    }
  }

  lemma SerializedNext(c: Config, s: State, step: Step)
    requires c.useLock && Serialized(c, s) && Enabled(c, s, step)
    ensures Serialized(c, Next(c, s, step))
  {
    if step.Commit? {
      CommitKeepsSerialized(c, s, step.id);
    } else if IsStatement(step) {
      StatementKeepsSerialized(c, s, step);
    } else if step.DeleteArea? {
      DeleteKeepsSerialized(c, s, step.area);
    } else {
      ArbitratedNext(c, s, step);
      forall k | k in s.txs ensures Exact(Next(c, s, step).world, s.txs[k]) {
        assert Exact(s.world, s.txs[k]);
      }
    }
  }

  /** Tables after carrying out events one after the other, each report in one piece. */
  datatype Contents = Contents(rows: Rows, live: set<AreaId>)

  function InSeries(base: Contents, events: seq<Event>): Contents {
    if events == [] then base else
      var before := InSeries(base, events[..|events| - 1]);
      match events[|events| - 1]
      case Reported(user, current, stamp) =>
        before.(rows := before.rows[user := Transition(RowsOf(before.rows, user), current * before.live, stamp)])
      case AreaCreated(a) => before.(live := before.live + {a})
      case AreaDeleted(a) => Contents(DropArea(before.rows, a), before.live - {a})
  }

  ghost predicate IsRun(c: Config, s: State, steps: seq<Step>)
    decreases |steps|
  {
    steps == [] || (Enabled(c, s, steps[0]) && IsRun(c, Next(c, s, steps[0]), steps[1..]))
  }

  ghost function After(c: Config, s: State, steps: seq<Step>): State
    requires IsRun(c, s, steps)
    decreases |steps|
  {
    if steps == [] then s else After(c, Next(c, s, steps[0]), steps[1..])
  }

  ghost predicate Follows(base: Contents, s: State) {
    Contents(s.world.rows, s.world.live) == InSeries(base, s.history)
  }

  lemma OneMoreEvent(base: Contents, events: seq<Event>, e: Event)
    ensures var before, after := InSeries(base, events), InSeries(base, events + [e]);
      match e
      case Reported(user, current, stamp) =>
        after == before.(rows := before.rows[user := Transition(RowsOf(before.rows, user), current * before.live, stamp)])
      case AreaCreated(a) => after == before.(live := before.live + {a})
      case AreaDeleted(a) => after == Contents(DropArea(before.rows, a), before.live - {a})
  {
    assert (events + [e])[..|events|] == events;
  }

  lemma CommitFollows(c: Config, s: State, id: nat, base: Contents)
    requires Serialized(c, s) && Enabled(c, s, Commit(id)) && Follows(base, s)
    ensures Follows(base, Next(c, s, Commit(id)))
  {
    CommitIsOneTransition(c, s, id);
    OneMoreEvent(base, s.history, Reported(s.txs[id].user, s.txs[id].current, s.txs[id].stamp));
  }

  lemma FollowsNext(c: Config, s: State, step: Step, base: Contents)
    requires Serialized(c, s) && Enabled(c, s, step) && Follows(base, s)
    ensures Follows(base, Next(c, s, step))
  {
    if step.Commit? {
      CommitFollows(c, s, step.id, base);
    } else if step.CreateArea? {
      OneMoreEvent(base, s.history, AreaCreated(step.area));
    } else if step.DeleteArea? {
      OneMoreEvent(base, s.history, AreaDeleted(step.area));
    }
  }

  /** Any statement-level interleaving of reports under the lock, with rollbacks and area changes
      anywhere, leaves the tables as if the committed reports had run one after the other. */
  lemma {:induction false} RunIsSerial(c: Config, s: State, steps: seq<Step>, base: Contents)
    requires c.useLock && Serialized(c, s) && Follows(base, s) && IsRun(c, s, steps)
    ensures Serialized(c, After(c, s, steps)) && Follows(base, After(c, s, steps))
    decreases |steps|
  {
    if steps != [] {
      SerializedNext(c, s, steps[0]);
      FollowsNext(c, s, steps[0], base);
      RunIsSerial(c, Next(c, s, steps[0]), steps[1..], base);
    }
  }

  /** Conservation of log rows in every reachable state, lock or no lock. */
  lemma {:induction false} LogsAreConserved(c: Config, s: State, steps: seq<Step>, u: string, a: AreaId)
    requires Arbitrated(s) && IsRun(c, s, steps)
    ensures var w := After(c, s, steps).world;
      a in w.live ==> |LogOf(RowsOf(w.rows, u), a)| == w.removed[(u, a)] + if a in Pres(w, u) then 1 else 0
    decreases |steps|
  {
    if steps == [] {
      assert BalancedAt(s.world, u, a);
    } else {
      ArbitratedNext(c, s, steps[0]);
      LogsAreConserved(c, Next(c, s, steps[0]), steps[1..], u, a);
    }
  }

  // ----- simultaneous identical reports

  /** Every open transaction of the user reports area a as current. */
  ghost predicate AllInside(s: State, u: string, a: AreaId) {
    forall k :: k in s.txs && s.txs[k].user == u ==> a in s.txs[k].current
  }

  ghost predicate StaysInside(step: Step, u: string, a: AreaId) {
    && (step.Begin? && step.user == u ==> a in step.current)
    && (step.DeleteArea? ==> step.area != a)
  }

  lemma InsideStep(c: Config, s: State, step: Step, u: string, a: AreaId)
    requires Arbitrated(s) && AllInside(s, u, a) && Enabled(c, s, step) && StaysInside(step, u, a) && a in s.world.live
    ensures var t := Next(c, s, step);
      AllInside(t, u, a) && a in t.world.live && t.world.removed[(u, a)] == s.world.removed[(u, a)]
      && (a in Pres(s.world, u) ==> a in Pres(t.world, u))
  {
    if step.Commit? {
      var tx := s.txs[step.id];
      assert TxFits(s.world, tx);
      assert (u, a) !in UserPairs(tx.user, tx.deleted);
    } else if step.DeleteArea? {
      DroppedKeepsWorld(s.world, step.area);
    }
  }

  /** N reports that all place the user inside an area log it once if it was not held at the
      start, and never again: even without the lock, the primary key alone decides. */
  lemma {:induction false} IdenticalReportsLogOnce(c: Config, s: State, steps: seq<Step>, u: string, a: AreaId)
    requires Arbitrated(s) && AllInside(s, u, a) && a in s.world.live && IsRun(c, s, steps)
    requires forall i :: 0 <= i < |steps| ==> StaysInside(steps[i], u, a)
    ensures var before, w := |LogOf(RowsOf(s.world.rows, u), a)|, After(c, s, steps).world;
      && (a in Pres(s.world, u) ==> a in Pres(w, u))
      && |LogOf(RowsOf(w.rows, u), a)| == before + if a in Pres(w, u) && a !in Pres(s.world, u) then 1 else 0
    decreases |steps|
  {
    if steps != [] {
      var t := Next(c, s, steps[0]);
      ArbitratedNext(c, s, steps[0]);
      InsideStep(c, s, steps[0], u, a);
      assert BalancedAt(s.world, u, a) && BalancedAt(t.world, u, a);
      IdenticalReportsLogOnce(c, t, steps[1..], u, a);
    }
  }

  // ----- no deadlock

  /** The next row of an inserting or deleting transaction. */
  function NextRow(tx: Tx): Option<AreaId> {
    match tx.phase
    case Inserting(_, todo) => if todo == [] then None else Some(todo[0])
    case Leaving(_, gone) => if gone == [] then None else Some(gone[0])
    case _ => None
  }

  /** The transaction cannot take its next step because another one holds a lock or a row. */
  ghost predicate Waits(c: Config, s: State, id: nat)
    requires id in s.txs
  {
    match s.txs[id].phase
    case Fresh => LockHeld(c, s, id)
    case Holding => false
    case Inserting(_, todo) => todo != [] && RowHeld(s, id, todo[0])
    case Leaving(_, gone) => gone != [] && DeletedElsewhere(s, id, gone[0])
  }

  lemma {:induction false} HighestNext(txs: map<nat, Tx>, ids: set<nat>) returns (id: nat)
    requires ids != {} && ids <= txs.Keys
    requires forall k :: k in ids ==> NextRow(txs[k]).Some?
    ensures id in ids && NextRow(txs[id]).Some?
    ensures forall k :: k in ids ==> NextRow(txs[k]).Some? && NextRow(txs[k]).value <= NextRow(txs[id]).value
    decreases ids
  {
    var k :| k in ids;
    id := k;
    assert forall m :: m in ids ==> m == k || m in ids - {k};
    if ids - {k} != {} {
      var m := HighestNext(txs, ids - {k});
      id := if NextRow(txs[m]).value < NextRow(txs[k]).value then k else m;
    }
  }

  /** Under the lock no two transactions of a user are past the lock statement, so whoever is past
      it never waits. */
  lemma HolderNeverWaits(c: Config, s: State, id: nat)
    requires Serialized(c, s) && id in s.txs && !s.txs[id].phase.Fresh?
    ensures !Waits(c, s, id)
  {
    forall m | m in s.txs && m != id && s.txs[m].user == s.txs[id].user
      ensures s.txs[m].inserted == {} && s.txs[m].deleted == {}
    {
      assert LocksDiffer(c, s.txs[m], s.txs[id]) && TxFits(s.world, s.txs[m]);
    }
  }

  /** Whenever transactions are open, at least one waits for nobody. */
  lemma NoDeadlock(c: Config, s: State) returns (id: nat)
    requires Serialized(c, s) && s.txs != map[]
    ensures id in s.txs && !Waits(c, s, id)
  {
    if k :| k in s.txs && !s.txs[k].phase.Fresh? {
      id := k;
      HolderNeverWaits(c, s, id);
    } else {
      id :| id in s.txs;
    }
  }

  /** Every DELETE visits its rows in ascending order, as the inserts do. */
  ghost predicate DeletesAscend(s: State) {
    forall k :: k in s.txs && s.txs[k].phase.Leaving? ==> DeletesUpTo(s.txs[k].deleted, s.txs[k].phase.gone)
  }

  ghost predicate DeletesUpTo(deleted: set<AreaId>, gone: seq<AreaId>) {
    forall a, b :: a in deleted && b in gone ==> a < b
  }

  /** Without the lock, the ascending order of the inserts is enough as long as the deletes keep one
      order too. */
  lemma NoDeadlockInOrder(c: Config, s: State) returns (id: nat)
    requires !c.useLock && Arbitrated(s) && s.txs != map[] && DeletesAscend(s)
    ensures id in s.txs && !Waits(c, s, id)
  {
    var deleting := set k | k in s.txs && s.txs[k].phase.Leaving?;
    if k :| k in s.txs && NextRow(s.txs[k]).None? {
      id := k;
    } else if deleting != {} {
      id := HighestNext(s.txs, deleting);
      DeleterGoesOn(c, s, deleting, id);
    } else {
      id := HighestNext(s.txs, s.txs.Keys);
      assert forall k :: k in s.txs ==> k !in deleting;
      InserterGoesOn(c, s, id);
    }
  }

  /** The transactions in `ids` all have a next row, and none a higher one than id. */
  ghost predicate IsHighest(txs: map<nat, Tx>, ids: set<nat>, id: nat) {
    && id in ids && ids <= txs.Keys && NextRow(txs[id]).Some?
    && forall k :: k in ids ==> NextRow(txs[k]).Some? && NextRow(txs[k]).value <= NextRow(txs[id]).value
  }

  lemma DeleterGoesOn(c: Config, s: State, deleting: set<nat>, id: nat)
    requires Arbitrated(s) && DeletesAscend(s) && IsHighest(s.txs, deleting, id) && s.txs[id].phase.Leaving?
    requires forall k :: k in s.txs && k !in deleting ==> !s.txs[k].phase.Leaving?
    ensures !Waits(c, s, id)
  {
    var a := s.txs[id].phase.gone[0];
    forall m | m in s.txs && m != id ensures a !in s.txs[m].deleted {
      assert TxFits(s.world, s.txs[m]);
      if m in deleting && s.txs[m].phase.Leaving? {
        assert s.txs[m].phase.gone[0] in s.txs[m].phase.gone;
      }
    }
  }

  lemma InserterGoesOn(c: Config, s: State, id: nat)
    requires Arbitrated(s) && IsHighest(s.txs, s.txs.Keys, id)
    requires forall k :: k in s.txs ==> !s.txs[k].phase.Leaving?
    ensures !Waits(c, s, id)
  {
    var a := NextRow(s.txs[id]).value;
    forall m | m in s.txs && m != id ensures a !in s.txs[m].inserted && a !in s.txs[m].deleted {
      assert TxFits(s.world, s.txs[m]);
      assert s.txs[m].phase.todo[0] in s.txs[m].phase.todo;
    }
  }

  lemma {:induction false} Extend(c: Config, s: State, steps: seq<Step>, step: Step)
    requires IsRun(c, s, steps) && Enabled(c, After(c, s, steps), step)
    ensures IsRun(c, s, steps + [step])
    ensures After(c, s, steps + [step]) == Next(c, After(c, s, steps), step)
    decreases |steps|
  {
    var more := steps + [step];
    if steps == [] {
      assert more[1..] == [];
    } else {
      Extend(c, Next(c, s, steps[0]), steps[1..], step);
      assert more[1..] == steps[1..] + [step];
    }
  }

  /** User u is in areas 1 and 2, and two reports, each with an open transaction, say no area. */
  function TwoExits(w: World, p0: Phase, d0: set<AreaId>, p1: Phase, d1: set<AreaId>): State {
    State(w, map[0 := Tx("u", {}, Stamp(1, None), p0, {}, d0), 1 := Tx("u", {}, Stamp(2, None), p1, {}, d1)], [])
  }

  lemma BothRead(c: Config, w: World) returns (steps: seq<Step>)
    requires !c.useLock && Pres(w, "u") == {1, 2}
    ensures IsRun(c, State(w, map[], []), steps)
    ensures After(c, State(w, map[], []), steps) == TwoExits(w, Inserting({1, 2}, []), {}, Inserting({1, 2}, []), {})
  {
    var s := State(w, map[], []);
    steps := [];
    Extend(c, s, steps, Begin(0, "u", {}, Stamp(1, None)));
    steps := steps + [Begin(0, "u", {}, Stamp(1, None))];
    Extend(c, s, steps, Lock(0));
    steps := steps + [Lock(0)];
    Extend(c, s, steps, Read(0, []));
    steps := steps + [Read(0, [])];
    Extend(c, s, steps, Begin(1, "u", {}, Stamp(2, None)));
    steps := steps + [Begin(1, "u", {}, Stamp(2, None))];
    Extend(c, s, steps, Lock(1));
    steps := steps + [Lock(1)];
    Extend(c, s, steps, Read(1, []));
    steps := steps + [Read(1, [])];
  }

  lemma BothDelete(c: Config, w: World)
    requires !c.useLock && Pres(w, "u") == {1, 2}
    ensures var q0, q1, ins := Leaving({1, 2}, [1, 2]), Leaving({1, 2}, [2, 1]), Inserting({1, 2}, []);
      && Enabled(c, TwoExits(w, ins, {}, ins, {}), Leave(0, [1, 2]))
      && Next(c, TwoExits(w, ins, {}, ins, {}), Leave(0, [1, 2])) == TwoExits(w, q0, {}, ins, {})
      && Enabled(c, TwoExits(w, q0, {}, ins, {}), Leave(1, [2, 1]))
      && Next(c, TwoExits(w, q0, {}, ins, {}), Leave(1, [2, 1])) == TwoExits(w, q0, {}, q1, {})
  {
  }

  lemma FirstRowsGo(c: Config, w: World)
    requires Pres(w, "u") == {1, 2}
    ensures var q0, q1 := Leaving({1, 2}, [1, 2]), Leaving({1, 2}, [2, 1]);
      && Enabled(c, TwoExits(w, q0, {}, q1, {}), Delete(0))
      && Next(c, TwoExits(w, q0, {}, q1, {}), Delete(0)) == TwoExits(w, Leaving({1, 2}, [2]), {1}, q1, {})
      && Enabled(c, TwoExits(w, Leaving({1, 2}, [2]), {1}, q1, {}), Delete(1))
      && Next(c, TwoExits(w, Leaving({1, 2}, [2]), {1}, q1, {}), Delete(1))
         == TwoExits(w, Leaving({1, 2}, [2]), {1}, Leaving({1, 2}, [1]), {2})
  {
    assert [1, 2][1..] == [2] && [2, 1][1..] == [1];
    assert {} + {1} == {1} && {} + {2} == {2};
  }

  /** Without the lock the order of the deletes matters: two exits that visit the same two rows in
      opposite orders end up waiting for each other. */
  lemma UnlockedDeletesCanDeadlock(c: Config, w: World) returns (steps: seq<Step>)
    requires !c.useLock && WorldFits(w) && Pres(w, "u") == {1, 2}
    ensures IsRun(c, State(w, map[], []), steps)
    ensures var t := After(c, State(w, map[], []), steps);
      t.txs.Keys == {0, 1} && forall id :: id in t.txs ==> Waits(c, t, id)
  {
    var s := State(w, map[], []);
    steps := BothRead(c, w);
    BothDelete(c, w);
    FirstRowsGo(c, w);
    Extend(c, s, steps, Leave(0, [1, 2]));
    steps := steps + [Leave(0, [1, 2])];
    Extend(c, s, steps, Leave(1, [2, 1]));
    steps := steps + [Leave(1, [2, 1])];
    Extend(c, s, steps, Delete(0));
    steps := steps + [Delete(0)];
    Extend(c, s, steps, Delete(1));
    steps := steps + [Delete(1)];
    var t := TwoExits(w, Leaving({1, 2}, [2]), {1}, Leaving({1, 2}, [1]), {2});
    assert 2 in t.txs[1].deleted && 1 in t.txs[0].deleted;
  }
}
