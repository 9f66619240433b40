/** The change transaction gets on: when it can take its next step, that somebody always can, and
    that the holder of the lock commits exactly when the areas it has to enter exist. */
module WriteProgress {
  import opened Tables
  import opened Lists
  import opened WritePath

  // ----- the next step of one transaction

  /** A statement or the commit of this transaction. */
  predicate OwnStep(step: Step, id: nat) { (IsStatement(step) || step.Commit?) && step.id == id }

  /** The next insert refers to an area that does not exist: the foreign key rejects it. */
  predicate NextIsMissing(s: State, id: nat)
    requires id in s.txs
  {
    && s.txs[id].phase.Inserting? && s.txs[id].phase.todo != []
    && s.txs[id].phase.todo[0] !in s.world.live
  }

  ghost predicate CanMove(c: Config, s: State, id: nat) {
    exists step :: OwnStep(step, id) && Enabled(c, s, step)
  }

  /** Some query lists the areas in ascending order. */
  lemma {:induction false} Listing(areas: set<AreaId>) returns (q: seq<AreaId>)
    ensures StrictlyAscending(q) && NoDuplicates(q) && Elements(q) == areas
    decreases areas
  {
    q := [];
    if areas != {} {
      var a :| a in areas;
      var rest := Listing(areas - {a});
      SortFacts([a] + rest);
      SortOfDistinct([a] + rest);
      ElementsOfConcat([a], rest);
      q := Sort([a] + rest);
    }
  }

  lemma OwnStepExists(c: Config, s: State, id: nat) returns (step: Step)
    requires id in s.txs && !Waits(c, s, id) && !NextIsMissing(s, id)
    ensures OwnStep(step, id) && Enabled(c, s, step)
  {
    var tx := s.txs[id];
    match tx.phase
    case Fresh => step := Lock(id);
    case Holding =>
      var todo := Listing(tx.current - Pres(s.world, tx.user));
      step := Read(id, todo);
    case Inserting(previous, todo) =>
      if todo == [] {
        var gone := Listing((previous - tx.current) * Pres(s.world, tx.user));
        step := Leave(id, gone);
      } else {
        step := Insert(id);
      }
    case Leaving(_, gone) => step := if gone == [] then Commit(id) else Delete(id);
  }

  /** A transaction has a step to take exactly when it waits for nobody and its next insert does not
      miss its area. */
  lemma MovesExactlyUnlessWaiting(c: Config, s: State, id: nat)
    requires id in s.txs
    ensures CanMove(c, s, id) <==> !Waits(c, s, id) && !NextIsMissing(s, id)
  {
    if !Waits(c, s, id) && !NextIsMissing(s, id) {
      var step := OwnStepExists(c, s, id);
    }
  }

  /** Under the lock, whenever transactions are open, one can take its next step, or only learns that
      an area it would enter is gone. */
  lemma SomebodyMoves(c: Config, s: State) returns (id: nat)
    requires Serialized(c, s) && s.txs != map[]
    ensures id in s.txs && (CanMove(c, s, id) || NextIsMissing(s, id))
  {
    id := NoDeadlock(c, s);
    MovesExactlyUnlessWaiting(c, s, id);
  }

  /** The same without the lock, as long as the deletes keep one order. */
  lemma SomebodyMovesInOrder(c: Config, s: State) returns (id: nat)
    requires !c.useLock && Arbitrated(s) && s.txs != map[] && DeletesAscend(s)
    ensures id in s.txs && (CanMove(c, s, id) || NextIsMissing(s, id))
  {
    id := NoDeadlockInOrder(c, s);
    MovesExactlyUnlessWaiting(c, s, id);
  }

  // ----- from the lock to the commit

  /** The areas that the transaction has yet to insert. */
  function ToEnter(s: State, id: nat): set<AreaId>
    requires id in s.txs
  {
    match s.txs[id].phase
    case Fresh => s.txs[id].current - Pres(s.world, s.txs[id].user)
    case Holding => s.txs[id].current - Pres(s.world, s.txs[id].user)
    case Inserting(_, todo) => Elements(todo)
    case Leaving(_, _) => {}
  }

  function PhasesLeft(phase: Phase): nat {
    match phase
    case Fresh => 3
    case Holding => 2
    case Inserting(_, _) => 1
    case Leaving(_, _) => 0
  }

  function RowsLeft(phase: Phase): nat {
    match phase
    case Inserting(_, todo) => |todo|
    case Leaving(_, gone) => |gone|
    case _ => 0
  }

  ghost predicate OwnRun(c: Config, s: State, id: nat, steps: seq<Step>)
    decreases |steps|
  {
    steps == [] || (OwnStep(steps[0], id) && Enabled(c, s, steps[0]) && OwnRun(c, Next(c, s, steps[0]), id, steps[1..]))
  }

  lemma {:induction false} OwnRunIsRun(c: Config, s: State, id: nat, steps: seq<Step>)
    requires OwnRun(c, s, id, steps)
    ensures IsRun(c, s, steps)
    decreases |steps|
  {
    if steps != [] {
      OwnRunIsRun(c, Next(c, s, steps[0]), id, steps[1..]);
    }
  }

  /** A run of the transaction's own steps that ends with its commit. */
  ghost predicate CommitsAlone(c: Config, s: State, id: nat, steps: seq<Step>) {
    OwnRun(c, s, id, steps) && IsRun(c, s, steps) && id !in After(c, s, steps).txs
  }

  /** Up to its commit the transaction changes nothing but itself. */
  predicate SameOutside(s: State, t: State, id: nat)
    requires id in s.txs && id in t.txs
  {
    && t.world == s.world && t.history == s.history && t.txs - {id} == s.txs - {id}
    && t.txs[id].user == s.txs[id].user && t.txs[id].current == s.txs[id].current && t.txs[id].stamp == s.txs[id].stamp
  }

  lemma StatementGetsOn(c: Config, s: State, step: Step, id: nat)
    requires Enabled(c, s, step) && OwnStep(step, id) && !step.Commit?
    ensures var t := Next(c, s, step);
      && id in t.txs && SameOutside(s, t, id) && !t.txs[id].phase.Fresh?
      && (PhasesLeft(t.txs[id].phase) < PhasesLeft(s.txs[id].phase)
          || (PhasesLeft(t.txs[id].phase) == PhasesLeft(s.txs[id].phase) && RowsLeft(t.txs[id].phase) < RowsLeft(s.txs[id].phase)))
      && ToEnter(t, id) <= ToEnter(s, id)
      && ToEnter(s, id) - ToEnter(t, id) <= s.world.live
  {
    if step.Insert? {
      var todo := s.txs[id].phase.todo;
      assert todo == [todo[0]] + todo[1..];
    }
  }

  lemma HolderMoves(c: Config, s: State, id: nat) returns (step: Step)
    requires Serialized(c, s) && id in s.txs && !Waits(c, s, id) && ToEnter(s, id) <= s.world.live
    ensures OwnStep(step, id) && Enabled(c, s, step)
  {
    if s.txs[id].phase.Inserting? && s.txs[id].phase.todo != [] {
      assert s.txs[id].phase.todo[0] in ToEnter(s, id);
    }
    step := OwnStepExists(c, s, id);
  }

  /** The tables and the history after the commit, with the transaction gone. */
  ghost predicate Reports(s: State, t: State, id: nat)
    requires id in s.txs
  {
    var tx := s.txs[id];
    && t.history == s.history + [Reported(tx.user, tx.current, tx.stamp)] && t.txs == s.txs - {id}
    && t.world.live == s.world.live
    && t.world.rows == s.world.rows[tx.user := Transition(RowsOf(s.world.rows, tx.user), tx.current * s.world.live, tx.stamp)]
  }

  lemma ReportsFromHere(s: State, t: State, r: State, id: nat)
    requires id in s.txs && id in t.txs && SameOutside(s, t, id) && Reports(t, r, id)
    ensures Reports(s, r, id)
  {
  }

  /** Whoever holds the lock, or finds it free, and has only existing areas to enter, commits by steps of
      its own, and its commit is the whole transition. */
  lemma {:induction false} HolderCommits(c: Config, s: State, id: nat) returns (steps: seq<Step>)
    requires c.useLock && Serialized(c, s) && id in s.txs && !Waits(c, s, id) && ToEnter(s, id) <= s.world.live
    ensures CommitsAlone(c, s, id, steps) && Reports(s, After(c, s, steps), id)
    decreases PhasesLeft(s.txs[id].phase), RowsLeft(s.txs[id].phase)
  {
    var step := HolderMoves(c, s, id);
    var t := Next(c, s, step);
    SerializedNext(c, s, step);
    if step.Commit? {
      CommitIsOneTransition(c, s, id);
      steps := [step];
      assert steps[1..] == [];
    } else {
      StatementGetsOn(c, s, step, id);
      HolderNeverWaits(c, t, id);
      var rest := HolderCommits(c, t, id);
      ReportsFromHere(s, t, After(c, t, rest), id);
      steps := [step] + rest;
      assert steps[1..] == rest;
    }
  }

  /** With an area to enter that does not exist, no run of its own steps commits. */
  lemma {:induction false} MissingNeverCommits(c: Config, s: State, id: nat, steps: seq<Step>)
    requires id in s.txs && OwnRun(c, s, id, steps) && !(ToEnter(s, id) <= s.world.live)
    ensures IsRun(c, s, steps) && id in After(c, s, steps).txs
    decreases |steps|
  {
    if steps != [] {
      StatementGetsOn(c, s, steps[0], id);
      MissingNeverCommits(c, Next(c, s, steps[0]), id, steps[1..]);
    }
  }

  /** A transaction that waits for nobody can commit by itself if and only if every area it has to enter
      exists. */
  lemma CommitsExactlyWhenAreasExist(c: Config, s: State, id: nat)
    requires c.useLock && Serialized(c, s) && id in s.txs && !Waits(c, s, id)
    ensures (exists steps :: CommitsAlone(c, s, id, steps)) <==> ToEnter(s, id) <= s.world.live
  {
    if ToEnter(s, id) <= s.world.live {
      var steps := HolderCommits(c, s, id);
    } else {
      forall steps | OwnRun(c, s, id, steps) ensures !CommitsAlone(c, s, id, steps) {
        MissingNeverCommits(c, s, id, steps);
      }
    }
  }

  /** Whatever else is going on, a report of any user and any areas is carried out, as long as no transaction
      with the same lock key is past its lock statement and every area newly entered exists. */
  lemma EveryReportCanCommit(c: Config, s: State, id: nat, user: string, current: set<AreaId>, stamp: Stamp) returns (steps: seq<Step>)
    requires c.useLock && Serialized(c, s) && id !in s.txs
    requires forall k :: k in s.txs && c.lockKey(s.txs[k].user) == c.lockKey(user) ==> s.txs[k].phase.Fresh?
    requires current - RowsOf(s.world.rows, user).presence <= s.world.live
    ensures steps != [] && steps[0] == Begin(id, user, current, stamp) && IsRun(c, s, steps)
    ensures var t := After(c, s, steps);
      && t.history == s.history + [Reported(user, current, stamp)] && t.txs == s.txs && t.world.live == s.world.live
      && t.world.rows == s.world.rows[user := Transition(RowsOf(s.world.rows, user), current * s.world.live, stamp)]
  {
    var begin := Begin(id, user, current, stamp);
    var t := Next(c, s, begin);
    SerializedNext(c, s, begin);
    var rest := HolderCommits(c, t, id);
    OwnRunIsRun(c, t, id, rest);
    steps := [begin] + rest;
    assert steps[1..] == rest && t.txs - {id} == s.txs;
  }

  // ----- rollbacks

  lemma {:induction false} StatementsStayOutside(c: Config, s: State, id: nat, steps: seq<Step>)
    requires id in s.txs && OwnRun(c, s, id, steps) && IsRun(c, s, steps) && id in After(c, s, steps).txs
    ensures SameOutside(s, After(c, s, steps), id)
    decreases |steps|
  {
    if steps != [] {
      if steps[0].Commit? {
        GoneStaysGone(c, Next(c, s, steps[0]), id, steps[1..]);
      } else {
        StatementGetsOn(c, s, steps[0], id);
        StatementsStayOutside(c, Next(c, s, steps[0]), id, steps[1..]);
      }
    }
  }

  lemma {:induction false} GoneStaysGone(c: Config, s: State, id: nat, steps: seq<Step>)
    requires id !in s.txs && OwnRun(c, s, id, steps) && IsRun(c, s, steps)
    ensures id !in After(c, s, steps).txs
  {
  }

  /** A transaction can be rolled back wherever it stands, and then it has left no trace. */
  lemma RollbackLeavesNoTrace(c: Config, s: State, begin: Step, steps: seq<Step>)
    requires begin.Begin? && Enabled(c, s, begin)
    requires var t := Next(c, s, begin);
      OwnRun(c, t, begin.id, steps) && IsRun(c, t, steps) && begin.id in After(c, t, steps).txs
    ensures var r := After(c, Next(c, s, begin), steps);
      Enabled(c, r, Abort(begin.id)) && Next(c, r, Abort(begin.id)) == s
  {
    var t := Next(c, s, begin);
    StatementsStayOutside(c, t, begin.id, steps);
    assert t.txs - {begin.id} == s.txs;
  }
}
