/** What every run leaves in the tables, also when nacked messages come back anywhere: the fold
    over the events in the order in which their reports ended. And which events never get a turn. */
module Turns {
  import opened Tables
  import opened Brokers
  import opened Pipeline
  import opened Conservation
  import opened FastPath
  import opened Dedup
  import opened Replay
  import opened AckReasons

  // ----- the fold over the turns

  /** A user's rows after the reports that ended, one transition for each turn of the user. */
  function InTurns(base: Rows, published: seq<Event>, turns: seq<Turn>, user: string): UserRows {
    if turns == [] then RowsOf(base, user) else
      var last, before := turns[|turns| - 1], InTurns(base, published, turns[..|turns| - 1], user);
      if last.n < |published| && published[last.n].user == user
      then Transition(before, last.current, published[last.n].stamp)
      else before
  }

  /** The user's events in the order of their turns; an event comes as often as it had one. */
  function EventsInTurns(published: seq<Event>, turns: seq<Turn>, user: string): seq<Event> {
    if turns == [] then [] else
      var last := turns[|turns| - 1];
      EventsInTurns(published, turns[..|turns| - 1], user)
      + if last.n < |published| && published[last.n].user == user then [published[last.n]] else []
  }

  ghost predicate TurnsKnown(published: seq<Event>, turns: seq<Turn>) {
    forall i :: 0 <= i < |turns| ==> turns[i].n < |published|
  }

  lemma {:induction false} MorePublished(base: Rows, published: seq<Event>, e: Event, turns: seq<Turn>, user: string)
    requires TurnsKnown(published, turns)
    ensures InTurns(base, published + [e], turns, user) == InTurns(base, published, turns, user)
  {
    if turns != [] {
      assert TurnsKnown(published, turns[..|turns| - 1]);
      MorePublished(base, published, e, turns[..|turns| - 1], user);
    }
  }

  lemma OneMoreTurn(base: Rows, published: seq<Event>, turns: seq<Turn>, turn: Turn, user: string)
    requires turn.n < |published|
    ensures InTurns(base, published, turns + [turn], user) ==
      if published[turn.n].user == user
      then Transition(InTurns(base, published, turns, user), turn.current, published[turn.n].stamp)
      else InTurns(base, published, turns, user)
  {
    assert (turns + [turn])[..|turns|] == turns;
  }

  // ----- what every run without deletions keeps

  ghost predicate RowsInTurns(s: State, base: Rows) {
    && TurnsKnown(s.broker.published, s.past.turns)
    && forall u :: RowsOf(s.db.rows, u) == InTurns(base, s.broker.published, s.past.turns, u)
  }

  ghost predicate InOrderOfTurns(c: Config, s: State, base: Rows) {
    Hints(c, s) && s.db.live == s.db.ever && RowsInTurns(s, base)
  }

  /** A step ends a report of message n with the areas `current`. */
  ghost predicate EndsReport(c: Config, s: State, step: Step)
    requires Enabled(c, s, step)
  {
    step.Commit? || LetsOff(c, s, step)
  }

  lemma TurnShape(c: Config, s: State, step: Step)
    requires Enabled(c, s, step)
    ensures var t := Next(c, s, step);
      if EndsReport(c, s, step)
      then t.past.turns == s.past.turns + [Turn(step.n, s.worker.pcs[step.n].current)] && t.past.applied == s.past.applied + {step.n}
      else t.past.turns == s.past.turns && t.past.applied == s.past.applied
  {
  }

  lemma QuietRows(c: Config, s: State, step: Step)
    requires Enabled(c, s, step) && !step.Commit? && !step.DeleteArea?
    ensures Next(c, s, step).db.rows == s.db.rows
  {
  }

  /** The rows of each user after a step that ends a report. */
  lemma EndedReportIsTransition(c: Config, s: State, step: Step, user: string)
    requires Hints(c, s) && s.db.live == s.db.ever && Enabled(c, s, step) && EndsReport(c, s, step)
    ensures var e := s.broker.published[step.n];
      RowsOf(Next(c, s, step).db.rows, user) ==
        if e.user == user then Transition(RowsOf(s.db.rows, user), s.worker.pcs[step.n].current, e.stamp) else RowsOf(s.db.rows, user)
  {
    var n := step.n;
    var e, current := s.broker.published[n], s.worker.pcs[n].current;
    assert PcFits(s.db, e.user, s.worker.pcs[n]);
    assert current * s.db.live == current;
    if step.Commit? {
      CommitPerformsTransition(c, s, n);
    } else {
      FastPathSkipsNothing(c, s, n, e.stamp);
      QuietRows(c, s, step);
    }
  }

  lemma TurnStep(c: Config, s: State, base: Rows, step: Step)
    requires InOrderOfTurns(c, s, base) && Enabled(c, s, step) && EndsReport(c, s, step)
    ensures RowsInTurns(Next(c, s, step), base)
  {
    var t, turn := Next(c, s, step), Turn(step.n, s.worker.pcs[step.n].current);
    TurnShape(c, s, step);
    TaskShape(c, s, step);
    forall u ensures RowsOf(t.db.rows, u) == InTurns(base, t.broker.published, t.past.turns, u) {
      EndedReportIsTransition(c, s, step, u);
      OneMoreTurn(base, s.broker.published, s.past.turns, turn, u);
    }
  }

  lemma OtherStep(c: Config, s: State, base: Rows, step: Step)
    requires InOrderOfTurns(c, s, base) && Enabled(c, s, step) && !EndsReport(c, s, step) && !step.DeleteArea?
    ensures RowsInTurns(Next(c, s, step), base)
  {
    var t := Next(c, s, step);
    TurnShape(c, s, step);
    QuietRows(c, s, step);
    PublishedAfter(c, s, step);
    if step.Publish? {
      forall u ensures RowsOf(t.db.rows, u) == InTurns(base, t.broker.published, t.past.turns, u) {
        MorePublished(base, s.broker.published, step.e, s.past.turns, u);
      }
    } else {
      assert t.broker.published == s.broker.published;
    }
  }

  lemma TurnsNext(c: Config, s: State, base: Rows, step: Step)
    requires InOrderOfTurns(c, s, base) && Enabled(c, s, step) && !step.DeleteArea?
    ensures InOrderOfTurns(c, Next(c, s, step), base)
  {
    HintsNext(c, s, step);
    if EndsReport(c, s, step) {
      TurnStep(c, s, base, step);
    } else {
      OtherStep(c, s, base, step);
    }
  }

  predicate KeepsAreas(steps: seq<Step>) {
    steps == [] || (!steps[0].DeleteArea? && KeepsAreas(steps[1..]))
  }

  predicate KeepsSnapshot(steps: seq<Step>) {
    steps == [] || (!steps[0].Rebuild? && KeepsSnapshot(steps[1..]))
  }

  lemma {:induction false} RunKeepsTurns(c: Config, s: State, base: Rows, steps: seq<Step>)
    requires InOrderOfTurns(c, s, base) && IsRun(c, s, steps) && KeepsAreas(steps)
    ensures InOrderOfTurns(c, After(c, s, steps), base)
    decreases |steps|
  {
    if steps != [] {
      TurnsNext(c, s, base, steps[0]);
      RunKeepsTurns(c, Next(c, s, steps[0]), base, steps[1..]);
    }
  }

  lemma InitTurns(c: Config, s: State)
    requires Init(s) && s.db.live == s.db.ever
    ensures InOrderOfTurns(c, s, s.db.rows)
  {
    InitHints(c, s);
  }

  // ----- with one snapshot, the turns are events

  /** Every task that has looked its areas up, and every turn, has them from the snapshot. */
  ghost predicate FromSnapshot(s: State) {
    && Shaped(s) && TurnsKnown(s.broker.published, s.past.turns)
    && (forall n :: 0 <= n < |s.worker.pcs| && KnowsCurrent(s.worker.pcs[n])
          ==> s.worker.pcs[n].current == s.worker.snapshot(s.broker.published[n].at))
    && (forall i :: 0 <= i < |s.past.turns| ==> s.past.turns[i].current == s.worker.snapshot(s.broker.published[s.past.turns[i].n].at))
  }

  lemma CurrentOfTask(c: Config, s: State, step: Step)
    requires step.IsTask() && Enabled(c, s, step)
    requires var at, pc := s.broker.published[step.n].at, s.worker.pcs[step.n];
      KnowsCurrent(pc) ==> pc.current == s.worker.snapshot(at)
    ensures var t, at := Next(c, s, step), s.broker.published[step.n].at;
      && t.worker.snapshot == s.worker.snapshot
      && (!Acks(c, s, step) && KnowsCurrent(t.worker.pcs[step.n]) ==> t.worker.pcs[step.n].current == s.worker.snapshot(at))
      && (EndsReport(c, s, step) ==> s.worker.pcs[step.n].current == s.worker.snapshot(at))
  {
  }

  lemma SnapshotTask(c: Config, s: State, step: Step)
    requires FromSnapshot(s) && step.IsTask() && Enabled(c, s, step)
    ensures FromSnapshot(Next(c, s, step))
  {
    CurrentOfTask(c, s, step);
    var t := Next(c, s, step);
    TaskShape(c, s, step);
    TurnShape(c, s, step);
    RemoveFacts(s.broker.unacked, step.n);
  }

  lemma SnapshotElsewhere(c: Config, s: State, step: Step)
    requires FromSnapshot(s) && !step.IsTask() && Enabled(c, s, step) && !step.Rebuild?
    requires Shaped(Next(c, s, step))
    ensures FromSnapshot(Next(c, s, step))
  {
    PublishedAfter(c, s, step);
    TurnShape(c, s, step);
  }

  lemma {:induction false} RunKeepsSnapshot(c: Config, s: State, steps: seq<Step>)
    requires Sound(c, s) && FromSnapshot(s) && IsRun(c, s, steps) && KeepsSnapshot(steps)
    ensures FromSnapshot(After(c, s, steps)) && After(c, s, steps).worker.snapshot == s.worker.snapshot
    decreases |steps|
  {
    if steps != [] {
      SoundNext(c, s, steps[0]);
      if steps[0].IsTask() {
        SnapshotTask(c, s, steps[0]);
      } else {
        SnapshotElsewhere(c, s, steps[0]);
      }
      SameSnapshot(c, s, steps[0]);
      RunKeepsSnapshot(c, Next(c, s, steps[0]), steps[1..]);
    }
  }

  lemma SameSnapshot(c: Config, s: State, step: Step)
    requires Enabled(c, s, step) && !step.Rebuild?
    ensures Next(c, s, step).worker.snapshot == s.worker.snapshot
  {
  }

  lemma {:induction false} TurnsAreFold(base: Rows, cover: Cover, published: seq<Event>, turns: seq<Turn>, user: string)
    requires TurnsKnown(published, turns)
    requires forall i :: 0 <= i < |turns| ==> turns[i].current == cover(published[turns[i].n].at)
    ensures InTurns(base, published, turns, user) == Fold(RowsOf(base, user), cover, EventsInTurns(published, turns, user))
  {
    if turns != [] {
      var n := |turns| - 1;
      var before, last := EventsInTurns(published, turns[..n], user), published[turns[n].n];
      assert turns[n].current == cover(last.at);
      TurnsAreFold(base, cover, published, turns[..n], user);
      if last.user == user {
        assert (before + [last])[..|before|] == before;
      } else {
        assert before + [] == before;
      }
    }
  }

  /** Whatever crashes, and wherever nacked messages come back, at every moment each user's rows
      are the plain fold over the user's events in the order in which their reports ended. */
  lemma RowsFollowTheTurns(c: Config, s: State, steps: seq<Step>, user: string)
    requires Init(s) && s.db.live == s.db.ever
    requires IsRun(c, s, steps) && KeepsAreas(steps) && KeepsSnapshot(steps)
    ensures var t := After(c, s, steps);
      RowsOf(t.db.rows, user) == Fold(RowsOf(s.db.rows, user), s.worker.snapshot, EventsInTurns(t.broker.published, t.past.turns, user))
  {
    var t := After(c, s, steps);
    InitTurns(c, s);
    RunKeepsTurns(c, s, s.db.rows, steps);
    RunKeepsSnapshot(c, s, steps);
    TurnsAreFold(s.db.rows, s.worker.snapshot, t.broker.published, t.past.turns, user);
  }

  // ----- which events get no turn

  /** Step j ends a report of message n. */
  ghost predicate EndsReportAt(c: Config, s: State, steps: seq<Step>, j: nat, n: nat)
    requires IsRun(c, s, steps)
  {
    && j < |steps| && Enabled(c, StateAt(c, s, steps, j), steps[j])
    && EndsReport(c, StateAt(c, s, steps, j), steps[j]) && steps[j].n == n
  }

  ghost predicate HadTurn(c: Config, s: State, steps: seq<Step>, i: nat, n: nat)
    requires IsRun(c, s, steps)
  {
    exists j: nat :: j < i && EndsReportAt(c, s, steps, j, n)
  }

  lemma {:induction false} AppliedMeansTurn(c: Config, s: State, steps: seq<Step>, i: nat, n: nat)
    requires IsRun(c, s, steps) && i <= |steps| && s.past.applied == {}
    ensures n in StateAt(c, s, steps, i).past.applied <==> HadTurn(c, s, steps, i, n)
  {
    if i > 0 {
      AppliedMeansTurn(c, s, steps, i - 1, n);
      StepOfRun(c, s, steps, i - 1);
      TurnShape(c, StateAt(c, s, steps, i - 1), steps[i - 1]);
      assert EndsReportAt(c, s, steps, i - 1, n) ==> HadTurn(c, s, steps, i, n);
    }
  }

  lemma {:induction false} AckedAt(c: Config, s: State, steps: seq<Step>, i: nat, j: nat, n: nat)
    requires Sound(c, s) && IsRun(c, s, steps) && i <= j <= |steps| && n in StateAt(c, s, steps, i).broker.acked
    ensures Sound(c, StateAt(c, s, steps, j)) && n in StateAt(c, s, steps, j).broker.acked
    decreases j - i
  {
    SoundAt(c, s, steps, j);
    if i < j {
      AckedAt(c, s, steps, i, j - 1, n);
      StepOfRun(c, s, steps, j - 1);
      AckStays(c, StateAt(c, s, steps, j - 1), steps[j - 1], n);
    }
  }

  lemma {:induction false} SoundAt(c: Config, s: State, steps: seq<Step>, i: nat)
    requires Sound(c, s) && IsRun(c, s, steps) && i <= |steps|
    ensures Sound(c, StateAt(c, s, steps, i))
    decreases |steps|
  {
    if i > 0 {
      SoundNext(c, s, steps[0]);
      SoundAt(c, Next(c, s, steps[0]), steps[1..], i - 1);
    }
  }

  lemma NotOutAfterAck(c: Config, s: State, steps: seq<Step>, i: nat, j: nat, n: nat)
    requires Sound(c, s) && IsRun(c, s, steps) && AcksAt(c, s, steps, i, n) && i < j <= |steps|
    ensures n !in StateAt(c, s, steps, j).broker.unacked
  {
    AckedAt(c, s, steps, i + 1, j, n);
    OneHome(StateAt(c, s, steps, j).broker, n);
  }

  /** After its ack a message has no further turn. */
  lemma NoTurnAfterAck(c: Config, s: State, steps: seq<Step>, i: nat, n: nat)
    requires Sound(c, s) && s.past.applied == {} && IsRun(c, s, steps) && AcksAt(c, s, steps, i, n)
    ensures n in After(c, s, steps).past.applied <==> HadTurn(c, s, steps, i, n)
  {
    StepOfRun(c, s, steps, i);
    AppliedMeansTurn(c, s, steps, |steps|, n);
    forall j: nat | EndsReportAt(c, s, steps, j, n) ensures j < i {
      if j == i {
        EndingIsNoAck(c, StateAt(c, s, steps, i), steps[i]);
      } else if j > i {
        NotOutAfterAck(c, s, steps, i, j, n);
      }
    }
  }

  lemma EndingIsNoAck(c: Config, s: State, step: Step)
    requires Enabled(c, s, step) && EndsReport(c, s, step)
    ensures Next(c, s, step).broker == s.broker
  {
  }

  // ----- what the dedup gate decides

  /** A success of the same device with this number or a higher one, since the worker started. */
  ghost predicate SucceededBefore(c: Config, s: State, steps: seq<Step>, i: nat, e: Event)
    requires IsRun(c, s, steps) && i <= |steps| && e.HasIdentity()
  {
    exists j: nat, v: nat :: j < i && v >= e.seqNo.value && StoresAt(c, s, steps, j, e.Key(), v) && steps[j].Finish?
      && NoCrashBetween(steps, j, i)
  }

  ghost predicate Overtaken(c: Config, s: State, steps: seq<Step>, i: nat, e: Event)
    requires IsRun(c, s, steps) && i <= |steps|
  {
    e.HasIdentity() && (e.seqNo.value <= c.SeedOf(e) || SucceededBefore(c, s, steps, i, e))
  }

  lemma {:induction false} DedupAt(c: Config, s: State, steps: seq<Step>, i: nat)
    requires DedupFits(c, s) && IsRun(c, s, steps) && DistinctRun(c, s, steps) && i <= |steps|
    ensures DedupFits(c, StateAt(c, s, steps, i))
    decreases |steps|
  {
    if i > 0 {
      DistinctStep(c, s, steps);
      DedupAt(c, Next(c, s, steps[0]), steps[1..], i - 1);
    }
  }

  lemma {:induction false} PublishedGrows(c: Config, s: State, steps: seq<Step>, j: nat, i: nat)
    requires IsRun(c, s, steps) && j <= i <= |steps|
    ensures StateAt(c, s, steps, j).broker.published <= StateAt(c, s, steps, i).broker.published
    decreases i - j
  {
    if j < i {
      PublishedGrows(c, s, steps, j, i - 1);
      StepOfRun(c, s, steps, i - 1);
      PublishedAfter(c, StateAt(c, s, steps, i - 1), steps[i - 1]);
    }
  }

  lemma EntryKept(c: Config, s: State, steps: seq<Step>, i: nat, key: string, v: nat)
    requires Init(s) && IsRun(c, s, steps) && DistinctRun(c, s, steps) && i < |steps| && !steps[i].Crash?
    requires AtLeast(StateAt(c, s, steps, i).worker.lastSeq, key, v) || (StoresAt(c, s, steps, i, key, v) && steps[i].Finish?)
    ensures AtLeast(StateAt(c, s, steps, i + 1).worker.lastSeq, key, v)
  {
    var before := StateAt(c, s, steps, i);
    InitDedup(c, s);
    DedupAt(c, s, steps, i);
    StepOfRun(c, s, steps, i);
    if AtLeast(before.worker.lastSeq, key, v) {
      LastSeqNeverDecreases(c, before, steps[i], key);
    } else {
      FinishStores(c, before, steps[i], key, v);
    }
  }

  /** A number that a success has stored is there until the next crash. */
  lemma {:induction false} EntryLasts(c: Config, s: State, steps: seq<Step>, j: nat, i: nat, key: string, v: nat)
    requires Init(s) && IsRun(c, s, steps) && DistinctRun(c, s, steps) && j < i <= |steps| && NoCrashBetween(steps, j, i)
    requires StoresAt(c, s, steps, j, key, v) && steps[j].Finish?
    ensures AtLeast(StateAt(c, s, steps, i).worker.lastSeq, key, v)
    decreases i - j
  {
    if j + 1 < i {
      EntryLasts(c, s, steps, j, i - 1, key, v);
    }
    EntryKept(c, s, steps, i - 1, key, v);
  }

  lemma FinishStores(c: Config, s: State, step: Step, key: string, v: nat)
    requires DedupFits(c, s) && Stores(c, s, step, key, v) && step.Finish?
    ensures AtLeast(Next(c, s, step).worker.lastSeq, key, v)
  {
    assert GateFits(s.broker.published[step.n], s.worker.lastSeq, s.worker.pcs[step.n]);
  }

  /** The gate's own condition in the state. */
  predicate Covered(c: Config, lastSeq: LastSeq, e: Event) {
    e.HasIdentity() && (e.seqNo.value <= c.SeedOf(e) || (e.Key() in lastSeq && e.seqNo.value <= lastSeq[e.Key()]))
  }

  lemma GateIsCovered(c: Config, s: State, step: Step)
    requires DedupFits(c, s) && (step.Gate? || step.Seed?) && Enabled(c, s, step)
    requires step.Gate? && s.broker.published[step.n].HasIdentity() ==> s.broker.published[step.n].Key() in s.worker.lastSeq
    ensures Acks(c, s, step) <==> Covered(c, s.worker.lastSeq, s.broker.published[step.n])
  {
    var e := s.broker.published[step.n];
    assert GateFits(e, s.worker.lastSeq, s.worker.pcs[step.n]);
    if e.HasIdentity() {
      StoredIsHighestSuccess(c, s, step.n);
    }
  }

  lemma SameKeySameSeed(c: Config, published: seq<Event>, m: nat, e: Event)
    requires KeysDistinct(published) && m < |published| && e in published
    requires e.HasIdentity() && published[m].HasIdentity() && published[m].Key() == e.Key()
    ensures c.SeedOf(published[m]) == c.SeedOf(e)
  {
    var n :| 0 <= n < |published| && published[n] == e;
  }

  /** The table's answer for a key is the seed of every published event with that key. */
  lemma SeededIsSeed(c: Config, s: State, steps: seq<Step>, j: nat, i: nat, e: Event, v: nat)
    requires Init(s) && IsRun(c, s, steps) && DistinctRun(c, s, steps) && j <= i <= |steps|
    requires e.HasIdentity() && e in StateAt(c, s, steps, i).broker.published
    requires StoresAt(c, s, steps, j, e.Key(), v) && steps[j].Seed?
    ensures v == c.SeedOf(e)
  {
    InitDedup(c, s);
    DedupAt(c, s, steps, i);
    PublishedGrows(c, s, steps, j, i);
    SameKeySameSeed(c, StateAt(c, s, steps, i).broker.published, steps[j].n, e);
  }

  lemma CoveredIsOvertaken(c: Config, s: State, steps: seq<Step>, i: nat, e: Event)
    requires Init(s) && IsRun(c, s, steps) && DistinctRun(c, s, steps) && i <= |steps|
    requires e in StateAt(c, s, steps, i).broker.published && Covered(c, StateAt(c, s, steps, i).worker.lastSeq, e)
    ensures Overtaken(c, s, steps, i, e)
  {
    if e.seqNo.value > c.SeedOf(e) {
      var j := EntryHasItsStep(c, s, steps, i, e.Key());
      if steps[j].Seed? {
        SeededIsSeed(c, s, steps, j, i, e, StateAt(c, s, steps, i).worker.lastSeq[e.Key()]);
      }
    }
  }

  lemma OvertakenIsCovered(c: Config, s: State, steps: seq<Step>, i: nat, e: Event)
    requires Init(s) && IsRun(c, s, steps) && DistinctRun(c, s, steps) && i <= |steps| && Overtaken(c, s, steps, i, e)
    ensures Covered(c, StateAt(c, s, steps, i).worker.lastSeq, e)
  {
    if e.seqNo.value > c.SeedOf(e) {
      var j: nat, v: nat :| j < i && v >= e.seqNo.value && StoresAt(c, s, steps, j, e.Key(), v) && steps[j].Finish?
        && NoCrashBetween(steps, j, i);
      EntryLasts(c, s, steps, j, i, e.Key(), v);
    }
  }

  /** The gate acks exactly the overtaken events: those at or below the seed of their device, or
      at or below a number with which the device has succeeded since the worker started. */
  lemma GateAcksTheOvertaken(c: Config, s: State, steps: seq<Step>, i: nat)
    requires Init(s) && IsRun(c, s, steps) && DistinctRun(c, s, steps) && i < |steps| && (steps[i].Gate? || steps[i].Seed?)
    requires Enabled(c, StateAt(c, s, steps, i), steps[i])
    requires var t := StateAt(c, s, steps, i);
      steps[i].Gate? && t.broker.published[steps[i].n].HasIdentity() ==> t.broker.published[steps[i].n].Key() in t.worker.lastSeq
    ensures var t := StateAt(c, s, steps, i);
      Acks(c, t, steps[i]) <==> Overtaken(c, s, steps, i, t.broker.published[steps[i].n])
  {
    var t := StateAt(c, s, steps, i);
    var e := t.broker.published[steps[i].n];
    GateAt(c, s, steps, i);
    if Covered(c, t.worker.lastSeq, e) {
      CoveredIsOvertaken(c, s, steps, i, e);
    } else if Overtaken(c, s, steps, i, e) {
      OvertakenIsCovered(c, s, steps, i, e);
    }
  }

  lemma GateAt(c: Config, s: State, steps: seq<Step>, i: nat)
    requires Init(s) && IsRun(c, s, steps) && DistinctRun(c, s, steps) && i < |steps| && (steps[i].Gate? || steps[i].Seed?)
    requires Enabled(c, StateAt(c, s, steps, i), steps[i])
    requires var t := StateAt(c, s, steps, i);
      steps[i].Gate? && t.broker.published[steps[i].n].HasIdentity() ==> t.broker.published[steps[i].n].Key() in t.worker.lastSeq
    ensures var t := StateAt(c, s, steps, i);
      Acks(c, t, steps[i]) <==> Covered(c, t.worker.lastSeq, t.broker.published[steps[i].n])
  {
    InitDedup(c, s);
    DedupAt(c, s, steps, i);
    GateIsCovered(c, StateAt(c, s, steps, i), steps[i]);
  }

  // ----- lost events

  /** Message n was acked at the gate, overtaken, without ever having had a turn. */
  ghost predicate LostAt(c: Config, s: State, steps: seq<Step>, i: nat, n: nat)
    requires IsRun(c, s, steps)
  {
    && AcksAt(c, s, steps, i, n) && (steps[i].Gate? || steps[i].Seed?)
    && n < |StateAt(c, s, steps, i).broker.published|
    && Overtaken(c, s, steps, i, StateAt(c, s, steps, i).broker.published[n])
    && !HadTurn(c, s, steps, i, n)
  }

  lemma AckAtGateIsOvertaken(c: Config, s: State, steps: seq<Step>, i: nat, n: nat)
    requires Init(s) && IsRun(c, s, steps) && DistinctRun(c, s, steps) && AcksAt(c, s, steps, i, n) && (steps[i].Gate? || steps[i].Seed?)
    ensures n < |StateAt(c, s, steps, i).broker.published|
    ensures Overtaken(c, s, steps, i, StateAt(c, s, steps, i).broker.published[n])
  {
    StepOfRun(c, s, steps, i);
    TaskShape(c, StateAt(c, s, steps, i), steps[i]);
    GateAcksTheOvertaken(c, s, steps, i);
  }

  /** Message n was acked because its commit would have entered an area that no longer exists, and
      none of its reports had ended before. */
  ghost predicate DroppedAt(c: Config, s: State, steps: seq<Step>, i: nat, n: nat)
    requires IsRun(c, s, steps)
  {
    && AcksAt(c, s, steps, i, n) && steps[i].FkDrop? && !HadTurn(c, s, steps, i, n)
    && var t := StateAt(c, s, steps, i);
       && n < |t.worker.pcs| && t.worker.pcs[n].InTx?
       && exists a :: a in t.worker.pcs[n].current - t.worker.pcs[n].previous && a !in t.db.live
  }

  /** An ack that is neither the gate's nor a drop comes from a report that ended. */
  lemma AckOfReportHadTurn(c: Config, s: State, steps: seq<Step>, i: nat, n: nat)
    requires Init(s) && IsRun(c, s, steps)
    requires AcksAt(c, s, steps, i, n) && !steps[i].Gate? && !steps[i].Seed? && !steps[i].FkDrop?
    ensures HadTurn(c, s, steps, i, n)
  {
    var t := StateAt(c, s, steps, i);
    StepOfRun(c, s, steps, i);
    InitReasons(c, s);
    ReasonsAt(c, s, steps, i);
    TaskShape(c, t, steps[i]);
    assert PcReason(t.past, n, t.worker.pcs[n]);
    AppliedMeansTurn(c, s, steps, i, n);
  }

  lemma DropMissesAnArea(c: Config, s: State, steps: seq<Step>, i: nat, n: nat)
    requires IsRun(c, s, steps) && AcksAt(c, s, steps, i, n) && steps[i].FkDrop?
    ensures var t := StateAt(c, s, steps, i);
      && n < |t.worker.pcs| && t.worker.pcs[n].InTx?
      && exists a :: a in t.worker.pcs[n].current - t.worker.pcs[n].previous && a !in t.db.live
  {
    StepOfRun(c, s, steps, i);
    var t := StateAt(c, s, steps, i);
    assert !EntersOnlyLive(t.worker.pcs[n], t.db.live);
  }

  lemma LostHere(c: Config, s: State, steps: seq<Step>, i: nat, n: nat)
    requires Init(s) && IsRun(c, s, steps) && DistinctRun(c, s, steps)
    requires AcksAt(c, s, steps, i, n)
    ensures n !in After(c, s, steps).past.applied <==> LostAt(c, s, steps, i, n) || DroppedAt(c, s, steps, i, n)
  {
    InitReasons(c, s);
    NoTurnAfterAck(c, s, steps, i, n);
    if steps[i].Gate? || steps[i].Seed? {
      AckAtGateIsOvertaken(c, s, steps, i, n);
    } else if steps[i].FkDrop? {
      DropMissesAnArea(c, s, steps, i, n);
    } else {
      AckOfReportHadTurn(c, s, steps, i, n);
    }
  }

  /** Wherever nacked messages come back, and whatever areas come and go: an acked event never took
      effect if and only if it was overtaken, that is, its number was at or below the seed of its
      device, or a success of the device with that number or a higher one came first, or it was
      dropped because an area it would have entered had been deleted, and it had had no turn before. */
  lemma LostExactlyWhenOvertakenOrDropped(c: Config, s: State, steps: seq<Step>, n: nat)
    requires Init(s) && IsRun(c, s, steps) && DistinctRun(c, s, steps)
    requires n in After(c, s, steps).broker.acked
    ensures n !in After(c, s, steps).past.applied
      <==> exists i: nat :: LostAt(c, s, steps, i, n) || DroppedAt(c, s, steps, i, n)
  {
    InitReasons(c, s);
    var i := AckHasItsStep(c, s, steps, n);
    LostHere(c, s, steps, i, n);
    if k: nat :| LostAt(c, s, steps, k, n) || DroppedAt(c, s, steps, k, n) {
      LostHere(c, s, steps, k, n);
    }
  }

  /** Every event of a user whose messages are all acked took effect if and only if none of them
      was lost to a later number or dropped for a deleted area. */
  lemma CompleteExactlyWhenNoneIsLost(c: Config, s: State, steps: seq<Step>, user: string)
    requires Init(s) && IsRun(c, s, steps) && DistinctRun(c, s, steps)
    requires var b := After(c, s, steps).broker;
      forall n: nat :: (n < |b.published| && b.published[n].user == user) ==> n in b.acked
    ensures var b, done := After(c, s, steps).broker, After(c, s, steps).past.applied;
      (forall n: nat :: n < |b.published| && b.published[n].user == user ==> n in done)
      <==> forall n: nat, i: nat :: n < |b.published| && b.published[n].user == user
             ==> !LostAt(c, s, steps, i, n) && !DroppedAt(c, s, steps, i, n)
  {
    forall n: nat | n in After(c, s, steps).broker.acked
      ensures n !in After(c, s, steps).past.applied
        <==> exists i: nat :: LostAt(c, s, steps, i, n) || DroppedAt(c, s, steps, i, n)
    {
      LostExactlyWhenOvertakenOrDropped(c, s, steps, n);
    }
  }

  lemma {:induction false} LiveAt(c: Config, s: State, steps: seq<Step>, i: nat)
    requires s.db.live == s.db.ever && IsRun(c, s, steps) && KeepsAreas(steps) && i <= |steps|
    ensures StateAt(c, s, steps, i).db.live == StateAt(c, s, steps, i).db.ever
    decreases |steps|
  {
    if i > 0 {
      LiveAt(c, Next(c, s, steps[0]), steps[1..], i - 1);
    }
  }

  lemma OpenTaskKnowsLive(c: Config, s: State, steps: seq<Step>, i: nat, n: nat)
    requires Init(s) && s.db.live == s.db.ever && IsRun(c, s, steps) && KeepsAreas(steps) && i <= |steps|
    requires var t := StateAt(c, s, steps, i);
      n in t.broker.unacked && n < |t.worker.pcs| && t.worker.pcs[n].InTx?
    ensures StateAt(c, s, steps, i).worker.pcs[n].current <= StateAt(c, s, steps, i).db.live
  {
    var t := StateAt(c, s, steps, i);
    InitHints(c, s);
    HintsAt(c, s, steps, i);
    LiveAt(c, s, steps, i);
    assert PcFits(t.db, t.broker.published[n].user, t.worker.pcs[n]);
  }

  /** While no area is deleted nothing is dropped, so only the gate loses events. */
  lemma DropsNeedDeletions(c: Config, s: State, steps: seq<Step>, i: nat, n: nat)
    requires Init(s) && s.db.live == s.db.ever && IsRun(c, s, steps) && KeepsAreas(steps)
    ensures !DroppedAt(c, s, steps, i, n)
  {
    if AcksAt(c, s, steps, i, n) && n < |StateAt(c, s, steps, i).worker.pcs| && StateAt(c, s, steps, i).worker.pcs[n].InTx? {
      OpenTaskKnowsLive(c, s, steps, i, n);
    }
  }
}
