/** Runs of the machine with two messages, step by step: a nacked event that a later one overtakes
    is lost with a number, and late without one. */
module Scenarios {
  import opened Tables
  import opened Brokers
  import opened Pipeline
  import Replay

  ghost predicate Leads(c: Config, s: State, steps: seq<Step>, t: State) {
    IsRun(c, s, steps) && After(c, s, steps) == t
  }

  lemma OneMore(c: Config, s: State, steps: seq<Step>, t: State, step: Step, u: State)
    requires Leads(c, s, steps, t) && Enabled(c, t, step) && Next(c, t, step) == u
    ensures Leads(c, s, steps + [step], u)
  {
    Extend(c, s, steps, step);
  }

  /** What stays the same in these runs. */
  datatype World = World(e0: Event, e1: Event, db: Db, snapshot: Point -> set<AreaId>)

  datatype Queues = Queues(queue: seq<nat>, unacked: seq<nat>, acked: map<nat, Reason>, comebacks: seq<nat>, deliveries: seq<nat>)

  datatype Memory = Memory(pc0: Pc, pc1: Pc, lastSeq: LastSeq, presence: map<string, set<AreaId>>)

  function Both(w: World, q: Queues, m: Memory, past: Past): State {
    State(Broker([w.e0, w.e1], q.queue, q.unacked, q.acked, {}, q.comebacks, q.deliveries),
          Worker([m.pc0, m.pc1], m.lastSeq, m.presence, w.snapshot), w.db, past)
  }

  const NOTHING := Past({}, [], {}, map[])

  /** One report has ended, with no areas. */
  function OneTurn(n: nat): Past { Past({n}, [Turn(n, {})], {}, map[]) }

  function Empty(w: World): State {
    State(Broker([], [], [], map[], {}, [], []), Worker([], map[], map[], w.snapshot), w.db, NOTHING)
  }

  function BothOut(): Queues { Queues([], [0, 1], map[], [0, 0], [1, 1]) }

  function BothQueued(): Queues { Queues([0, 1], [], map[], [0, 0], [0, 0]) }

  const UNSTARTED := Memory(Waiting, Waiting, map[], map[])

  lemma FirstPublished(c: Config, w: World)
    ensures Next(c, Empty(w), Publish(w.e0)).worker.pcs == [Waiting]
    ensures Next(c, Empty(w), Publish(w.e0)).broker == Broker([w.e0], [0], [], map[], {}, [0], [0])
  {
  }

  lemma PublishBoth(c: Config, w: World) returns (steps: seq<Step>)
    ensures Leads(c, Empty(w), steps, Both(w, BothQueued(), UNSTARTED, NOTHING))
  {
    var s0, s1, s2 := Empty(w), Next(c, Empty(w), Publish(w.e0)), Both(w, BothQueued(), UNSTARTED, NOTHING);
    steps := [];
    OneMore(c, s0, steps, s0, Publish(w.e0), s1);
    steps := steps + [Publish(w.e0)];
    FirstPublished(c, w);
    OneMore(c, s0, steps, s1, Publish(w.e1), s2);
    steps := steps + [Publish(w.e1)];
  }

  lemma FirstDelivered(c: Config, w: World, s: State, before: seq<Step>) returns (steps: seq<Step>)
    requires w.e0.v == SCHEMA_VERSION && Leads(c, s, before, Both(w, BothQueued(), UNSTARTED, NOTHING))
    ensures Leads(c, s, steps, Both(w, Queues([1], [0], map[], [0, 0], [1, 0]), UNSTARTED, NOTHING))
  {
    OneMore(c, s, before, Both(w, BothQueued(), UNSTARTED, NOTHING), Deliver(0),
            Both(w, Queues([1], [0], map[], [0, 0], [1, 0]), UNSTARTED, NOTHING));
    steps := before + [Deliver(0)];
  }

  lemma SecondDelivered(c: Config, w: World, s: State, before: seq<Step>) returns (steps: seq<Step>)
    requires w.e1.v == SCHEMA_VERSION && Leads(c, s, before, Both(w, Queues([1], [0], map[], [0, 0], [1, 0]), UNSTARTED, NOTHING))
    ensures Leads(c, s, steps, Both(w, BothOut(), UNSTARTED, NOTHING))
  {
    OneMore(c, s, before, Both(w, Queues([1], [0], map[], [0, 0], [1, 0]), UNSTARTED, NOTHING), Deliver(0),
            Both(w, BothOut(), UNSTARTED, NOTHING));
    steps := before + [Deliver(0)];
  }

  /** Two events of known version are published and delivered. */
  lemma PublishAndDeliver(c: Config, w: World) returns (steps: seq<Step>)
    requires w.e0.v == w.e1.v == SCHEMA_VERSION
    ensures Leads(c, Empty(w), steps, Both(w, BothOut(), UNSTARTED, NOTHING))
  {
    steps := PublishBoth(c, w);
    steps := FirstDelivered(c, w, Empty(w), steps);
    steps := SecondDelivered(c, w, Empty(w), steps);
  }

  // ----- an event that a later one overtakes

  /** One device: number 1 from inside area 1, number 2 from outside. */
  ghost predicate SameDevice(c: Config, w: World) {
    && w.e0.v == w.e1.v == SCHEMA_VERSION && w.e0.HasIdentity() && w.e1.HasIdentity()
    && w.e0.PassesAccuracyGate() && w.e1.PassesAccuracyGate()
    && w.e0.user == w.e1.user && w.e0.device == w.e1.device && w.e0.seqNo == Some(1) && w.e1.seqNo == Some(2)
    && w.snapshot(w.e0.at) == {1} && w.snapshot(w.e1.at) == {}
    && RowsOf(w.db.rows, w.e0.user) == NoRows
    && c.SeedOf(w.e0) == 0 && c.deliveryLimit > 0
  }

  function AfterNack(): Queues { Queues([0], [1], map[], [1, 0], [1, 1]) }

  /** An await of the first task rejects; its message goes to the front. */
  lemma FirstFails(c: Config, w: World, m: Memory, past: Past, s: State, before: seq<Step>) returns (steps: seq<Step>)
    requires c.deliveryLimit > 0 && CanFail(m.pc0) && Leads(c, s, before, Both(w, BothOut(), m, past))
    ensures Leads(c, s, steps, Both(w, AfterNack(), m, past))
  {
    OneMore(c, s, before, Both(w, BothOut(), m, past), Fail(0, 0), Both(w, AfterNack(), m, past));
    steps := before + [Fail(0, 0)];
  }

  lemma FirstAwaitsSeed(c: Config, w: World, s: State, before: seq<Step>) returns (steps: seq<Step>)
    requires w.e0.HasIdentity() && Leads(c, s, before, Both(w, BothOut(), UNSTARTED, NOTHING))
    ensures Leads(c, s, steps, Both(w, BothOut(), Memory(Seeding, Waiting, map[], map[]), NOTHING))
  {
    var q := BothOut();
    var s0 := Both(w, q, UNSTARTED, NOTHING);
    var s1 := Both(w, q, Memory(Started, Waiting, map[], map[]), NOTHING);
    var s2 := Both(w, q, Memory(Seeding, Waiting, map[], map[]), NOTHING);
    steps := before;
    OneMore(c, s, steps, s0, Start(0), s1);
    steps := steps + [Start(0)];
    OneMore(c, s, steps, s1, Gate(0), s2);
    steps := steps + [Gate(0)];
  }

  lemma SecondSeeds(c: Config, w: World, s: State, before: seq<Step>) returns (steps: seq<Step>)
    requires SameDevice(c, w) && Leads(c, s, before, Both(w, AfterNack(), Memory(Seeding, Waiting, map[], map[]), NOTHING))
    ensures Leads(c, s, steps, Both(w, AfterNack(), Memory(Seeding, Seeding, map[], map[]), NOTHING))
  {
    var q := AfterNack();
    var s0 := Both(w, q, Memory(Seeding, Waiting, map[], map[]), NOTHING);
    var s1 := Both(w, q, Memory(Seeding, Started, map[], map[]), NOTHING);
    var s2 := Both(w, q, Memory(Seeding, Seeding, map[], map[]), NOTHING);
    steps := before;
    OneMore(c, s, steps, s0, Start(1), s1);
    steps := steps + [Start(1)];
    OneMore(c, s, steps, s1, Gate(1), s2);
    steps := steps + [Gate(1)];
  }

  lemma SecondLooksUp(c: Config, w: World, s: State, before: seq<Step>) returns (steps: seq<Step>)
    requires SameDevice(c, w) && Leads(c, s, before, Both(w, AfterNack(), Memory(Seeding, Seeding, map[], map[]), NOTHING))
    ensures Leads(c, s, steps, Both(w, AfterNack(), Memory(Seeding, Hinting({}), map[w.e1.Key() := 0], map[]), NOTHING))
  {
    var q := AfterNack();
    var s2 := Both(w, q, Memory(Seeding, Seeding, map[], map[]), NOTHING);
    var s3 := Both(w, q, Memory(Seeding, Looking, map[w.e1.Key() := 0], map[]), NOTHING);
    var s4 := Both(w, q, Memory(Seeding, Hinting({}), map[w.e1.Key() := 0], map[]), NOTHING);
    steps := before;
    OneMore(c, s, steps, s2, Seed(1), s3);
    steps := steps + [Seed(1)];
    OneMore(c, s, steps, s3, Lookup(1), s4);
    steps := steps + [Lookup(1)];
  }

  function SecondDone(): Queues { Queues([0], [], map[1 := NoChange], [1, 0], [1, 1]) }

  lemma SecondCompares(c: Config, w: World, s: State, before: seq<Step>) returns (steps: seq<Step>)
    requires SameDevice(c, w)
    requires Leads(c, s, before, Both(w, AfterNack(), Memory(Seeding, Hinting({}), map[w.e1.Key() := 0], map[]), NOTHING))
    ensures Leads(c, s, steps, Both(w, AfterNack(),
      Memory(Seeding, Finishing(NoChange), map[w.e1.Key() := 0], map[w.e1.user := {}]), OneTurn(1)))
  {
    var q, k, u := AfterNack(), w.e1.Key(), w.e1.user;
    var s0 := Both(w, q, Memory(Seeding, Hinting({}), map[k := 0], map[]), NOTHING);
    var s1 := Both(w, q, Memory(Seeding, Reading({}), map[k := 0], map[]), NOTHING);
    var s2 := Both(w, q, Memory(Seeding, HaveRead({}, {}), map[k := 0], map[]), NOTHING);
    var s3 := Both(w, q, Memory(Seeding, Finishing(NoChange), map[k := 0], map[u := {}]), OneTurn(1));
    steps := before;
    OneMore(c, s, steps, s0, Hint(1), s1);
    steps := steps + [Hint(1)];
    OneMore(c, s, steps, s1, ReadHint(1), s2);
    steps := steps + [ReadHint(1)];
    OneMore(c, s, steps, s2, KeepHint(1), s3);
    steps := steps + [KeepHint(1)];
  }

  lemma SecondFinishes(c: Config, w: World, s: State, before: seq<Step>) returns (steps: seq<Step>)
    requires SameDevice(c, w)
    requires Leads(c, s, before, Both(w, AfterNack(),
      Memory(Seeding, Finishing(NoChange), map[w.e1.Key() := 0], map[w.e1.user := {}]), OneTurn(1)))
    ensures Leads(c, s, steps, Both(w, SecondDone(),
      Memory(Seeding, Finishing(NoChange), map[w.e1.Key() := 2], map[w.e1.user := {}]), WithSuccess(OneTurn(1), w.e1)))
  {
    var k, u := w.e1.Key(), w.e1.user;
    var s0 := Both(w, AfterNack(), Memory(Seeding, Finishing(NoChange), map[k := 0], map[u := {}]), OneTurn(1));
    var s1 := Both(w, SecondDone(), Memory(Seeding, Finishing(NoChange), map[k := 2], map[u := {}]), WithSuccess(OneTurn(1), w.e1));
    assert map[k := 0][k := 2] == map[k := 2];
    OneMore(c, s, before, s0, Finish(1), s1);
    steps := before + [Finish(1)];
  }

  function AllAcked(): Queues { Queues([], [], map[1 := NoChange, 0 := Duplicate], [1, 0], [2, 1]) }

  function FirstAgain(): Queues { Queues([], [0], map[1 := NoChange], [1, 0], [2, 1]) }

  lemma FirstRedelivered(c: Config, w: World, m: Memory, past: Past, s: State, before: seq<Step>) returns (steps: seq<Step>)
    requires w.e0.v == SCHEMA_VERSION && Leads(c, s, before, Both(w, SecondDone(), m, past))
    ensures Leads(c, s, steps, Both(w, FirstAgain(), m.(pc0 := Waiting), past))
  {
    OneMore(c, s, before, Both(w, SecondDone(), m, past), Deliver(0), Both(w, FirstAgain(), m.(pc0 := Waiting), past));
    steps := before + [Deliver(0)];
  }

  lemma FirstComesBack(c: Config, w: World, m: Memory, past: Past, s: State, before: seq<Step>) returns (steps: seq<Step>)
    requires w.e0.v == SCHEMA_VERSION && Leads(c, s, before, Both(w, SecondDone(), m, past))
    ensures Leads(c, s, steps, Both(w, FirstAgain(), m.(pc0 := Started), past))
  {
    steps := FirstRedelivered(c, w, m, past, s, before);
    OneMore(c, s, steps, Both(w, FirstAgain(), m.(pc0 := Waiting), past), Start(0), Both(w, FirstAgain(), m.(pc0 := Started), past));
    steps := steps + [Start(0)];
  }

  lemma FirstIsDuplicate(c: Config, w: World, past: Past, s: State, before: seq<Step>) returns (steps: seq<Step>)
    requires SameDevice(c, w)
    requires Leads(c, s, before, Both(w, FirstAgain(),
      Memory(Started, Finishing(NoChange), map[w.e1.Key() := 2], map[w.e1.user := {}]), past))
    ensures Leads(c, s, steps, Both(w, AllAcked(),
      Memory(Started, Finishing(NoChange), map[w.e1.Key() := 2], map[w.e1.user := {}]), past))
  {
    var m := Memory(Started, Finishing(NoChange), map[w.e1.Key() := 2], map[w.e1.user := {}]);
    OneMore(c, s, before, Both(w, FirstAgain(), m, past), Gate(0), Both(w, AllAcked(), m, past));
    steps := before + [Gate(0)];
  }

  const QUIET := Config(1, map[], user => 0)

  function Walk(): World {
    World(Event(SCHEMA_VERSION, "u", Some("d"), Some(1), Point(0.0, 0.0), None, Stamp(1, None)),
          Event(SCHEMA_VERSION, "u", Some("d"), Some(2), Point(1.0, 0.0), None, Stamp(2, None)),
          Db(map[], {1}, {1}), (p: Point) => if p.lng == 0.0 then {1} else {})
  }

  /** A nack can cost an event. The entry into area 1 is published first, its task is nacked, the
      later event of the device succeeds, and the entry is acked as a duplicate when it comes back:
      nothing is open any more, and area 1 was never logged. */
  lemma NackedEventIsLost() returns (steps: seq<Step>)
    ensures Init(Empty(Walk())) && IsRun(QUIET, Empty(Walk()), steps)
    ensures var w, t := Walk(), After(QUIET, Empty(Walk()), steps);
      && t.broker.published == [w.e0, w.e1] && t.broker.queue == [] && t.broker.unacked == [] && t.broker.dead == {}
      && w.snapshot(w.e0.at) == {1}
      && 0 in t.broker.acked && t.broker.acked[0] == Duplicate && 0 !in t.past.applied
      && LogOf(RowsOf(t.db.rows, w.e0.user), 1) == []
  {
    var c, w, s := QUIET, Walk(), Empty(Walk());
    assert SameDevice(c, w);
    steps := PublishAndDeliver(c, w);
    steps := FirstAwaitsSeed(c, w, s, steps);
    steps := FirstFails(c, w, Memory(Seeding, Waiting, map[], map[]), NOTHING, s, steps);
    steps := SecondSeeds(c, w, s, steps);
    steps := SecondLooksUp(c, w, s, steps);
    steps := SecondCompares(c, w, s, steps);
    steps := SecondFinishes(c, w, s, steps);
    var past := WithSuccess(OneTurn(1), w.e1);
    steps := FirstComesBack(c, w, Memory(Seeding, Finishing(NoChange), map[w.e1.Key() := 2], map[w.e1.user := {}]), past, s, steps);
    steps := FirstIsDuplicate(c, w, past, s, steps);
  }

  // ----- events without numbers change places

  /** The same two points, reported without device and number. */
  function Stroll(): World {
    World(Event(SCHEMA_VERSION, "u", None, None, Point(0.0, 0.0), None, Stamp(1, None)),
          Event(SCHEMA_VERSION, "u", None, None, Point(1.0, 0.0), None, Stamp(2, None)),
          Db(map[], {1}, {1}), (p: Point) => if p.lng == 0.0 then {1} else {})
  }

  lemma StrollLooksUp(c: Config, s: State, before: seq<Step>) returns (steps: seq<Step>)
    requires Leads(c, s, before, Both(Stroll(), BothOut(), UNSTARTED, NOTHING))
    ensures Leads(c, s, steps, Both(Stroll(), BothOut(), Memory(Reading({1}), Waiting, map[], map[]), NOTHING))
  {
    var w, q := Stroll(), BothOut();
    var s0 := Both(w, q, UNSTARTED, NOTHING);
    var s1 := Both(w, q, Memory(Started, Waiting, map[], map[]), NOTHING);
    var s2 := Both(w, q, Memory(Looking, Waiting, map[], map[]), NOTHING);
    var s3 := Both(w, q, Memory(Hinting({1}), Waiting, map[], map[]), NOTHING);
    var s4 := Both(w, q, Memory(Reading({1}), Waiting, map[], map[]), NOTHING);
    steps := before;
    OneMore(c, s, steps, s0, Start(0), s1);
    steps := steps + [Start(0)];
    OneMore(c, s, steps, s1, Gate(0), s2);
    steps := steps + [Gate(0)];
    OneMore(c, s, steps, s2, Lookup(0), s3);
    steps := steps + [Lookup(0)];
    OneMore(c, s, steps, s3, Hint(0), s4);
    steps := steps + [Hint(0)];
  }

  lemma StrollGoesOn(c: Config, s: State, before: seq<Step>) returns (steps: seq<Step>)
    requires Leads(c, s, before, Both(Stroll(), AfterNack(), Memory(Reading({1}), Waiting, map[], map[]), NOTHING))
    ensures Leads(c, s, steps, Both(Stroll(), AfterNack(), Memory(Reading({1}), Looking, map[], map[]), NOTHING))
  {
    var w, q := Stroll(), AfterNack();
    var s0 := Both(w, q, Memory(Reading({1}), Waiting, map[], map[]), NOTHING);
    var s1 := Both(w, q, Memory(Reading({1}), Started, map[], map[]), NOTHING);
    var s2 := Both(w, q, Memory(Reading({1}), Looking, map[], map[]), NOTHING);
    steps := before;
    OneMore(c, s, steps, s0, Start(1), s1);
    steps := steps + [Start(1)];
    OneMore(c, s, steps, s1, Gate(1), s2);
    steps := steps + [Gate(1)];
  }

  lemma StrollReads(c: Config, s: State, before: seq<Step>) returns (steps: seq<Step>)
    requires Leads(c, s, before, Both(Stroll(), AfterNack(), Memory(Reading({1}), Looking, map[], map[]), NOTHING))
    ensures Leads(c, s, steps, Both(Stroll(), AfterNack(), Memory(Reading({1}), HaveRead({}, {}), map[], map[]), NOTHING))
  {
    var w, q := Stroll(), AfterNack();
    var s0 := Both(w, q, Memory(Reading({1}), Looking, map[], map[]), NOTHING);
    var s1 := Both(w, q, Memory(Reading({1}), Hinting({}), map[], map[]), NOTHING);
    var s2 := Both(w, q, Memory(Reading({1}), Reading({}), map[], map[]), NOTHING);
    var s3 := Both(w, q, Memory(Reading({1}), HaveRead({}, {}), map[], map[]), NOTHING);
    steps := before;
    OneMore(c, s, steps, s0, Lookup(1), s1);
    steps := steps + [Lookup(1)];
    OneMore(c, s, steps, s1, Hint(1), s2);
    steps := steps + [Hint(1)];
    OneMore(c, s, steps, s2, ReadHint(1), s3);
    steps := steps + [ReadHint(1)];
  }

  lemma StrollEnds(c: Config, s: State, before: seq<Step>) returns (steps: seq<Step>)
    requires Leads(c, s, before, Both(Stroll(), AfterNack(), Memory(Reading({1}), HaveRead({}, {}), map[], map[]), NOTHING))
    ensures Leads(c, s, steps, Both(Stroll(), SecondDone(), Memory(Reading({1}), Finishing(NoChange), map[], map["u" := {}]), OneTurn(1)))
  {
    var w, q := Stroll(), AfterNack();
    var s0 := Both(w, q, Memory(Reading({1}), HaveRead({}, {}), map[], map[]), NOTHING);
    var s1 := Both(w, q, Memory(Reading({1}), Finishing(NoChange), map[], map["u" := {}]), OneTurn(1));
    var s2 := Both(w, SecondDone(), Memory(Reading({1}), Finishing(NoChange), map[], map["u" := {}]), OneTurn(1));
    steps := before;
    OneMore(c, s, steps, s0, KeepHint(1), s1);
    steps := steps + [KeepHint(1)];
    OneMore(c, s, steps, s1, Finish(1), s2);
    steps := steps + [Finish(1)];
  }

  lemma StrollComesBack(c: Config, s: State, before: seq<Step>) returns (steps: seq<Step>)
    requires Leads(c, s, before, Both(Stroll(), FirstAgain(), Memory(Started, Finishing(NoChange), map[], map["u" := {}]), OneTurn(1)))
    ensures Leads(c, s, steps, Both(Stroll(), FirstAgain(), Memory(Hinting({1}), Finishing(NoChange), map[], map["u" := {}]), OneTurn(1)))
  {
    var w, past := Stroll(), OneTurn(1);
    var s0 := Both(w, FirstAgain(), Memory(Started, Finishing(NoChange), map[], map["u" := {}]), past);
    var s1 := Both(w, FirstAgain(), Memory(Looking, Finishing(NoChange), map[], map["u" := {}]), past);
    var s2 := Both(w, FirstAgain(), Memory(Hinting({1}), Finishing(NoChange), map[], map["u" := {}]), past);
    steps := before;
    OneMore(c, s, steps, s0, Gate(0), s1);
    steps := steps + [Gate(0)];
    OneMore(c, s, steps, s1, Lookup(0), s2);
    steps := steps + [Lookup(0)];
  }

  function EntryRows(): UserRows { UserRows({1}, map[1 := [Stamp(1, None)]]) }

  function AfterEntry(): World { Stroll().(db := Db(map["u" := EntryRows()], {1}, {1})) }

  function TwoTurns(): Past { Past({0, 1}, [Turn(1, {}), Turn(0, {1})], {0}, map[]) }

  lemma StrollOpens(c: Config, s: State, before: seq<Step>) returns (steps: seq<Step>)
    requires Leads(c, s, before, Both(Stroll(), FirstAgain(), Memory(Hinting({1}), Finishing(NoChange), map[], map["u" := {}]), OneTurn(1)))
    ensures Leads(c, s, steps, Both(Stroll(), FirstAgain(), Memory(InTx({1}, {}), Finishing(NoChange), map[], map["u" := {}]), OneTurn(1)))
  {
    var w, q, past := Stroll(), FirstAgain(), OneTurn(1);
    var s0 := Both(w, q, Memory(Hinting({1}), Finishing(NoChange), map[], map["u" := {}]), past);
    var s1 := Both(w, q, Memory(Opening({1}), Finishing(NoChange), map[], map["u" := {}]), past);
    var s2 := Both(w, q, Memory(InTx({1}, {}), Finishing(NoChange), map[], map["u" := {}]), past);
    steps := before;
    OneMore(c, s, steps, s0, Hint(0), s1);
    steps := steps + [Hint(0)];
    OneMore(c, s, steps, s1, Open(0), s2);
    steps := steps + [Open(0)];
  }

  lemma StrollEnters(c: Config, s: State, before: seq<Step>) returns (steps: seq<Step>)
    requires Leads(c, s, before, Both(Stroll(), FirstAgain(), Memory(InTx({1}, {}), Finishing(NoChange), map[], map["u" := {}]), OneTurn(1)))
    ensures Leads(c, s, steps, Both(AfterEntry(), FirstAgain(), Memory(Committed({1}), Finishing(NoChange), map[], map["u" := {}]), TwoTurns()))
  {
    var s0 := Both(Stroll(), FirstAgain(), Memory(InTx({1}, {}), Finishing(NoChange), map[], map["u" := {}]), OneTurn(1));
    var s1 := Both(AfterEntry(), FirstAgain(), Memory(Committed({1}), Finishing(NoChange), map[], map["u" := {}]), TwoTurns());
    EntryIsCommitted();
    OneMore(c, s, before, s0, Commit(0), s1);
    steps := before + [Commit(0)];
  }

  lemma EntryIsCommitted()
    ensures CommitWrites(NoRows, {}, {1}, Stamp(1, None)) == EntryRows()
    ensures {1} + {0} == {0, 1} && [Turn(1, {})] + [Turn(0, {1})] == [Turn(1, {}), Turn(0, {1})] && {} + {0} == {0}
  {
    assert LogOf(NoRows, 1) + [Stamp(1, None)] == [Stamp(1, None)];
    assert ({} + ({1} - {})) - ({} - {1}) == {1};
  }

  function BothDone(): Queues { Queues([], [], map[1 := NoChange, 0 := Effect], [1, 0], [2, 1]) }

  lemma StrollIsOver(c: Config, s: State, before: seq<Step>) returns (steps: seq<Step>)
    requires Leads(c, s, before, Both(AfterEntry(), FirstAgain(), Memory(Committed({1}), Finishing(NoChange), map[], map["u" := {}]), TwoTurns()))
    ensures Leads(c, s, steps, Both(AfterEntry(), BothDone(), Memory(Finishing(Effect), Finishing(NoChange), map[], map["u" := {1}]), TwoTurns()))
  {
    var w := AfterEntry();
    var s0 := Both(w, FirstAgain(), Memory(Committed({1}), Finishing(NoChange), map[], map["u" := {}]), TwoTurns());
    var s1 := Both(w, FirstAgain(), Memory(Finishing(Effect), Finishing(NoChange), map[], map["u" := {1}]), TwoTurns());
    var s2 := Both(w, BothDone(), Memory(Finishing(Effect), Finishing(NoChange), map[], map["u" := {1}]), TwoTurns());
    steps := before;
    assert map["u" := {}]["u" := {1}] == map["u" := {1}];
    OneMore(c, s, steps, s0, SetMemory(0), s1);
    steps := steps + [SetMemory(0)];
    OneMore(c, s, steps, s1, Finish(0), s2);
    steps := steps + [Finish(0)];
  }

  lemma PublishedOrderEndsOutside()
    ensures var w := Stroll(); Replay.Fold(NoRows, w.snapshot, [w.e0, w.e1]).presence == {}
  {
    var w := Stroll();
    assert [w.e0, w.e1][..1] == [w.e0];
  }

  /** Without numbers nothing is lost, but a nacked event takes effect late. The unlocked read of the
      first task rejects, an ordinary database error, and its message comes back last: the user has
      left area 1, every message is acked with its effect, and the table says that the user is inside. */
  lemma NackedEventComesLate() returns (steps: seq<Step>)
    ensures Init(Empty(Stroll())) && IsRun(QUIET, Empty(Stroll()), steps)
    ensures var w, t := Stroll(), After(QUIET, Empty(Stroll()), steps);
      && t.broker.published == [w.e0, w.e1] && t.broker.queue == [] && t.broker.unacked == [] && t.broker.dead == {}
      && t.past.applied == {0, 1} && t.past.turns == [Turn(1, {}), Turn(0, {1})]
      && RowsOf(t.db.rows, "u").presence == {1}
      && Replay.Fold(NoRows, w.snapshot, t.broker.published).presence == {}
  {
    var c, s := QUIET, Empty(Stroll());
    PublishedOrderEndsOutside();
    steps := PublishAndDeliver(c, Stroll());
    steps := StrollLooksUp(c, s, steps);
    steps := FirstFails(c, Stroll(), Memory(Reading({1}), Waiting, map[], map[]), NOTHING, s, steps);
    steps := StrollGoesOn(c, s, steps);
    steps := StrollReads(c, s, steps);
    steps := StrollEnds(c, s, steps);
    steps := FirstComesBack(c, Stroll(), Memory(Reading({1}), Finishing(NoChange), map[], map["u" := {}]), OneTurn(1), s, steps);
    steps := StrollComesBack(c, s, steps);
    steps := StrollOpens(c, s, steps);
    steps := StrollEnters(c, s, steps);
    steps := StrollIsOver(c, s, steps);
  }
}
