/** What equal dedup keys of different devices cost, and that nothing else makes one device pay for
    another: a stored number that goes down, and an event refused as another device's duplicate. */
module Collisions {
  import opened Tables
  import opened Brokers
  import opened Pipeline
  import opened Conservation
  import opened Dedup
  import opened AckReasons
  import opened Turns
  import opened Scenarios

  // ----- two users with one dedup key

  datatype Device = Device(user: string, id: string) {
    function Key(): string { DedupKey(user, id) }
    predicate Sent(e: Event) { e.user == user && e.device == Some(id) }
  }

  lemma OneUserHasDistinctKeys(d0: Device, d1: Device)
    requires d0.user == d1.user && d0.Key() == d1.Key()
    ensures d0 == d1
  {
    var k := |d0.user| + 1;
    assert d0.Key()[k..] == d0.id && d1.Key()[k..] == d1.id;
  }

  /** One event of each device, in no area. */
  function Namesakes(d0: Device, a: nat, d1: Device, b: nat): World {
    World(Event(SCHEMA_VERSION, d0.user, Some(d0.id), Some(a), Point(0.0, 0.0), None, Stamp(1, None)),
          Event(SCHEMA_VERSION, d1.user, Some(d1.id), Some(b), Point(0.0, 0.0), None, Stamp(2, None)),
          Db(map[], {}, {}), p => {})
  }

  /** Different users, one key. Nobody is in any area, and the first has a new number. */
  ghost predicate SameKey(c: Config, w: World) {
    && w.e0.v == w.e1.v == SCHEMA_VERSION && w.e0.HasIdentity() && w.e1.HasIdentity()
    && w.e0.PassesAccuracyGate() && w.e1.PassesAccuracyGate()
    && w.e0.user != w.e1.user && w.e0.Key() == w.e1.Key() && c.SeedOf(w.e0) < w.e0.seqNo.value
    && w.snapshot(w.e0.at) == {} && w.snapshot(w.e1.at) == {}
    && RowsOf(w.db.rows, w.e0.user) == NoRows && RowsOf(w.db.rows, w.e1.user) == NoRows
  }

  lemma SecondAwaitsSeed(c: Config, w: World, s: State, before: seq<Step>) returns (steps: seq<Step>)
    requires SameKey(c, w) && Leads(c, s, before, Both(w, BothOut(), Memory(Seeding, Waiting, map[], map[]), NOTHING))
    ensures Leads(c, s, steps, Both(w, BothOut(), Memory(Seeding, Seeding, map[], map[]), NOTHING))
  {
    var q := BothOut();
    var s0 := Both(w, q, Memory(Seeding, Waiting, map[], map[]), NOTHING);
    var s1 := Both(w, q, Memory(Seeding, Started, map[], map[]), NOTHING);
    var s2 := Both(w, q, Memory(Seeding, Seeding, map[], map[]), NOTHING);
    steps := before;
    OneMore(c, s, steps, s0, Start(1), s1);
    steps := steps + [Start(1)];
    OneMore(c, s, steps, s1, Gate(1), s2);
    steps := steps + [Gate(1)];
  }

  lemma FirstLooksUp(c: Config, w: World, pc1: Pc, s: State, before: seq<Step>) returns (steps: seq<Step>)
    requires SameKey(c, w) && Leads(c, s, before, Both(w, BothOut(), Memory(Seeding, pc1, map[], map[]), NOTHING))
    ensures Leads(c, s, steps, Both(w, BothOut(), Memory(Hinting({}), pc1, map[w.e0.Key() := c.SeedOf(w.e0)], map[]), NOTHING))
  {
    var q, seeded := BothOut(), map[w.e0.Key() := c.SeedOf(w.e0)];
    var s0 := Both(w, q, Memory(Seeding, pc1, map[], map[]), NOTHING);
    var s1 := Both(w, q, Memory(Looking, pc1, seeded, map[]), NOTHING);
    var s2 := Both(w, q, Memory(Hinting({}), pc1, seeded, map[]), NOTHING);
    steps := before;
    OneMore(c, s, steps, s0, Seed(0), s1);
    steps := steps + [Seed(0)];
    OneMore(c, s, steps, s1, Lookup(0), s2);
    steps := steps + [Lookup(0)];
  }

  lemma FirstReads(c: Config, w: World, pc1: Pc, lastSeq: LastSeq, s: State, before: seq<Step>) returns (steps: seq<Step>)
    requires SameKey(c, w) && Leads(c, s, before, Both(w, BothOut(), Memory(Hinting({}), pc1, lastSeq, map[]), NOTHING))
    ensures Leads(c, s, steps, Both(w, BothOut(), Memory(HaveRead({}, {}), pc1, lastSeq, map[]), NOTHING))
  {
    var q := BothOut();
    var s0 := Both(w, q, Memory(Hinting({}), pc1, lastSeq, map[]), NOTHING);
    var s1 := Both(w, q, Memory(Reading({}), pc1, lastSeq, map[]), NOTHING);
    var s2 := Both(w, q, Memory(HaveRead({}, {}), pc1, lastSeq, map[]), NOTHING);
    steps := before;
    OneMore(c, s, steps, s0, Hint(0), s1);
    steps := steps + [Hint(0)];
    OneMore(c, s, steps, s1, ReadHint(0), s2);
    steps := steps + [ReadHint(0)];
  }

  lemma FirstIsLetOff(c: Config, w: World, pc1: Pc, lastSeq: LastSeq, s: State, before: seq<Step>) returns (steps: seq<Step>)
    requires SameKey(c, w) && Leads(c, s, before, Both(w, BothOut(), Memory(HaveRead({}, {}), pc1, lastSeq, map[]), NOTHING))
    ensures Leads(c, s, steps, Both(w, BothOut(), Memory(Finishing(NoChange), pc1, lastSeq, map[w.e0.user := {}]), OneTurn(0)))
  {
    var s0 := Both(w, BothOut(), Memory(HaveRead({}, {}), pc1, lastSeq, map[]), NOTHING);
    var s1 := Both(w, BothOut(), Memory(Finishing(NoChange), pc1, lastSeq, map[w.e0.user := {}]), OneTurn(0));
    OneMore(c, s, before, s0, KeepHint(0), s1);
    steps := before + [KeepHint(0)];
  }

  function FirstDone(): Queues { Queues([], [1], map[0 := NoChange], [0, 0], [1, 1]) }

  /** The first event has succeeded; the second one's task stands at pc1. */
  function Succeeded(w: World, pc1: Pc): State
    requires w.e0.HasIdentity()
  {
    Both(w, FirstDone(), Memory(Finishing(NoChange), pc1, map[w.e0.Key() := w.e0.seqNo.value], map[w.e0.user := {}]),
         WithSuccess(OneTurn(0), w.e0))
  }

  lemma FirstFinishes(c: Config, w: World, pc1: Pc, s: State, before: seq<Step>) returns (steps: seq<Step>)
    requires SameKey(c, w)
    requires Leads(c, s, before,
      Both(w, BothOut(), Memory(Finishing(NoChange), pc1, map[w.e0.Key() := c.SeedOf(w.e0)], map[w.e0.user := {}]), OneTurn(0)))
    ensures Leads(c, s, steps, Succeeded(w, pc1))
  {
    var k, u := w.e0.Key(), w.e0.user;
    var s0 := Both(w, BothOut(), Memory(Finishing(NoChange), pc1, map[k := c.SeedOf(w.e0)], map[u := {}]), OneTurn(0));
    assert map[k := c.SeedOf(w.e0)][k := w.e0.seqNo.value] == map[k := w.e0.seqNo.value];
    OneMore(c, s, before, s0, Finish(0), Succeeded(w, pc1));
    steps := before + [Finish(0)];
  }

  lemma FirstSucceeds(c: Config, w: World, pc1: Pc, s: State, before: seq<Step>) returns (steps: seq<Step>)
    requires SameKey(c, w) && Leads(c, s, before, Both(w, BothOut(), Memory(Seeding, pc1, map[], map[]), NOTHING))
    ensures Leads(c, s, steps, Succeeded(w, pc1))
  {
    var seeded := map[w.e0.Key() := c.SeedOf(w.e0)];
    steps := FirstLooksUp(c, w, pc1, s, before);
    steps := FirstReads(c, w, pc1, seeded, s, steps);
    steps := FirstIsLetOff(c, w, pc1, seeded, s, steps);
    steps := FirstFinishes(c, w, pc1, s, steps);
  }

  lemma NamesakesShareAKey(c: Config, d0: Device, a: nat, d1: Device, b: nat)
    requires d0 != d1 && d0.Key() == d1.Key() && c.SeedOf(Namesakes(d0, a, d1, b).e0) < a
    ensures Init(Empty(Namesakes(d0, a, d1, b))) && SameKey(c, Namesakes(d0, a, d1, b))
  {
    if d0.user == d1.user {
      OneUserHasDistinctKeys(d0, d1);
    }
  }

  /** Whenever two devices share a key, a stored number can go down: both tasks await their seeds, the
      first succeeds with its number, and then the other device's seed overwrites it. */
  lemma CollidingSeedLowersTheNumber(c: Config, d0: Device, a: nat, d1: Device, b: nat) returns (steps: seq<Step>)
    requires d0 != d1 && d0.Key() == d1.Key()
    requires var w := Namesakes(d0, a, d1, b); c.SeedOf(w.e0) < a && c.SeedOf(w.e1) < a
    ensures Init(Empty(Namesakes(d0, a, d1, b))) && IsRun(c, Empty(Namesakes(d0, a, d1, b)), steps)
    ensures var w := Namesakes(d0, a, d1, b);
      var t := After(c, Empty(w), steps);
      && Enabled(c, t, Seed(1)) && d0.Key() in t.worker.lastSeq && t.worker.lastSeq[d0.Key()] == a
      && d0.Key() in Next(c, t, Seed(1)).worker.lastSeq && Next(c, t, Seed(1)).worker.lastSeq[d0.Key()] == c.SeedOf(w.e1) < a
  {
    var w := Namesakes(d0, a, d1, b);
    NamesakesShareAKey(c, d0, a, d1, b);
    steps := PublishAndDeliver(c, w);
    steps := FirstAwaitsSeed(c, w, Empty(w), steps);
    steps := SecondAwaitsSeed(c, w, Empty(w), steps);
    steps := FirstSucceeds(c, w, Seeding, Empty(w), steps);
  }

  // ----- refused on another device's account

  /** A success of the event's own device with its number or a higher one, since the worker started. */
  ghost predicate OwnSuccessBefore(c: Config, s: State, steps: seq<Step>, i: nat, e: Event)
    requires IsRun(c, s, steps) && i <= |steps| && e.HasIdentity()
  {
    exists j: nat, v: nat :: j < i && v >= e.seqNo.value && StoresAt(c, s, steps, j, e.Key(), v) && steps[j].Finish?
      && NoCrashBetween(steps, j, i) && SameDeviceAt(c, s, steps, j, e)
  }

  ghost predicate SameDeviceAt(c: Config, s: State, steps: seq<Step>, j: nat, e: Event)
    requires IsRun(c, s, steps) && j < |steps| && steps[j].Finish?
  {
    var b := StateAt(c, s, steps, j).broker;
    steps[j].n < |b.published| && b.published[steps[j].n].user == e.user && b.published[steps[j].n].device == e.device
  }

  /** Step i acks an event at the gate although its number is above its device's seed and above
      every number with which its own device has succeeded. */
  ghost predicate RefusedForAnother(c: Config, s: State, steps: seq<Step>, i: nat)
    requires IsRun(c, s, steps)
  {
    && i < |steps| && (steps[i].Gate? || steps[i].Seed?)
    && var t := StateAt(c, s, steps, i);
       && Enabled(c, t, steps[i]) && Acks(c, t, steps[i])
       && var e := t.broker.published[steps[i].n];
          e.HasIdentity() && e.seqNo.value > c.SeedOf(e) && !OwnSuccessBefore(c, s, steps, i, e)
  }

  // ----- only equal keys make one device pay for another

  lemma SameKeySameDevice(c: Config, s: State, steps: seq<Step>, j: nat, i: nat, e: Event)
    requires Init(s) && IsRun(c, s, steps) && DistinctRun(c, s, steps) && j < i <= |steps|
    requires e.HasIdentity() && e in StateAt(c, s, steps, i).broker.published
    requires steps[j].Finish? && exists v :: StoresAt(c, s, steps, j, e.Key(), v)
    ensures SameDeviceAt(c, s, steps, j, e)
  {
    InitDedup(c, s);
    DedupAt(c, s, steps, i);
    PublishedGrows(c, s, steps, j, i);
    var b, d := StateAt(c, s, steps, j).broker, StateAt(c, s, steps, i).broker;
    var n :| 0 <= n < |d.published| && d.published[n] == e;
    assert d.published[steps[j].n] == b.published[steps[j].n];
  }

  lemma DistinctKeysRefuseNobody(c: Config, s: State, steps: seq<Step>, i: nat)
    requires Init(s) && IsRun(c, s, steps) && DistinctRun(c, s, steps)
    ensures !RefusedForAnother(c, s, steps, i)
  {
    if i < |steps| && (steps[i].Gate? || steps[i].Seed?) && Enabled(c, StateAt(c, s, steps, i), steps[i])
       && Acks(c, StateAt(c, s, steps, i), steps[i]) {
      var e := StateAt(c, s, steps, i).broker.published[steps[i].n];
      GateAcksTheOvertaken(c, s, steps, i);
      if SucceededBefore(c, s, steps, i, e) {
        var j: nat, v: nat :| j < i && v >= e.seqNo.value && StoresAt(c, s, steps, j, e.Key(), v) && steps[j].Finish?
          && NoCrashBetween(steps, j, i);
        SameKeySameDevice(c, s, steps, j, i, e);
        assert OwnSuccessBefore(c, s, steps, i, e);
      }
    }
  }

  // ----- and every collision does

  lemma SecondIsDuplicate(c: Config, w: World, s: State, before: seq<Step>) returns (steps: seq<Step>)
    requires SameKey(c, w) && w.e1.seqNo.value <= w.e0.seqNo.value && Leads(c, s, before, Succeeded(w, Waiting))
    ensures Leads(c, s, steps, Succeeded(w, Started))
    ensures Enabled(c, Succeeded(w, Started), Gate(1)) && Acks(c, Succeeded(w, Started), Gate(1))
  {
    OneMore(c, s, before, Succeeded(w, Waiting), Start(1), Succeeded(w, Started));
    steps := before + [Start(1)];
  }

  lemma FinishedIsAcked(c: Config, s: State, steps: seq<Step>, j: nat, i: nat)
    requires Sound(c, s) && IsRun(c, s, steps) && j < i <= |steps| && steps[j].Finish?
    ensures steps[j].n in StateAt(c, s, steps, i).broker.acked
  {
    StepOfRun(c, s, steps, j);
    TaskShape(c, StateAt(c, s, steps, j), steps[j]);
    AckedAt(c, s, steps, j + 1, i, steps[j].n);
  }

  /** The second device has had no success when its event comes to the gate. */
  lemma SecondHadNoSuccess(c: Config, w: World, steps: seq<Step>, i: nat)
    requires Init(Empty(w)) && SameKey(c, w) && IsRun(c, Empty(w), steps) && i <= |steps|
    requires StateAt(c, Empty(w), steps, i) == Succeeded(w, Started)
    ensures !OwnSuccessBefore(c, Empty(w), steps, i, w.e1)
  {
    var s, t := Empty(w), Succeeded(w, Started);
    InitReasons(c, s);
    forall j: nat | j < i && steps[j].Finish? ensures !SameDeviceAt(c, s, steps, j, w.e1) {
      FinishedIsAcked(c, s, steps, j, i);
      PublishedGrows(c, s, steps, j, i);
      assert steps[j].n == 0 && t.broker.published[0] == w.e0;
    }
  }

  lemma {:induction false} StatesAgree(c: Config, s: State, steps: seq<Step>, step: Step)
    requires IsRun(c, s, steps) && IsRun(c, s, steps + [step])
    ensures StateAt(c, s, steps + [step], |steps|) == After(c, s, steps)
    decreases |steps|
  {
    if steps != [] {
      assert (steps + [step])[1..] == steps[1..] + [step];
      StatesAgree(c, Next(c, s, steps[0]), steps[1..], step);
    }
  }

  /** Whenever two devices share a key, the only event of one can be acked as a duplicate of the
      other's success: for every number of the first above its seed, and every number of the second
      above its own seed and not above the first's. */
  lemma CollidingEventIsRefused(c: Config, d0: Device, a: nat, d1: Device, b: nat) returns (steps: seq<Step>)
    requires d0 != d1 && d0.Key() == d1.Key()
    requires var w := Namesakes(d0, a, d1, b); c.SeedOf(w.e0) < a && c.SeedOf(w.e1) < b <= a
    ensures steps != [] && Init(Empty(Namesakes(d0, a, d1, b))) && IsRun(c, Empty(Namesakes(d0, a, d1, b)), steps)
    ensures var w := Namesakes(d0, a, d1, b);
      var t := After(c, Empty(w), steps);
      && t.broker.published == [w.e0, w.e1] && 1 in t.broker.acked && t.broker.acked[1] == Duplicate && 1 !in t.past.applied
      && RefusedForAnother(c, Empty(w), steps, |steps| - 1)
  {
    var w, s := Namesakes(d0, a, d1, b), Empty(Namesakes(d0, a, d1, b));
    NamesakesShareAKey(c, d0, a, d1, b);
    var before := PublishAndDeliver(c, w);
    before := FirstAwaitsSeed(c, w, s, before);
    before := FirstSucceeds(c, w, Waiting, s, before);
    before := SecondIsDuplicate(c, w, s, before);
    Extend(c, s, before, Gate(1));
    steps := before + [Gate(1)];
    StatesAgree(c, s, before, Gate(1));
    SecondHadNoSuccess(c, w, steps, |before|);
  }

  // ----- exactly when

  ghost predicate SentBy(published: seq<Event>, devices: set<Device>) {
    forall e :: e in published && e.HasIdentity() ==> Device(e.user, e.device.value) in devices
  }

  ghost predicate DistinctDevices(devices: set<Device>) {
    forall d, f :: d in devices && f in devices && d.Key() == f.Key() ==> d == f
  }

  /** A run with events of these devices only, in which step i refuses one for another. */
  ghost predicate RefusesIn(c: Config, devices: set<Device>, s: State, steps: seq<Step>, i: nat) {
    && Init(s) && IsRun(c, s, steps) && SentBy(After(c, s, steps).broker.published, devices)
    && RefusedForAnother(c, s, steps, i)
  }

  lemma DistinctDevicesDistinctRun(c: Config, s: State, steps: seq<Step>, devices: set<Device>)
    requires IsRun(c, s, steps) && SentBy(After(c, s, steps).broker.published, devices) && DistinctDevices(devices)
    ensures DistinctRun(c, s, steps)
  {
    var published := After(c, s, steps).broker.published;
    forall i, j | 0 <= i < |published| && 0 <= j < |published|
      && published[i].HasIdentity() && published[j].HasIdentity() && published[i].Key() == published[j].Key()
      ensures published[i].user == published[j].user && published[i].device == published[j].device
    {
      var d, f := Device(published[i].user, published[i].device.value), Device(published[j].user, published[j].device.value);
      assert published[i] in published && published[j] in published;
      assert d.Key() == f.Key();
    }
  }

  lemma CollisionRefuses(c: Config, devices: set<Device>, d0: Device, d1: Device) returns (s: State, steps: seq<Step>, i: nat)
    requires d0 in devices && d1 in devices && d0 != d1 && d0.Key() == d1.Key()
    ensures RefusesIn(c, devices, s, steps, i)
  {
    var seeds := c.SeedOf(Namesakes(d0, 0, d1, 0).e0) + c.SeedOf(Namesakes(d0, 0, d1, 0).e1);
    var w := Namesakes(d0, seeds + 1, d1, seeds + 1);
    s := Empty(w);
    steps := CollidingEventIsRefused(c, d0, seeds + 1, d1, seeds + 1);
    i := |steps| - 1;
    forall e | e in [w.e0, w.e1] ensures Device(e.user, e.device.value) in devices {}
  }

  /** Among any devices: no run, whatever crashes and comes back, refuses an event on another
      device's account, if and only if their dedup keys are distinct. */
  lemma NobodyPaysExactlyWhenKeysAreDistinct(c: Config, devices: set<Device>)
    ensures DistinctDevices(devices) <==> forall s, steps, i: nat :: !RefusesIn(c, devices, s, steps, i)
  {
    if DistinctDevices(devices) {
      forall s, steps, i: nat ensures !RefusesIn(c, devices, s, steps, i) {
        if Init(s) && IsRun(c, s, steps) && SentBy(After(c, s, steps).broker.published, devices) {
          DistinctDevicesDistinctRun(c, s, steps, devices);
          DistinctKeysRefuseNobody(c, s, steps, i);
        }
      }
    } else {
      var d0, d1 :| d0 in devices && d1 in devices && d0.Key() == d1.Key() && d0 != d1;
      var s, steps, i := CollisionRefuses(c, devices, d0, d1);
    }
  }
}
