/** The worker's message handler: parse, append to the user's chain, and, when the chain gets
    there, deduplicate, report and settle the delivery. */
module WorkerConsumer {
  import opened Tables
  import opened Lists
  import opened Brokers
  import opened LocationsService
  import UserChains
  import PresenceCache
  import Pipeline

  // ----- the one error that is acknowledged

  const FOREIGN_KEY_VIOLATION := "23503"

  /** What a rejection carries, as far as the handler looks. */
  datatype Thrown = Plain | FromDriver(code: Option<string>, constraint: Option<string>)

  predicate PartAt(s: string, part: string, i: nat) { i + |part| <= |s| && s[i..i + |part|] == part }

  predicate Includes(s: string, part: string) { exists i | 0 <= i <= |s| :: PartAt(s, part, i) }

  predicate IsStaleAreaViolation(error: Thrown) {
    && error.FromDriver? && error.code == Some(FOREIGN_KEY_VIOLATION)
    && error.constraint.Some? && Includes(error.constraint.value, "area")
  }

  /** The constraints of the two tables a report writes. */
  datatype Constraint = PresencePrimaryKey | PresenceArea | LogsPrimaryKey | LogsArea {
    function Name(): string {
      match this
      case PresencePrimaryKey => "pk_user_area_presence"
      case PresenceArea => "fk_presence_area"
      case LogsPrimaryKey => "pk_logs_id"
      case LogsArea => "fk_logs_area"
    }
    function Code(): string { if PresenceArea? || LogsArea? then FOREIGN_KEY_VIOLATION else "23505" }
  }

  /** Exactly the two area references qualify; the name of the presence table's primary key
      contains the word too, but its violation has another code. */
  lemma OnlyAreaReferencesQualify(c: Constraint)
    ensures IsStaleAreaViolation(FromDriver(Some(c.Code()), Some(c.Name()))) <==> c.PresenceArea? || c.LogsArea?
  {
    if c.PresenceArea? {
      assert PartAt(c.Name(), "area", 12);
    } else if c.LogsArea? {
      assert PartAt(c.Name(), "area", 8);
    }
  }

  /** Whatever the constraint is called, a foreign key violation counts as a stale area exactly when the
      name has the word in it. */
  lemma NamesDecide(name: string)
    ensures IsStaleAreaViolation(FromDriver(Some(FOREIGN_KEY_VIOLATION), Some(name)))
      <==> exists before, after :: name == before + "area" + after
    ensures !IsStaleAreaViolation(FromDriver(Some(FOREIGN_KEY_VIOLATION), None))
  {
    if i :| 0 <= i <= |name| && PartAt(name, "area", i) {
      assert name == name[..i] + "area" + name[i + 4..];
    }
    if before, after :| name == before + "area" + after {
      assert PartAt(name, "area", |before|);
    }
  }

  /** What report() rejects with. */
  function ThrownBy(error: Error): Thrown {
    match error
    case AccuracyTooLarge => Plain
    case NoSnapshot => Plain
    case Unavailable => Plain
    case AreaGone => FromDriver(Some(PresenceArea.Code()), Some(PresenceArea.Name()))
  }

  // ----- the handler

  datatype Settlement = Ack | Nack

  datatype Handled = Rejected | Appended(tail: nat)

  /** The number an event is compared with: what is remembered, else what the table stores, else 0. */
  function KnownSeq(lastSeq: LastSeq, stored: EventState, e: Event): nat
    requires e.HasIdentity()
  {
    if e.Key() in lastSeq then lastSeq[e.Key()]
    else if (e.user, e.device.value) in stored then stored[(e.user, e.device.value)]
    else 0
  }

  function Seeded(lastSeq: LastSeq, stored: EventState, e: Event): LastSeq {
    if e.HasIdentity() then lastSeq[e.Key() := KnownSeq(lastSeq, stored, e)] else lastSeq
  }

  predicate IsRepeat(lastSeq: LastSeq, stored: EventState, e: Event) {
    e.HasIdentity() && e.seqNo.value <= KnownSeq(lastSeq, stored, e)
  }

  class WorkerConsumerService {
    const locations: LocationsService
    var promises: seq<UserChains.Tail>
    var userChains: map<string, nat>
    var lastSeqByDevice: LastSeq
    var staleAreaDropCount: nat
    var processedCount: nat

    constructor (locations: LocationsService)
      ensures this.locations == locations && lastSeqByDevice == map[]
      ensures Valid() && Chains() == UserChains.Chains([], map[])
      ensures staleAreaDropCount == processedCount == 0
    {
      this.locations := locations;
      promises, userChains, lastSeqByDevice := [], map[], map[];
      staleAreaDropCount, processedCount := 0, 0;
    }

    function Chains(): UserChains.Chains
      reads this
    {
      UserChains.Chains(promises, userChains)
    }

    ghost predicate Valid()
      reads this
    {
      UserChains.Fits(Chains())
    }

    // ----- chains

    /** A message that does not parse, or has another version, is rejected without a task. */
    method Handle(content: Option<Event>) returns (r: Handled)
      requires Valid()
      modifies `promises, `userChains
      ensures Valid()
      ensures r.Appended? <==> content.Some? && content.value.v == SCHEMA_VERSION
      ensures r.Rejected? ==> Chains() == old(Chains())
      ensures r.Appended? ==> r.tail == |old(promises)| && Chains() == UserChains.Enqueued(old(Chains()), content.value.user)
    {
      if content.None? || content.value.v != SCHEMA_VERSION {
        return Rejected;
      }
      var tail := Enqueue(content.value.user);
      return Appended(tail);
    }

    method Enqueue(user: string) returns (tail: nat)
      requires Valid()
      modifies `promises, `userChains
      ensures Valid()
      ensures tail == |old(promises)| && Chains() == UserChains.Enqueued(old(Chains()), user)
    {
      UserChains.FitsNext(Chains(), UserChains.Enqueue(user));
      var previous := if user in userChains then Some(userChains[user]) else None;
      tail := |promises|;
      promises := promises + [UserChains.Tail(user, previous, UserChains.Pending)];
      userChains := userChains[user := tail];
    }

    /** Runs after a tail has settled. An entry disappears only when its user has nothing left
        to do. */
    method CleanUp(tail: nat)
      requires Valid() && tail < |promises| && promises[tail].status.Settled?
      modifies `promises, `userChains
      ensures Valid()
      ensures Chains() == UserChains.CleanedUp(old(Chains()), tail)
      ensures forall t :: 0 <= t < |promises| && promises[t].user in old(userChains) && promises[t].user !in userChains ==>
        promises[t].Done()
    {
      UserChains.FitsNext(Chains(), UserChains.CleanUp(tail));
      var user := promises[tail].user;
      if user in userChains && userChains[user] == tail {
        UserChains.CleanupSparesNewerChains(Chains(), tail, user);
        userChains := userChains - {user};
      }
      promises := promises[tail := promises[tail].(status := UserChains.Cleaned)];
    }

    /** Shutdown waits for the tails in the map; every delivery still in flight is, or comes
        before, one of them. */
    method TailsToAwait() returns (tails: set<nat>)
      requires Valid()
      ensures forall t :: 0 <= t < |promises| && !promises[t].Done() ==>
        exists last :: last in tails && t <= last < |promises| && promises[last].user == promises[t].user
    {
      tails := userChains.Values;
      forall t | 0 <= t < |promises| && !promises[t].Done()
        ensures exists last :: last in tails && t <= last < |promises| && promises[last].user == promises[t].user
      {
        UserChains.MapHoldsNewestTail(Chains(), t);
        assert userChains[promises[t].user] in tails;
      }
    }

    // ----- one message

    /** Asks the table only for a device it does not know yet. */
    method IsDuplicate(event: Event) returns (ok: bool, duplicate: bool)
      modifies `lastSeqByDevice, locations.db`answers
      ensures ok ==> (duplicate <==> IsRepeat(old(lastSeqByDevice), locations.db.eventState, event))
      ensures lastSeqByDevice == if ok then Seeded(old(lastSeqByDevice), locations.db.eventState, event) else old(lastSeqByDevice)
      ensures old(locations.db.answers) - 1 <= locations.db.answers && (old(locations.db.answers) >= 1 ==> ok)
    {
      if event.device.None? || event.seqNo.None? {
        return true, false;
      }
      var key := DedupKey(event.user, event.device.value);
      var lastSeq := 0;
      if key in lastSeqByDevice {
        lastSeq := lastSeqByDevice[key];
        assert lastSeqByDevice == lastSeqByDevice[key := lastSeq];
      } else {
        ok := locations.db.Answer();
        if !ok {
          return false, false;
        }
        var row := (event.user, event.device.value);
        lastSeq := if row in locations.db.eventState then locations.db.eventState[row] else 0;
        lastSeqByDevice := lastSeqByDevice[key := lastSeq];
      }
      return true, event.seqNo.value <= lastSeq;
    }

    /** The device's number becomes the highest of what was remembered and this event's. */
    method RememberSeq(event: Event)
      modifies `lastSeqByDevice
      ensures lastSeqByDevice == Remember(old(lastSeqByDevice), event)
      ensures event.HasIdentity() && event.seqNo.value > 0 ==>
        && event.Key() in lastSeqByDevice && lastSeqByDevice[event.Key()] >= event.seqNo.value
        && (event.Key() in old(lastSeqByDevice) ==> lastSeqByDevice[event.Key()] >= old(lastSeqByDevice)[event.Key()])
        && lastSeqByDevice[event.Key()] in {event.seqNo.value} + old(lastSeqByDevice).Values
    {
      if event.device.None? || event.seqNo.None? {
        return;
      }
      var key := DedupKey(event.user, event.device.value);
      var known := if key in lastSeqByDevice then lastSeqByDevice[key] else 0;
      if event.seqNo.value > known {
        lastSeqByDevice := lastSeqByDevice[key := event.seqNo.value];
      }
    }

    /** The report a worker makes of an event: device and number stay out of it. */
    function ReportOf(event: Event): ReportLocation {
      ReportLocation(event.user, event.accuracy, event.stamp.capturedAt, None, None, None)
    }

    /** Takes one event and settles its delivery, once; `why` is what an ack stands for. */
    method ProcessEvent(event: Event, at: Circumstances) returns (s: Settlement, ghost why: Option<Reason>)
      modifies `lastSeqByDevice, `staleAreaDropCount, `processedCount
      modifies locations.db, locations.cache, locations.Memories()
      ensures s == Ack <==> why.Some?
      ensures locations.db.live == old(locations.db.live) && locations.db.eventState == old(locations.db.eventState)
      // a repeat changes nothing but the map entry it may have loaded
      ensures s == Ack ==> (why == Some(Duplicate) <==> IsRepeat(old(lastSeqByDevice), locations.db.eventState, event))
      ensures why == Some(Duplicate) ==>
        locations.cache.redis == old(locations.cache.redis) && processedCount == old(processedCount)
      // one transition, or none
      ensures why == Some(Effect) ==>
        && at.covering.Some?
        && locations.db.rows == old(locations.db.rows)[event.user :=
          Transition(RowsOf(old(locations.db.rows), event.user), Elements(at.covering.value), event.stamp)]
      ensures why != Some(Effect) ==> locations.db.rows == old(locations.db.rows)
      ensures why == Some(NoChange) ==>
        && event.PassesAccuracyGate() && at.covering.Some?
        && !old(locations.SaysChanged(event.user, at.covering.value, at.now, at.get))
      // only success is remembered
      ensures why == Some(Effect) || why == Some(NoChange) ==>
        lastSeqByDevice == Remember(Seeded(old(lastSeqByDevice), locations.db.eventState, event), event)
      ensures !(why == Some(Effect) || why == Some(NoChange)) ==>
        || lastSeqByDevice == Seeded(old(lastSeqByDevice), locations.db.eventState, event)
        || (s == Nack && lastSeqByDevice == old(lastSeqByDevice))
      // a missing area is acknowledged, counted and changes nothing; nothing else that fails is
      ensures why == Some(StaleArea) ==>
        && at.covering.Some?
        && !(Elements(at.covering.value) - old(locations.db.Presence(event.user)) <= locations.db.live)
      ensures staleAreaDropCount == old(staleAreaDropCount) + if why == Some(StaleArea) then 1 else 0
      ensures processedCount == old(processedCount) + if s == Ack && why != Some(Duplicate) then 1 else 0
      ensures s == Nack ==> !event.PassesAccuracyGate() || at.covering.None? || old(locations.db.answers) < 7 + 2 * |at.covering.value|
      // with an exact memory an ack of a new event means that its transition is in the tables
      ensures old(locations.Exact(event.user)) ==> locations.Exact(event.user)
      ensures old(locations.Exact(event.user)) && (why == Some(Effect) || why == Some(NoChange)) && NoDuplicates(at.covering.value) ==>
        RowsOf(locations.db.rows, event.user) ==
          Transition(RowsOf(old(locations.db.rows), event.user), Elements(at.covering.value) * locations.db.live, event.stamp)
    {
      why := None;
      var ok, duplicate := IsDuplicate(event);
      if !ok {
        return Nack, None;
      }
      if duplicate {
        return Ack, Some(Duplicate);
      }
      var r, noop, changed := locations.Report(ReportOf(event), event.stamp.recordedAt, at);
      if r.Ok? {
        RememberSeq(event);
        processedCount := processedCount + 1;
        return Ack, Some(if changed then Effect else NoChange);
      }
      AreaReferencesQualify(r.error);
      if IsStaleAreaViolation(ThrownBy(r.error)) {
        staleAreaDropCount := staleAreaDropCount + 1;
        processedCount := processedCount + 1;
        return Ack, Some(StaleArea);
      }
      return Nack, None;
    }
  }

  lemma AreaReferencesQualify(error: Error)
    ensures IsStaleAreaViolation(ThrownBy(error)) <==> error.AreaGone?
  {
    OnlyAreaReferencesQualify(PresenceArea);
  }

  /** The two dedup steps of the pipeline, seen together, are this check: the gate decides when
      the device is known, the answer of the table when it is not. */
  lemma PipelineAsksTheSame(c: Config, s: Pipeline.State, n: nat)
    requires Pipeline.Out(s, n) && s.broker.published[n].HasIdentity()
    requires var pc, e := s.worker.pcs[n], s.broker.published[n];
      if e.Key() in s.worker.lastSeq then pc.Started? else pc.Seeding?
    ensures var e := s.broker.published[n];
      var step := if e.Key() in s.worker.lastSeq then Pipeline.Gate(n) else Pipeline.Seed(n);
      && Pipeline.Enabled(c, s, step)
      && (Pipeline.Acks(c, s, step) <==> IsRepeat(s.worker.lastSeq, c.seeds, e))
      && Pipeline.Next(c, s, step).worker.lastSeq == Seeded(s.worker.lastSeq, c.seeds, e)
  {
  }
}
