/** The transition processor: a hint read without a lock, the fork on it, the locked transaction,
    and the update of the memory and of the cache afterwards. One report at a time; WritePath and
    PresenceCache say what happens when several interleave. */
module LocationsService {
  import opened Tables
  import opened Lists
  import opened PresenceCache
  import opened Brokers

  // ----- input and output

  datatype ReportLocation = ReportLocation(
    user: string,
    accuracy: Option<real>,
    capturedAt: Option<int>,
    observedAt: Option<int>,             // deprecated alias of capturedAt
    device: Option<string>,
    seqNo: Option<nat>)
  {
    function Captured(): Option<int> { if capturedAt.Some? then capturedAt else observedAt }
    predicate TooInaccurate() { accuracy.Some? && accuracy.value > MAX_ACCURACY_METERS }
  }

  datatype Error =
    | AccuracyTooLarge
    | NoSnapshot               // the area lookup rejects
    | Unavailable              // the database stops answering
    | AreaGone                // foreign key violation on the area reference

  datatype Result = Ok(enteredAreaIds: seq<AreaId>, duplicate: bool) | Err(error: Error)

  // ----- what a report works on

  /** Worker-local presence memory. */
  class PresenceMemoryService {
    var areaIdsByUser: map<string, seq<AreaId>>

    constructor ()
      ensures areaIdsByUser == map[]
    {
      areaIdsByUser := map[];
    }

    method Get(user: string) returns (r: Option<seq<AreaId>>)
      ensures r == if user in areaIdsByUser then Some(areaIdsByUser[user]) else None
    {
      r := if user in areaIdsByUser then Some(areaIdsByUser[user]) else None;
    }

    method Set(user: string, areaIds: seq<AreaId>)
      modifies this
      ensures areaIdsByUser == old(areaIdsByUser)[user := areaIds]
    {
      areaIdsByUser := areaIdsByUser[user := areaIds];
    }
  }

  type EventState = map<(string, string), nat>

  /** The committed tables. `answers` is the number of statements the database will still answer. */
  class Database {
    var rows: Rows
    var live: set<AreaId>
    var eventState: EventState
    var answers: nat

    constructor (rows: Rows, live: set<AreaId>, eventState: EventState, answers: nat)
      ensures this.rows == rows && this.live == live && this.eventState == eventState && this.answers == answers
    {
      this.rows, this.live, this.eventState, this.answers := rows, live, eventState, answers;
    }

    function Presence(user: string): set<AreaId>
      reads this
    {
      RowsOf(rows, user).presence
    }

    method Answer() returns (ok: bool)
      modifies `answers
      ensures ok <==> old(answers) > 0
      ensures answers == if ok then old(answers) - 1 else 0
    {
      ok := answers > 0;
      answers := if ok then answers - 1 else 0;
    }
  }

  /** A query returns the rows of a set as a list, in an order of its own. */
  method ListRows(areas: set<AreaId>) returns (q: seq<AreaId>)
    ensures Elements(q) == areas && NoDuplicates(q)
  {
    q := [];
    var rest := areas;
    while rest != {}
      invariant Elements(q) == areas - rest && rest <= areas && NoDuplicates(q)
      decreases |rest|
    {
      var a :| a in rest;
      ElementsOfConcat(q, [a]);
      q, rest := q + [a], rest - {a};
    }
  }

  /** The rows of a list that are not in a set. */
  function Without(q: seq<AreaId>, known: set<AreaId>): (r: seq<AreaId>)
    ensures |r| <= |q|
  {
    if q == [] then []
    else (if q[0] in known then [] else [q[0]]) + Without(q[1..], known)
  }

  lemma {:induction false} WithoutFacts(q: seq<AreaId>, known: set<AreaId>)
    ensures Elements(Without(q, known)) == Elements(q) - known
    ensures NoDuplicates(q) ==> NoDuplicates(Without(q, known))
  {
    if q != [] {
      var head, rest := if q[0] in known then [] else [q[0]], Without(q[1..], known);
      WithoutFacts(q[1..], known);
      assert q == [q[0]] + q[1..];
      ElementsOfConcat([q[0]], q[1..]);
      ElementsOfConcat(head, rest);
      assert q[0] in Elements(rest) ==> q[0] in q[1..];
    }
  }

  // ----- the locked transaction

  datatype Outcome = Committed(enteredAreaIds: seq<AreaId>, duplicate: bool, wroteAnything: bool) | RolledBack(error: Error)

  /** The device's stored number already covers this report. */
  predicate SeenBefore(eventState: EventState, dto: ReportLocation) {
    && dto.device.Some? && dto.seqNo.Some?
    && (dto.user, dto.device.value) in eventState && dto.seqNo.value <= eventState[(dto.user, dto.device.value)]
  }

  function WithSeq(eventState: EventState, dto: ReportLocation): EventState {
    if dto.device.Some? && dto.seqNo.Some? then eventState[(dto.user, dto.device.value) := dto.seqNo.value] else eventState
  }

  /** What the transaction holds once the areas in `done` have been inserted. */
  ghost predicate Inserted(before: UserRows, done: set<AreaId>, stamp: Stamp, draft: UserRows, enteredAreaIds: seq<AreaId>) {
    && draft.presence == before.presence + done
    && draft.logs == WithLogs(before, done - before.presence, stamp)
    && StrictlyAscending(enteredAreaIds)
    && Elements(enteredAreaIds) == done - before.presence
  }

  lemma NothingInserted(before: UserRows, stamp: Stamp)
    ensures Inserted(before, {}, stamp, before, [])
  {
    TransitionToSamePresence(before, stamp);
    assert before.presence - before.presence == {} == {} - before.presence;
    assert before.presence + {} == before.presence;
  }

  /** An insert that conflicts with an existing row changes nothing. */
  lemma ConflictInsertsNothing(before: UserRows, done: set<AreaId>, stamp: Stamp, draft: UserRows, pushed: seq<AreaId>, areaId: AreaId)
    requires Inserted(before, done, stamp, draft, pushed) && areaId in draft.presence
    ensures Inserted(before, done + {areaId}, stamp, draft, pushed)
  {
  }

  lemma OneMoreLog(before: UserRows, logs: map<AreaId, seq<Stamp>>, done: set<AreaId>, areaId: AreaId, stamp: Stamp)
    requires logs == WithLogs(before, done, stamp) && areaId !in done
    ensures logs[areaId := (if areaId in logs then logs[areaId] else []) + [stamp]] == WithLogs(before, done + {areaId}, stamp)
  {
    assert LogOf(before, areaId) + [] == LogOf(before, areaId);
  }

  lemma OneMoreEntered(pushed: seq<AreaId>, areaId: AreaId)
    requires StrictlyAscending(pushed) && forall a :: a in pushed ==> a < areaId
    ensures StrictlyAscending(pushed + [areaId]) && Elements(pushed + [areaId]) == Elements(pushed) + {areaId}
  {
    ElementsOfConcat(pushed, [areaId]);
    forall i, j | 0 <= i < j < |pushed + [areaId]| ensures (pushed + [areaId])[i] < (pushed + [areaId])[j] {
      assert pushed[i] in pushed;
    }
  }

  /** An insert that returns its row is logged and reported. */
  lemma InsertLogs(before: UserRows, done: set<AreaId>, stamp: Stamp, draft: UserRows, pushed: seq<AreaId>, areaId: AreaId)
    requires Inserted(before, done, stamp, draft, pushed) && areaId !in draft.presence
    requires forall a :: a in done ==> a <= areaId
    ensures Inserted(before, done + {areaId}, stamp,
      UserRows(draft.presence + {areaId}, draft.logs[areaId := LogOf(draft, areaId) + [stamp]]), pushed + [areaId])
  {
    assert (done + {areaId}) - before.presence == (done - before.presence) + {areaId};
    assert before.presence + (done + {areaId}) == draft.presence + {areaId};
    OneMoreLog(before, draft.logs, done - before.presence, areaId, stamp);
    forall a | a in pushed ensures a < areaId {
      assert a in Elements(pushed);
    }
    OneMoreEntered(pushed, areaId);
  }

  lemma OneMore(q: seq<AreaId>, i: nat)
    requires i < |q| && Ascending(q)
    ensures Elements(q[..i + 1]) == Elements(q[..i]) + {q[i]}
    ensures forall a :: a in Elements(q[..i]) ==> a <= q[i]
  {
  }

  /** The first i areas are inserted, and the new ones among them exist. */
  ghost predicate InsertedUpTo(before: UserRows, entered: seq<AreaId>, i: nat, stamp: Stamp, live: set<AreaId>,
                               draft: UserRows, enteredAreaIds: seq<AreaId>)
    requires i <= |entered|
  {
    && Inserted(before, Elements(entered[..i]), stamp, draft, enteredAreaIds)
    && Elements(entered[..i]) - before.presence <= live
  }

  lemma ConflictStep(before: UserRows, entered: seq<AreaId>, i: nat, stamp: Stamp, live: set<AreaId>, draft: UserRows, pushed: seq<AreaId>)
    requires i < |entered| && Ascending(entered) && InsertedUpTo(before, entered, i, stamp, live, draft, pushed)
    requires entered[i] in draft.presence
    ensures InsertedUpTo(before, entered, i + 1, stamp, live, draft, pushed)
  {
    OneMore(entered, i);
    ConflictInsertsNothing(before, Elements(entered[..i]), stamp, draft, pushed, entered[i]);
  }

  lemma InsertStep(before: UserRows, entered: seq<AreaId>, i: nat, stamp: Stamp, live: set<AreaId>, draft: UserRows, pushed: seq<AreaId>)
    requires i < |entered| && Ascending(entered) && InsertedUpTo(before, entered, i, stamp, live, draft, pushed)
    requires entered[i] !in draft.presence && entered[i] in live
    ensures InsertedUpTo(before, entered, i + 1, stamp, live,
      UserRows(draft.presence + {entered[i]}, draft.logs[entered[i] := LogOf(draft, entered[i]) + [stamp]]), pushed + [entered[i]])
  {
    OneMore(entered, i);
    InsertLogs(before, Elements(entered[..i]), stamp, draft, pushed, entered[i]);
  }

  lemma MissingArea(before: UserRows, entered: seq<AreaId>, i: nat, stamp: Stamp, live: set<AreaId>, draft: UserRows, pushed: seq<AreaId>)
    requires i < |entered| && InsertedUpTo(before, entered, i, stamp, live, draft, pushed)
    requires entered[i] !in draft.presence && entered[i] !in live
    ensures !(Elements(entered) - before.presence <= live)
  {
    assert entered[i] in Elements(entered) - before.presence;
  }

  lemma NothingInsertedYet(before: UserRows, entered: seq<AreaId>, stamp: Stamp, live: set<AreaId>)
    ensures InsertedUpTo(before, entered, 0, stamp, live, before, [])
  {
    NothingInserted(before, stamp);
    assert Elements(entered[..0]) == {};
  }

  lemma AllInserted(before: UserRows, entered: seq<AreaId>, stamp: Stamp, live: set<AreaId>, draft: UserRows, pushed: seq<AreaId>)
    requires InsertedUpTo(before, entered, |entered|, stamp, live, draft, pushed)
    ensures Inserted(before, Elements(entered), stamp, draft, pushed) && Elements(entered) - before.presence <= live
  {
    assert entered[..|entered|] == entered;
  }

  /** The inserts, one area at a time, on the transaction's own view of the rows. */
  method InsertEntered(db: Database, before: UserRows, entered: seq<AreaId>, stamp: Stamp)
    returns (error: Option<Error>, draft: UserRows, enteredAreaIds: seq<AreaId>)
    requires Ascending(entered)
    modifies db`answers
    ensures error.None? ==> Inserted(before, Elements(entered), stamp, draft, enteredAreaIds)
    ensures error.None? ==> Elements(entered) - before.presence <= db.live
    ensures error == Some(AreaGone) ==> !(Elements(entered) - before.presence <= db.live)
    ensures error.Some? ==> error.value.AreaGone? || error.value.Unavailable?
    ensures old(db.answers) >= 2 * |entered| ==> error != Some(Unavailable)
    ensures old(db.answers) - 2 * |entered| <= db.answers
  {
    error, draft, enteredAreaIds := None, before, [];
    NothingInsertedYet(before, entered, stamp, db.live);
    var i := 0;
    while i < |entered|
      invariant 0 <= i <= |entered| && error.None?
      invariant InsertedUpTo(before, entered, i, stamp, db.live, draft, enteredAreaIds)
      invariant old(db.answers) - 2 * i <= db.answers
    {
      var areaId := entered[i];
      var ok := db.Answer();
      if !ok {
        return Some(Unavailable), draft, enteredAreaIds;
      }
      if areaId in draft.presence {
        ConflictStep(before, entered, i, stamp, db.live, draft, enteredAreaIds);
      } else {
        if areaId !in db.live {
          MissingArea(before, entered, i, stamp, db.live, draft, enteredAreaIds);
          return Some(AreaGone), draft, enteredAreaIds;
        }
        ok := db.Answer();
        if !ok {
          return Some(Unavailable), draft, enteredAreaIds;
        }
        InsertStep(before, entered, i, stamp, db.live, draft, enteredAreaIds);
        draft := UserRows(draft.presence + {areaId}, draft.logs[areaId := LogOf(draft, areaId) + [stamp]]);
        enteredAreaIds := enteredAreaIds + [areaId];
      }
      i := i + 1;
    }
    AllInserted(before, entered, stamp, db.live, draft, enteredAreaIds);
  }

  /** Deleting the departed areas completes the transition. */
  lemma DeleteCompletes(before: UserRows, current: set<AreaId>, stamp: Stamp, draft: UserRows, pushed: seq<AreaId>)
    requires Inserted(before, current - before.presence, stamp, draft, pushed)
    ensures UserRows(draft.presence - (before.presence - current), draft.logs) == Transition(before, current, stamp)
    ensures Elements(pushed) == current - before.presence
  {
  }

  /** The deduplication of the transaction: whether the report was seen, or the state to commit. */
  method CheckSeq(db: Database, dto: ReportLocation) returns (error: Option<Error>, seen: bool, draft: EventState)
    modifies db`answers
    ensures error.None? || error == Some(Unavailable)
    ensures error.None? ==> (seen <==> SeenBefore(db.eventState, dto)) && (!seen ==> draft == WithSeq(db.eventState, dto))
    ensures old(db.answers) - 2 <= db.answers && (old(db.answers) >= 2 ==> error.None?)
  {
    error, seen, draft := None, false, db.eventState;
    if dto.device.Some? && dto.seqNo.Some? {
      var ok := db.Answer();
      if !ok {
        return Some(Unavailable), false, draft;
      }
      var key := (dto.user, dto.device.value);
      if key in db.eventState && dto.seqNo.value <= db.eventState[key] {
        return None, true, draft;
      }
      ok := db.Answer();
      if !ok {
        return Some(Unavailable), false, draft;
      }
      draft := draft[key := dto.seqNo.value];
    }
  }

  lemma SortedDifference(q: seq<AreaId>, known: set<AreaId>)
    ensures var r := Sort(Without(q, known));
      && Ascending(r) && |r| <= |q|
      && Elements(r) == Elements(q) - known == Elements(r) - known
  {
    var d := Without(q, known);
    WithoutFacts(q, known);
    SortFacts(d);
    assert |Sort(d)| == |multiset(Sort(d))| == |d|;
  }

  /** The row changes of the transaction, on its own view of the user's rows. */
  method DraftTransition(db: Database, before: UserRows, current: seq<AreaId>, stamp: Stamp)
    returns (error: Option<Error>, draft: UserRows, enteredAreaIds: seq<AreaId>, wroteAnything: bool)
    modifies db`answers
    ensures error.None? ==>
      && draft == Transition(before, Elements(current), stamp)
      && StrictlyAscending(enteredAreaIds) && Elements(enteredAreaIds) == Elements(current) - before.presence <= db.live
      && (wroteAnything <==> Elements(current) != before.presence)
    ensures error == Some(AreaGone) ==> !(Elements(current) - before.presence <= db.live)
    ensures error.Some? ==> error.value.AreaGone? || (error.value.Unavailable? && old(db.answers) < 1 + 2 * |current|)
    ensures old(db.answers) - 1 - 2 * |current| <= db.answers
  {
    var previousAreaIds := ListRows(before.presence);
    var entered := Without(current, Elements(previousAreaIds));
    var departed := Without(previousAreaIds, Elements(current));
    SortedDifference(current, before.presence);
    WithoutFacts(previousAreaIds, Elements(current));

    error, draft, enteredAreaIds := InsertEntered(db, before, Sort(entered), stamp);
    if error.Some? {
      return error, draft, enteredAreaIds, false;
    }
    DeleteCompletes(before, Elements(current), stamp, draft, enteredAreaIds);
    if |departed| > 0 {
      var ok := db.Answer();
      if !ok {
        return Some(Unavailable), draft, enteredAreaIds, false;
      }
      draft := UserRows(draft.presence - Elements(departed), draft.logs);
    } else {
      assert draft.presence - Elements(departed) == draft.presence;
    }
    wroteAnything := |enteredAreaIds| > 0 || |departed| > 0;
    EmptyListsMeanNoDifference(enteredAreaIds, departed, Elements(current), before.presence);
  }

  lemma EmptyListsMeanNoDifference(entered: seq<AreaId>, departed: seq<AreaId>, current: set<AreaId>, previous: set<AreaId>)
    requires Elements(entered) == current - previous && Elements(departed) == previous - current
    ensures entered == [] && departed == [] <==> current == previous
  {
    if entered == [] && departed == [] {
      assert current - previous == {} && previous - current == {};
    } else if entered != [] {
      assert entered[0] in Elements(entered);
    } else {
      assert departed[0] in Elements(departed);
    }
  }

  /** Lock, read, deduplicate, insert, delete, commit; a rejection anywhere leaves the tables as
      they were. */
  method Transact(db: Database, dto: ReportLocation, current: seq<AreaId>, stamp: Stamp) returns (r: Outcome)
    modifies db
    ensures db.live == old(db.live)
    ensures r.RolledBack? ==> db.rows == old(db.rows) && db.eventState == old(db.eventState)
    ensures r.RolledBack? && r.error.AreaGone? ==> !(Elements(current) - old(db.Presence(dto.user)) <= db.live)
    ensures r.RolledBack? ==> r.error.AreaGone? || (r.error.Unavailable? && old(db.answers) < 5 + 2 * |current|)
    ensures r.Committed? ==> (r.duplicate <==> SeenBefore(old(db.eventState), dto))
    ensures r.Committed? && r.duplicate ==> r.enteredAreaIds == [] && db.rows == old(db.rows) && db.eventState == old(db.eventState)
    ensures r.Committed? && !r.duplicate ==>
      && db.rows == old(db.rows)[dto.user := Transition(RowsOf(old(db.rows), dto.user), Elements(current), stamp)]
      && db.eventState == WithSeq(old(db.eventState), dto)
      && StrictlyAscending(r.enteredAreaIds)
      && Elements(r.enteredAreaIds) == Elements(current) - old(db.Presence(dto.user)) <= db.live
      && (r.wroteAnything <==> Elements(current) != old(db.Presence(dto.user)))
  {
    var ok := db.Answer();
    if !ok {
      return RolledBack(Unavailable);
    }
    var before := RowsOf(db.rows, dto.user);
    var error, seen, eventState := CheckSeq(db, dto);
    if error.Some? {
      return RolledBack(error.value);
    }
    var draft, enteredAreaIds, wroteAnything := before, [], false;
    if !seen {
      error, draft, enteredAreaIds, wroteAnything := DraftTransition(db, before, current, stamp);
      if error.Some? {
        return RolledBack(error.value);
      }
    }
    ok := db.Answer();
    if !ok {
      return RolledBack(Unavailable);
    }
    if !seen {
      db.rows := db.rows[dto.user := draft];
      db.eventState := eventState;
    }
    r := Outcome.Committed(enteredAreaIds, seen, wroteAnything);
  }

  // ----- the service

  /** What one report meets outside: the areas covering its point, the time, and how the cache's
      commands end. */
  datatype Circumstances = Circumstances(covering: Option<seq<AreaId>>, now: int, get: Reply, write: Reply)

  class LocationsService {
    const db: Database
    const cache: PresenceCacheService
    /** Only the worker remembers presence. */
    const memory: PresenceMemoryService?

    constructor (db: Database, cache: PresenceCacheService, memory: PresenceMemoryService?)
      ensures this.db == db && this.cache == cache && this.memory == memory
    {
      this.db, this.cache, this.memory := db, cache, memory;
    }

    ghost function Memories(): set<object> { if memory == null then {} else {memory} }

    predicate Remembers(user: string)
      reads Memories()
    {
      memory != null && user in memory.areaIdsByUser
    }

    /** What the hint says, whichever of the three places it comes from. */
    ghost predicate SaysChanged(user: string, current: seq<AreaId>, now: int, get: Reply)
      reads Memories(), cache, db
    {
      if Remembers(user) then Differs(current, memory.areaIdsByUser[user])
      else if memory == null && get == Answered && cache.Cached(user, now).Some? then Differs(current, cache.Cached(user, now).value)
      else |current| != |db.Presence(user)| || !(Elements(current) <= db.Presence(user))
    }

    /** In the worker: what is remembered of a user agrees with the table on the areas that exist,
        and the table has no row of an area that does not. */
    ghost predicate Exact(user: string)
      reads Memories(), db
    {
      && memory != null && db.Presence(user) <= db.live
      && (Remembers(user) ==> Elements(memory.areaIdsByUser[user]) * db.live == db.Presence(user))
    }

    /** The hint, and the cache's answer when the cache was asked. */
    method ReadHint(user: string, now: int, get: Reply, ghost current: seq<AreaId>)
      returns (ok: bool, hint: seq<AreaId>, cacheRead: Option<CacheRead>)
      modifies db`answers, Memories()
      ensures old(db.answers) - 1 <= db.answers && (old(db.answers) >= 1 ==> ok)
      ensures ok ==> (Differs(current, hint) <==> old(SaysChanged(user, current, now, get)))
      ensures cacheRead.Some? <==> memory == null
      ensures old(Remembers(user)) ==> hint == old(memory.areaIdsByUser[user])
      ensures ok && cacheRead == Some(Miss) ==> Elements(hint) == db.Presence(user) && NoDuplicates(hint)
      ensures cacheRead == Some(Miss) <==> memory == null && get == Answered && cache.Cached(user, now).None?
      ensures old(Exact(user)) ==> Exact(user) && (ok ==> Elements(hint) * db.live == db.Presence(user))
      ensures memory != null && (old(Remembers(user)) || !ok) ==> memory.areaIdsByUser == old(memory.areaIdsByUser)
      ensures memory != null && !old(Remembers(user)) && ok ==> memory.areaIdsByUser == old(memory.areaIdsByUser)[user := hint]
      ensures memory != null && !old(Remembers(user)) && ok ==> Elements(hint) == db.Presence(user) && NoDuplicates(hint)
    {
      hint, cacheRead := [], None;
      var remembered: Option<seq<AreaId>> := None;
      if memory != null {
        remembered := memory.Get(user);
      }
      if remembered.Some? {
        return true, remembered.value, None;
      }
      if memory == null {
        var read := cache.Get(user, now, get);
        cacheRead := Some(read);
        if read.Hit? {
          return true, read.areaIds, cacheRead;
        }
      }
      ok := db.Answer();
      if ok {
        hint := ListRows(db.Presence(user));
        ListingDiffers(current, hint, db.Presence(user));
        if memory != null {
          memory.Set(user, hint);
        }
        assert db.Presence(user) <= db.live ==> Elements(hint) * db.live == db.Presence(user);
      }
    }

    /** The transaction and what follows its commit: the memory, then the cache. */
    method TakeChangePath(dto: ReportLocation, current: seq<AreaId>, stamp: Stamp, write: Reply) returns (r: Result, noop: bool)
      modifies db, cache, Memories()
      ensures db.live == old(db.live)
      ensures r.Err? ==> db.rows == old(db.rows) && db.eventState == old(db.eventState) && cache.redis == old(cache.redis)
      ensures r.Err? ==> r.error.AreaGone? || (r.error.Unavailable? && old(db.answers) < 5 + 2 * |current|)
      ensures r == Err(AreaGone) ==> !(Elements(current) - old(db.Presence(dto.user)) <= db.live)
      ensures r.Ok? ==> (r.duplicate <==> SeenBefore(old(db.eventState), dto))
      ensures r.Ok? && r.duplicate ==>
        r.enteredAreaIds == [] && !noop && db.rows == old(db.rows) && db.eventState == old(db.eventState)
      ensures r.Ok? && !r.duplicate ==>
        && db.rows == old(db.rows)[dto.user := Transition(RowsOf(old(db.rows), dto.user), Elements(current), stamp)]
        && db.eventState == WithSeq(old(db.eventState), dto)
        && StrictlyAscending(r.enteredAreaIds)
        && Elements(r.enteredAreaIds) == Elements(current) - old(db.Presence(dto.user)) <= db.live
        && (noop <==> Elements(current) == old(db.Presence(dto.user)))
      ensures memory != null && r.Ok? && !r.duplicate ==> memory.areaIdsByUser == old(memory.areaIdsByUser)[dto.user := current]
      ensures memory != null && (r.Err? || r.duplicate) ==> memory.areaIdsByUser == old(memory.areaIdsByUser)
      ensures r.Ok? ==> cache.redis == if write.Done() then old(cache.redis) - {Key(dto.user)} else old(cache.redis)
      ensures old(Exact(dto.user)) ==> Exact(dto.user)
      ensures old(Exact(dto.user)) && r.Ok? && !r.duplicate ==>
        RowsOf(db.rows, dto.user) == Transition(RowsOf(old(db.rows), dto.user), Elements(current) * db.live, stamp)
    {
      var result := Transact(db, dto, current, stamp);
      if result.RolledBack? {
        return Err(result.error), false;
      }
      assert Elements(current) - old(db.Presence(dto.user)) <= db.live && old(db.Presence(dto.user)) <= db.live
        ==> Elements(current) * db.live == Elements(current);
      if memory != null && !result.duplicate {
        memory.Set(dto.user, current);
      }
      var _ := cache.Invalidate(dto.user, write);
      return Ok(result.enteredAreaIds, result.duplicate), !result.duplicate && !result.wroteAnything;
    }

    /** Only a clean miss writes back. */
    method FillAfterMiss(user: string, cacheRead: Option<CacheRead>, hint: seq<AreaId>, now: int, write: Reply)
      modifies cache
      ensures cache.redis == if cacheRead == Some(Miss) && write.Done()
                             then old(cache.redis)[Key(user) := Fresh(hint, now, cache.ttls)] else old(cache.redis)
    {
      if cacheRead == Some(Miss) {
        cache.Populate(user, hint, now, write);
      }
    }

    /** Takes one report. `noop` says that a transaction was opened and wrote nothing,
        `changed` that the hint asked for one. */
    method Report(dto: ReportLocation, recordedAt: int, at: Circumstances) returns (r: Result, noop: bool, ghost changed: bool)
      modifies db, cache, Memories()
      ensures db.live == old(db.live)
      ensures dto.TooInaccurate() <==> r == Err(AccuracyTooLarge)
      ensures !dto.TooInaccurate() && at.covering.None? <==> r == Err(NoSnapshot)
      ensures r == Err(Unavailable) ==> at.covering.Some? && old(db.answers) < 6 + 2 * |at.covering.value|
      ensures r == Err(AreaGone) ==> at.covering.Some? && !(Elements(at.covering.value) - old(db.Presence(dto.user)) <= db.live)
      // a rejected report changes no table and no key
      ensures r.Err? ==> db.rows == old(db.rows) && db.eventState == old(db.eventState) && cache.redis == old(cache.redis)
      ensures r.Ok? ==> at.covering.Some? && changed == old(SaysChanged(dto.user, at.covering.value, at.now, at.get))
      // when the hint shows no change, nothing is written
      ensures r.Ok? && !changed ==>
        && r == Ok([], false) && !noop
        && db.rows == old(db.rows) && db.eventState == old(db.eventState)
      // a repeated number on the writing path writes nothing
      ensures r.Ok? ==> (r.duplicate <==>
        changed && SeenBefore(old(db.eventState), dto))
      ensures r.Ok? && r.duplicate ==>
        r.enteredAreaIds == [] && !noop && db.rows == old(db.rows) && db.eventState == old(db.eventState)
      // otherwise the whole transition is committed, whatever the hint said in detail
      ensures r.Ok? && !r.duplicate && changed ==>
        var current := Elements(at.covering.value);
        && db.rows == old(db.rows)[dto.user := Transition(RowsOf(old(db.rows), dto.user), current, Stamp(recordedAt, dto.Captured()))]
        && db.eventState == WithSeq(old(db.eventState), dto)
        && StrictlyAscending(r.enteredAreaIds)
        && Elements(r.enteredAreaIds) == current - old(db.Presence(dto.user)) <= db.live
        && (noop <==> current == old(db.Presence(dto.user)))
      // the memory, when there is one
      ensures memory != null && r.Ok? && !r.duplicate && changed ==>
        memory.areaIdsByUser == old(memory.areaIdsByUser)[dto.user := at.covering.value]
      ensures memory != null && !(r.Ok? && !r.duplicate && changed) ==>
        || memory.areaIdsByUser == old(memory.areaIdsByUser)
        || (&& !old(Remembers(dto.user)) && Remembers(dto.user)
            && Elements(memory.areaIdsByUser[dto.user]) == old(db.Presence(dto.user))
            && memory.areaIdsByUser == old(memory.areaIdsByUser)[dto.user := memory.areaIdsByUser[dto.user]])
      // the cache: deleted after every transaction, filled only after a clean miss, else untouched
      ensures r.Ok? && changed ==>
        cache.redis == if at.write.Done() then old(cache.redis) - {Key(dto.user)} else old(cache.redis)
      ensures r.Ok? && !changed ==>
        || cache.redis == old(cache.redis)
        || (&& memory == null && at.get == Answered && old(cache.Cached(dto.user, at.now)).None? && at.write.Done()
            && Key(dto.user) in cache.redis && HoldsListing(cache.redis[Key(dto.user)], db.Presence(dto.user))
            && cache.redis == old(cache.redis)[Key(dto.user) := Fresh(cache.redis[Key(dto.user)].areaIds, at.now, cache.ttls)])
      // with an exact hint nobody can tell whether a transaction was opened
      ensures old(Exact(dto.user)) ==> Exact(dto.user)
      ensures old(Exact(dto.user)) && r.Ok? && !r.duplicate && NoDuplicates(at.covering.value) ==>
        RowsOf(db.rows, dto.user) ==
          Transition(RowsOf(old(db.rows), dto.user), Elements(at.covering.value) * db.live, Stamp(recordedAt, dto.Captured()))
    {
      if dto.accuracy.Some? && dto.accuracy.value > MAX_ACCURACY_METERS {
        return Err(AccuracyTooLarge), false, false;
      }
      var capturedAt := if dto.capturedAt.Some? then dto.capturedAt else dto.observedAt;
      var stamp := Stamp(recordedAt, capturedAt);
      assert stamp == Stamp(recordedAt, dto.Captured());
      if at.covering.None? {
        return Err(NoSnapshot), false, false;
      }
      var currentAreaIds := at.covering.value;

      var ok, previousHint, cacheRead := ReadHint(dto.user, at.now, at.get, currentAreaIds);
      if !ok {
        return Err(Unavailable), false, false;
      }
      if !Differs(currentAreaIds, previousHint) {
        if old(Exact(dto.user)) && NoDuplicates(currentAreaIds) {
          NothingToDo(RowsOf(db.rows, dto.user), currentAreaIds, previousHint, db.live, stamp);
        }
        FillAfterMiss(dto.user, cacheRead, previousHint, at.now, at.write);
        return Ok([], false), false, false;
      }

      changed := true;
      assert memory != null ==> memory.areaIdsByUser[dto.user := currentAreaIds] == old(memory.areaIdsByUser)[dto.user := currentAreaIds] by {
        assert memory != null ==>
          memory.areaIdsByUser == old(memory.areaIdsByUser) || memory.areaIdsByUser == old(memory.areaIdsByUser)[dto.user := previousHint];
      }
      r, noop := TakeChangePath(dto, currentAreaIds, stamp, at.write);
    }
  }

  function Fresh(areaIds: seq<AreaId>, now: int, ttls: Ttls): Entry { Entry(areaIds, now, ttls.Of(areaIds)) }

  ghost predicate HoldsListing(e: Entry, areas: set<AreaId>) { Elements(e.areaIds) == areas && NoDuplicates(e.areaIds) }

  /** No difference to an exact hint: the transition would have written nothing. */
  lemma NothingToDo(r: UserRows, current: seq<AreaId>, hint: seq<AreaId>, live: set<AreaId>, stamp: Stamp)
    requires NoDuplicates(current) && !Differs(current, hint) && Elements(hint) * live == r.presence
    ensures r == Transition(r, Elements(current) * live, stamp)
  {
    DiffersIsSetInequality(current, hint);
    TransitionToSamePresence(r, stamp);
  }

  lemma ListingDiffers(current: seq<AreaId>, listing: seq<AreaId>, areas: set<AreaId>)
    requires Elements(listing) == areas && NoDuplicates(listing)
    ensures Differs(current, listing) <==> |current| != |areas| || !(Elements(current) <= areas)
  {
    CountOfElements(listing);
    if !(Elements(current) <= areas) {
      var a :| a in Elements(current) && a !in areas;
      assert a in current && a !in listing;
    } else {
      assert forall a :: a in current ==> a in Elements(current);
    }
  }
}
