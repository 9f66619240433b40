/** The presence cache in Redis: the service that reads, fills and deletes a user's key, and what
    a hit is worth when many reports of one user race with each other. */
module PresenceCache {
  import opened Tables
  import opened Lists

  /** How a Redis command ends: carried out and answered, never carried out, or carried out with
      the answer lost. */
  datatype Reply = Answered | NotDone | AnswerLost {
    predicate Done() { !NotDone? }
  }

  datatype CacheRead = Hit(areaIds: seq<AreaId>) | Miss | Failed

  /** A key's value; Redis shows it for `ttl` seconds. */
  datatype Entry = Entry(areaIds: seq<AreaId>, setAt: int, ttl: nat) {
    predicate Alive(now: int) { now < setAt + ttl }
  }

  /** A list of areas lives longer or shorter depending on whether it is empty. */
  datatype Ttls = Ttls(empty: nat, nonEmpty: nat) {
    function Of(areaIds: seq<AreaId>): nat { OfKind(areaIds == []) }
    function OfKind(none: bool): nat { if none then empty else nonEmpty }
  }

  function Key(user: string): string { "presence:" + user }

  lemma KeyIsInjective(u1: string, u2: string)
    requires Key(u1) == Key(u2)
    ensures u1 == u2
  {
    assert Key(u1)[9..] == u1 && Key(u2)[9..] == u2;
  }

  // ----- the service

  class PresenceCacheService {
    const ttls: Ttls
    var redis: map<string, Entry>

    constructor (ttls: Ttls)
      ensures this.ttls == ttls && redis == map[]
    {
      this.ttls := ttls;
      redis := map[];
    }

    /** The living value of a user's key. */
    function Cached(user: string, now: int): Option<seq<AreaId>>
      reads this
    {
      if Key(user) in redis && redis[Key(user)].Alive(now) then Some(redis[Key(user)].areaIds) else None
    }

    method Get(user: string, now: int, reply: Reply) returns (r: CacheRead)
      ensures r.Failed? <==> reply != Answered
      ensures !r.Failed? ==> (r.Hit? <==> Cached(user, now).Some?)
      ensures r.Hit? ==> Cached(user, now) == Some(r.areaIds)
    {
      if reply != Answered {
        return Failed;
      }
      if Key(user) !in redis || !redis[Key(user)].Alive(now) {
        return Miss;
      }
      return Hit(redis[Key(user)].areaIds);
    }

    method Populate(user: string, areaIds: seq<AreaId>, now: int, reply: Reply)
      modifies `redis
      ensures redis == if reply.Done() then old(redis)[Key(user) := Entry(areaIds, now, ttls.Of(areaIds))] else old(redis)
      ensures reply.Done() ==> forall t ::
        Cached(user, t) == if t < now + (if |areaIds| == 0 then ttls.empty else ttls.nonEmpty) then Some(areaIds) else None
      ensures forall other, t :: other != user ==> Cached(other, t) == old(Cached(other, t))
    {
      var ttl := if |areaIds| == 0 then ttls.empty else ttls.nonEmpty;
      if reply.Done() {
        redis := redis[Key(user) := Entry(areaIds, now, ttl)];
      }
      OthersKeepTheirKeys(user);
    }

    /** Says whether the key is known to be gone. */
    method Invalidate(user: string, reply: Reply) returns (invalidated: bool)
      modifies `redis
      ensures redis == if reply.Done() then old(redis) - {Key(user)} else old(redis)
      ensures invalidated ==> forall t :: Cached(user, t) == None
      ensures !invalidated <==> reply != Answered
      ensures forall other, t :: other != user ==> Cached(other, t) == old(Cached(other, t))
    {
      if reply.Done() {
        redis := redis - {Key(user)};
      }
      invalidated := reply.Answered?;
      OthersKeepTheirKeys(user);
    }
  }

  lemma OthersKeepTheirKeys(user: string)
    ensures forall other :: other != user ==> Key(other) != Key(user)
  {
    forall other | other != user ensures Key(other) != Key(user) {
      if Key(other) == Key(user) {
        KeyIsInjective(other, user);
      }
    }
  }

  // ----- many reports of one user

  datatype Pc =
    | Arrived                      // about to ask the cache
    | Asking                       // no hit: about to read the table without a lock
    | HasHint                      // about to compare
    | Filling                      // no change after a clean miss: about to write the key
    | Changing                     // about to run the transaction
    | Dropping                     // committed: about to delete the key
    | Over

  /** One report. The hint is the presence as it stood at `version`, read from the table at
      `readAt`; when it came from the cache, `setAt` and `gotAt` are the times its key was written
      and read. */
  datatype Report = Report(current: seq<AreaId>, pc: Pc, saw: CacheRead, hint: seq<AreaId>,
                           version: nat, readAt: int, setAt: int, gotAt: int)

  /** The user's key, with the read that its value comes from. */
  datatype Cell = Cell(entry: Entry, version: nat, readAt: int, writer: nat)

  /** One value of the user's presence, and the time it came about. */
  datatype Presence = Presence(areas: set<AreaId>, since: int)

  /** `past` lists every value the user's presence has had; the last is the one in the table. */
  datatype State = State(now: int, past: seq<Presence>, cell: Option<Cell>, reports: seq<Report>)

  datatype Step =
    | Arrive(current: seq<AreaId>)
    | Get(r: nat, reply: Reply)
    | Read(r: nat, listing: seq<AreaId>)
    | Compare(r: nat)
    | Populate(r: nat, reply: Reply)
    | Commit(r: nat)
    | Invalidate(r: nat, reply: Reply)
    | Fail(r: nat)
    | WriteElsewhere(presence: set<AreaId>)      // another process, or a deleted area
    | Tick(seconds: nat)

  ghost predicate At(s: State, r: nat, pc: Pc) { r < |s.reports| && s.reports[r].pc == pc }

  ghost function Current(s: State): set<AreaId> { if s.past == [] then {} else s.past[|s.past| - 1].areas }

  ghost predicate Enabled(s: State, step: Step) {
    s.past != [] &&
    match step
    case Arrive(_) => true
    case Get(r, _) => At(s, r, Arrived)
    case Read(r, listing) => At(s, r, Asking) && Elements(listing) == Current(s) && NoDuplicates(listing)
    case Compare(r) => At(s, r, HasHint)
    case Populate(r, _) => At(s, r, Filling)
    case Commit(r) => At(s, r, Changing)
    case Invalidate(r, _) => At(s, r, Dropping)
    case Fail(r) => At(s, r, Asking) || At(s, r, Changing)
    case WriteElsewhere(_) => true
    case Tick(_) => true
  }

  /** The key Redis would show now. */
  ghost function Shown(s: State): Option<Cell> {
    if s.cell.Some? && s.cell.value.entry.Alive(s.now) then s.cell else None
  }

  ghost function Goto(s: State, r: nat, pc: Pc): State
    requires r < |s.reports|
  {
    s.(reports := s.reports[r := s.reports[r].(pc := pc)])
  }

  ghost function NextGet(s: State, r: nat, reply: Reply): State
    requires r < |s.reports|
  {
    if reply != Answered then s.(reports := s.reports[r := s.reports[r].(saw := Failed, pc := Asking)])
    else if Shown(s).None? then s.(reports := s.reports[r := s.reports[r].(saw := Miss, pc := Asking)])
    else
      var c := s.cell.value;
      s.(reports := s.reports[r := s.reports[r].(
        saw := Hit(c.entry.areaIds), hint := c.entry.areaIds, version := c.version, readAt := c.readAt,
        setAt := c.entry.setAt, gotAt := s.now, pc := HasHint)])
  }

  ghost function NextCompare(s: State, r: nat): State
    requires r < |s.reports|
  {
    var p := s.reports[r];
    Goto(s, r, if Differs(p.current, p.hint) then Changing else if p.saw.Miss? then Filling else Over)
  }

  ghost function Next(ttls: Ttls, s: State, step: Step): State
    requires Enabled(s, step)
  {
    match step
    case Arrive(current) => s.(reports := s.reports + [Report(current, Arrived, Miss, [], 0, 0, 0, 0)])
    case Get(r, reply) => NextGet(s, r, reply)
    case Read(r, listing) =>
      s.(reports := s.reports[r := s.reports[r].(hint := listing, version := |s.past| - 1, readAt := s.now, pc := HasHint)])
    case Compare(r) => NextCompare(s, r)
    case Populate(r, reply) =>
      var t := Goto(s, r, Over);
      var p := s.reports[r];
      if reply.Done() then t.(cell := Some(Cell(Entry(p.hint, s.now, ttls.Of(p.hint)), p.version, p.readAt, r))) else t
    case Commit(r) => Goto(s, r, Dropping).(past := s.past + [Presence(Elements(s.reports[r].current), s.now)])
    case Invalidate(r, reply) =>
      var t := Goto(s, r, Over);
      if reply.Done() then t.(cell := None) else t
    case Fail(r) => Goto(s, r, Over)
    case WriteElsewhere(presence) => s.(past := s.past + [Presence(presence, s.now)])
    case Tick(seconds) => s.(now := s.now + seconds)
  }

  ghost predicate Init(s: State) {
    s.past != [] && s.past[|s.past| - 1].since <= s.now && s.cell.None? && s.reports == []
  }

  // ----- what every run keeps

  ghost predicate IsPast(s: State, areaIds: seq<AreaId>, version: nat, readAt: int) {
    && version < |s.past| && Elements(areaIds) == s.past[version].areas && NoDuplicates(areaIds)
    && s.past[version].since <= readAt <= s.now
    && (version + 1 < |s.past| ==> readAt <= s.past[version + 1].since)
  }

  ghost predicate ReportFits(ttls: Ttls, s: State, p: Report) {
    && (p.pc.HasHint? || p.pc.Filling? ==> IsPast(s, p.hint, p.version, p.readAt))
    && (p.pc.Asking? ==> !p.saw.Hit?)
    && (p.pc.Filling? ==> p.saw.Miss?)
    && (p.pc.HasHint? && p.saw.Hit? ==> p.setAt <= p.gotAt < p.setAt + ttls.Of(p.hint))
  }

  ghost predicate CellFits(ttls: Ttls, s: State, c: Cell) {
    && IsPast(s, c.entry.areaIds, c.version, c.readAt)
    && c.entry.setAt <= s.now && c.entry.ttl == ttls.Of(c.entry.areaIds)
    && c.writer < |s.reports|
    && var w := s.reports[c.writer];
       w.pc.Over? && w.saw.Miss? && w.hint == c.entry.areaIds && w.version == c.version && w.readAt == c.readAt
  }

  ghost predicate Fits(ttls: Ttls, s: State) {
    && s.past != [] && s.past[|s.past| - 1].since <= s.now
    && (s.cell.Some? ==> CellFits(ttls, s, s.cell.value))
    && (forall r :: 0 <= r < |s.reports| ==> ReportFits(ttls, s, s.reports[r]))
  }

  lemma InitFits(ttls: Ttls, s: State)
    requires Init(s)
    ensures Fits(ttls, s)
  {
  }

  /** A step moves one report or none, only ever adds values to the past, and time goes forward. */
  lemma StepShape(ttls: Ttls, s: State, step: Step)
    requires Enabled(s, step)
    ensures var t := Next(ttls, s, step);
      && s.past <= t.past && (|s.past| < |t.past| ==> t.past[|s.past|].since == s.now) && s.now <= t.now && |s.reports| <= |t.reports|
      && (forall r :: 0 <= r < |s.reports| && s.reports[r].pc.Over? ==> t.reports[r] == s.reports[r])
  {
  }

  lemma ReportStaysFit(ttls: Ttls, s: State, t: State, p: Report)
    requires ReportFits(ttls, s, p) && s.past <= t.past && s.now <= t.now && (|s.past| < |t.past| ==> t.past[|s.past|].since == s.now)
    ensures ReportFits(ttls, t, p)
  {
  }

  lemma MovedReportFits(ttls: Ttls, s: State, step: Step, r: nat)
    requires Fits(ttls, s) && Enabled(s, step) && r < |s.reports|
    requires Next(ttls, s, step).reports[r] != s.reports[r]
    ensures ReportFits(ttls, Next(ttls, s, step), Next(ttls, s, step).reports[r])
  {
  }

  lemma ReportsFitNext(ttls: Ttls, s: State, step: Step, r: nat)
    requires Fits(ttls, s) && Enabled(s, step) && r < |Next(ttls, s, step).reports|
    ensures ReportFits(ttls, Next(ttls, s, step), Next(ttls, s, step).reports[r])
  {
    var t := Next(ttls, s, step);
    StepShape(ttls, s, step);
    if r < |s.reports| {
      if t.reports[r] == s.reports[r] {
        ReportStaysFit(ttls, s, t, s.reports[r]);
      } else {
        MovedReportFits(ttls, s, step, r);
      }
    }
  }

  lemma CellFitsNext(ttls: Ttls, s: State, step: Step)
    requires Fits(ttls, s) && Enabled(s, step) && Next(ttls, s, step).cell.Some?
    ensures CellFits(ttls, Next(ttls, s, step), Next(ttls, s, step).cell.value)
  {
    var t := Next(ttls, s, step);
    StepShape(ttls, s, step);
    if step.Populate? {
      assert ReportFits(ttls, s, s.reports[step.r]);
    } else {
      assert t.cell == s.cell;
    }
  }

  lemma FitsNext(ttls: Ttls, s: State, step: Step)
    requires Fits(ttls, s) && Enabled(s, step)
    ensures Fits(ttls, Next(ttls, s, step))
  {
    var t := Next(ttls, s, step);
    StepShape(ttls, s, step);
    forall r | 0 <= r < |t.reports| ensures ReportFits(ttls, t, t.reports[r]) {
      ReportsFitNext(ttls, s, step, r);
    }
    if t.cell.Some? {
      CellFitsNext(ttls, s, step);
    }
  }

  // ----- what a hit is worth

  /** A hit is the presence as it stood when some report read the table without a lock after a
      clean miss, and that report wrote the key less than one lifetime ago, the lifetime being
      the one for its value. */
  lemma HitIsBoundedPast(ttls: Ttls, s: State, r: nat)
    requires Fits(ttls, s) && Enabled(s, Get(r, Answered)) && Next(ttls, s, Get(r, Answered)).reports[r].saw.Hit?
    ensures var p := Next(ttls, s, Get(r, Answered)).reports[r];
      && p.saw == Hit(p.hint) && IsPast(s, p.hint, p.version, p.readAt)
      && p.setAt <= s.now < p.setAt + (if p.hint == [] then ttls.empty else ttls.nonEmpty)
      && exists w :: 0 <= w < |s.reports| && s.reports[w].saw.Miss? && s.reports[w].hint == p.hint && s.reports[w].version == p.version
  {
  }

  /** What a report records of its GET: a miss only when Redis answered and showed nothing. */
  lemma GetRecordsTheAnswer(ttls: Ttls, s: State, r: nat, reply: Reply)
    requires Enabled(s, Get(r, reply))
    ensures var p := Next(ttls, s, Get(r, reply)).reports[r];
      && (p.saw.Miss? <==> reply == Answered && Shown(s).None?)
      && (p.saw.Failed? <==> reply != Answered)
      && (p.saw.Hit? <==> reply == Answered && Shown(s).Some?)
      && (p.saw.Hit? ==> p.saw.areaIds == p.hint == Shown(s).value.entry.areaIds && p.pc.HasHint?)
      && (!p.saw.Hit? ==> p.pc.Asking?)
  {
  }

  /** Only a report that saw a clean miss and no difference ever writes the key. */
  lemma OnlyCleanMissesFill(ttls: Ttls, s: State, step: Step)
    requires Fits(ttls, s) && Enabled(s, step)
    requires Next(ttls, s, step).cell.Some? && Next(ttls, s, step).cell != s.cell
    ensures step.Populate? && s.reports[step.r].saw.Miss? && Next(ttls, s, step).cell.value.entry.areaIds == s.reports[step.r].hint
  {
  }

  /** When a report is let off without a transaction although it entered an area that the table
      does not show, the area was in its hint; the hint is an older presence, never the empty
      one, and a hint from the cache was read within the lifetime of a non-empty value. */
  lemma SuppressedEntryHasStaleHint(ttls: Ttls, s: State, r: nat, area: AreaId)
    requires Fits(ttls, s) && Enabled(s, Compare(r)) && !Next(ttls, s, Compare(r)).reports[r].pc.Changing?
    requires area in s.reports[r].current && area !in Current(s)
    ensures var p := s.reports[r];
      && p.hint != [] && area in p.hint
      && p.version + 1 < |s.past| && area in s.past[p.version].areas
      && (p.saw.Hit? ==> p.setAt <= p.gotAt < p.setAt + ttls.nonEmpty)
  {
  }

  /** A hint of no areas lets off only reports that are in no area. */
  lemma EmptyHintSuppressesNoEntry(ttls: Ttls, s: State, r: nat)
    requires Enabled(s, Compare(r)) && s.reports[r].hint == []
    requires !Next(ttls, s, Compare(r)).reports[r].pc.Changing?
    ensures s.reports[r].current == []
  {
  }

  // ----- runs

  ghost predicate IsRun(ttls: Ttls, s: State, steps: seq<Step>)
    decreases |steps|
  {
    steps == [] || (Enabled(s, steps[0]) && IsRun(ttls, Next(ttls, s, steps[0]), steps[1..]))
  }

  ghost function After(ttls: Ttls, s: State, steps: seq<Step>): State
    requires IsRun(ttls, s, steps)
    decreases |steps|
  {
    if steps == [] then s else After(ttls, Next(ttls, s, steps[0]), steps[1..])
  }

  lemma {:induction false} RunFits(ttls: Ttls, s: State, steps: seq<Step>)
    requires Fits(ttls, s) && IsRun(ttls, s, steps)
    ensures Fits(ttls, After(ttls, s, steps))
    decreases |steps|
  {
    if steps != [] {
      FitsNext(ttls, s, steps[0]);
      RunFits(ttls, Next(ttls, s, steps[0]), steps[1..]);
    }
  }

  /** After a clean miss report r is going to write a hint older than `mark`: it has found no
      difference, or will find none. */
  ghost predicate Carries(s: State, r: nat, mark: nat) {
    && r < |s.reports| && s.reports[r].saw.Miss? && s.reports[r].version < mark
    && (s.reports[r].pc.Filling? || (s.reports[r].pc.HasHint? && !Differs(s.reports[r].current, s.reports[r].hint)))
  }

  /** The key, and every report that may still write it, holds `mark` or later, except for the
      reports in `early`. */
  ghost predicate FreshExcept(s: State, mark: nat, early: set<nat>) {
    && mark < |s.past|
    && (s.cell.Some? && s.cell.value.version < mark ==> s.cell.value.writer in early)
    && (forall r: nat :: Carries(s, r, mark) ==> r in early)
  }

  lemma FreshNext(ttls: Ttls, s: State, step: Step, mark: nat, early: set<nat>)
    requires Fits(ttls, s) && Enabled(s, step) && FreshExcept(s, mark, early)
    ensures FreshExcept(Next(ttls, s, step), mark, early)
  {
    var t := Next(ttls, s, step);
    StepShape(ttls, s, step);
    forall r: nat | Carries(t, r, mark) ensures r in early {
      if r < |s.reports| {
        assert ReportFits(ttls, s, s.reports[r]);
      }
    }
    if step.Populate? {
      assert ReportFits(ttls, s, s.reports[step.r]);
      assert Carries(s, step.r, mark) || s.reports[step.r].version >= mark;
    }
  }

  /** A presence from before a successful delete comes back into the cache only through a report
      that had read it before the delete: whatever runs afterwards, a key older than `mark` was
      written by one of the reports that carried such a hint at the delete. */
  lemma {:induction false} DeletedKeyReturnsOnlyByEarlyReaders(ttls: Ttls, s: State, r: nat, steps: seq<Step>, early: set<nat>)
    requires Fits(ttls, s) && Enabled(s, Invalidate(r, Answered))
    requires forall q: nat :: Carries(s, q, |s.past| - 1) ==> q in early
    requires IsRun(ttls, Next(ttls, s, Invalidate(r, Answered)), steps)
    ensures var t := After(ttls, Next(ttls, s, Invalidate(r, Answered)), steps);
      t.cell.Some? && t.cell.value.version < |s.past| - 1 ==> t.cell.value.writer in early
  {
    var d := Next(ttls, s, Invalidate(r, Answered));
    FitsNext(ttls, s, Invalidate(r, Answered));
    forall q: nat | Carries(d, q, |s.past| - 1) ensures q in early {
      assert Carries(s, q, |s.past| - 1);
    }
    FreshRun(ttls, d, steps, |s.past| - 1, early);
  }

  lemma {:induction false} FreshRun(ttls: Ttls, s: State, steps: seq<Step>, mark: nat, early: set<nat>)
    requires Fits(ttls, s) && IsRun(ttls, s, steps) && FreshExcept(s, mark, early)
    ensures FreshExcept(After(ttls, s, steps), mark, early)
    decreases |steps|
  {
    if steps != [] {
      FitsNext(ttls, s, steps[0]);
      FreshNext(ttls, s, steps[0], mark, early);
      FreshRun(ttls, Next(ttls, s, steps[0]), steps[1..], mark, early);
    }
  }

  lemma {:induction false} Extend(ttls: Ttls, s: State, steps: seq<Step>, step: Step)
    requires IsRun(ttls, s, steps) && Enabled(After(ttls, s, steps), step)
    ensures IsRun(ttls, s, steps + [step])
    ensures After(ttls, s, steps + [step]) == Next(ttls, After(ttls, s, steps), step)
    decreases |steps|
  {
    var more := steps + [step];
    if steps == [] {
      assert more[1..] == [];
    } else {
      Extend(ttls, Next(ttls, s, steps[0]), steps[1..], step);
      assert more[1..] == steps[1..] + [step];
    }
  }

  /** The carried presence comes back: its report compares, if it has not yet, and writes it. */
  lemma CarriedComesBack(ttls: Ttls, s: State, q: nat, mark: nat) returns (steps: seq<Step>)
    requires Fits(ttls, s) && Carries(s, q, mark) && ttls.empty > 0 && ttls.nonEmpty > 0
    ensures IsRun(ttls, s, steps)
    ensures Shown(After(ttls, s, steps)).Some? && Shown(After(ttls, s, steps)).value.version < mark
  {
    steps := [];
    if s.reports[q].pc.HasHint? {
      Extend(ttls, s, steps, Compare(q));
      steps := steps + [Compare(q)];
    }
    Extend(ttls, s, steps, Populate(q, Answered));
    steps := steps + [Populate(q, Answered)];
  }

  /** An older presence can be shown again after a successful delete if and only if some report
      carries one past the delete. */
  lemma OldPresenceReturnsExactlyWhenCarried(ttls: Ttls, s: State, r: nat)
    requires Fits(ttls, s) && Enabled(s, Invalidate(r, Answered)) && ttls.empty > 0 && ttls.nonEmpty > 0
    ensures var d, mark := Next(ttls, s, Invalidate(r, Answered)), |s.past| - 1;
      (exists steps :: IsRun(ttls, d, steps) && Shown(After(ttls, d, steps)).Some? && Shown(After(ttls, d, steps)).value.version < mark)
      <==> exists q: nat :: Carries(s, q, mark)
  {
    var d, mark := Next(ttls, s, Invalidate(r, Answered)), |s.past| - 1;
    if q: nat :| Carries(s, q, mark) {
      assert Carries(d, q, mark);
      FitsNext(ttls, s, Invalidate(r, Answered));
      var steps := CarriedComesBack(ttls, d, q, mark);
    } else {
      forall steps | IsRun(ttls, d, steps) && Shown(After(ttls, d, steps)).Some?
        ensures Shown(After(ttls, d, steps)).value.version >= mark
      {
        DeletedKeyReturnsOnlyByEarlyReaders(ttls, s, r, steps, {});
      }
    }
  }

  // ----- whose write it is

  /** The state before step i of a run. */
  ghost function StateAt(ttls: Ttls, s: State, steps: seq<Step>, i: nat): State
    requires IsRun(ttls, s, steps) && i <= |steps|
    decreases |steps|
  {
    if i == 0 then s else StateAt(ttls, Next(ttls, s, steps[0]), steps[1..], i - 1)
  }

  lemma {:induction false} StepOfRun(ttls: Ttls, s: State, steps: seq<Step>, i: nat)
    requires IsRun(ttls, s, steps) && i < |steps|
    ensures Enabled(StateAt(ttls, s, steps, i), steps[i])
    ensures StateAt(ttls, s, steps, i + 1) == Next(ttls, StateAt(ttls, s, steps, i), steps[i])
    decreases |steps|
  {
    if i > 0 {
      StepOfRun(ttls, Next(ttls, s, steps[0]), steps[1..], i - 1);
    }
  }

  /** Step j is an answered GET of report r at a moment when Redis showed nothing. */
  ghost predicate CleanMissAt(ttls: Ttls, s: State, steps: seq<Step>, j: nat, r: nat)
    requires IsRun(ttls, s, steps)
  {
    j < |steps| && steps[j] == Get(r, Answered) && Shown(StateAt(ttls, s, steps, j)).None?
  }

  ghost predicate MissedBefore(ttls: Ttls, s: State, steps: seq<Step>, i: nat, r: nat)
    requires IsRun(ttls, s, steps)
  {
    exists j: nat :: j < i && CleanMissAt(ttls, s, steps, j, r)
  }

  /** The report is past its GET, which Redis answered with nothing. */
  predicate PastMiss(p: Report) { !p.pc.Arrived? && p.saw.Miss? }

  lemma StepMisses(ttls: Ttls, s: State, step: Step, r: nat)
    requires Enabled(s, step) && r < |Next(ttls, s, step).reports| && PastMiss(Next(ttls, s, step).reports[r])
    ensures (r < |s.reports| && PastMiss(s.reports[r])) || (step == Get(r, Answered) && Shown(s).None?)
  {
  }

  lemma {:induction false} MissHasItsGet(ttls: Ttls, s: State, steps: seq<Step>, i: nat, r: nat)
    requires Init(s) && IsRun(ttls, s, steps) && i <= |steps|
    requires var t := StateAt(ttls, s, steps, i); r < |t.reports| && PastMiss(t.reports[r])
    ensures MissedBefore(ttls, s, steps, i, r)
  {
    if i > 0 {
      var before := StateAt(ttls, s, steps, i - 1);
      StepOfRun(ttls, s, steps, i - 1);
      StepMisses(ttls, before, steps[i - 1], r);
      if r < |before.reports| && PastMiss(before.reports[r]) {
        MissHasItsGet(ttls, s, steps, i - 1, r);
      } else {
        assert CleanMissAt(ttls, s, steps, i - 1, r);
      }
    }
  }

  /** In every run, whichever step changes the key to a value is the write of a report whose own GET
      was answered at a moment when nothing was shown; an unanswered GET never writes back. */
  lemma EveryWriteFollowsACleanMiss(ttls: Ttls, s: State, steps: seq<Step>, i: nat)
    requires Init(s) && IsRun(ttls, s, steps) && i < |steps|
    requires StateAt(ttls, s, steps, i + 1).cell.Some?
    requires StateAt(ttls, s, steps, i + 1).cell != StateAt(ttls, s, steps, i).cell
    ensures steps[i].Populate? && MissedBefore(ttls, s, steps, i, steps[i].r)
  {
    var t := StateAt(ttls, s, steps, i);
    StepOfRun(ttls, s, steps, i);
    InitFits(ttls, s);
    FitsAt(ttls, s, steps, i);
    OnlyCleanMissesFill(ttls, t, steps[i]);
    MissHasItsGet(ttls, s, steps, i, steps[i].r);
  }

  lemma {:induction false} FitsAt(ttls: Ttls, s: State, steps: seq<Step>, i: nat)
    requires Fits(ttls, s) && IsRun(ttls, s, steps) && i <= |steps|
    ensures Fits(ttls, StateAt(ttls, s, steps, i))
    decreases |steps|
  {
    if i > 0 {
      FitsNext(ttls, s, steps[0]);
      FitsAt(ttls, Next(ttls, s, steps[0]), steps[1..], i - 1);
    }
  }

  // ----- the delete after a commit

  lemma StepKeepsDropping(ttls: Ttls, s: State, step: Step, r: nat)
    requires Enabled(s, step) && At(s, r, Dropping)
    ensures At(Next(ttls, s, step), r, Dropping) || (step.Invalidate? && step.r == r)
  {
  }

  /** Step j is the report's own delete. */
  predicate DeletesAt(steps: seq<Step>, j: nat, r: nat) { j < |steps| && steps[j].Invalidate? && steps[j].r == r }

  lemma {:induction false} DroppingUntilDeleted(ttls: Ttls, s: State, steps: seq<Step>, i: nat, k: nat, r: nat)
    requires IsRun(ttls, s, steps) && i <= k <= |steps| && At(StateAt(ttls, s, steps, i), r, Dropping)
    ensures At(StateAt(ttls, s, steps, k), r, Dropping) || exists j: nat :: i <= j < k && DeletesAt(steps, j, r)
    decreases k - i
  {
    if i < k {
      DroppingUntilDeleted(ttls, s, steps, i, k - 1, r);
      StepOfRun(ttls, s, steps, k - 1);
      if At(StateAt(ttls, s, steps, k - 1), r, Dropping) {
        StepKeepsDropping(ttls, StateAt(ttls, s, steps, k - 1), steps[k - 1], r);
        assert DeletesAt(steps, k - 1, r) || At(StateAt(ttls, s, steps, k), r, Dropping);
      }
    }
  }

  /** In every run, a report that has committed ends only after it has tried to delete the key. */
  lemma EveryCommitTriesItsDelete(ttls: Ttls, s: State, steps: seq<Step>, i: nat, k: nat, r: nat)
    requires IsRun(ttls, s, steps) && i < k <= |steps| && steps[i] == Commit(r)
    requires At(StateAt(ttls, s, steps, k), r, Over)
    ensures exists j: nat :: i < j < k && DeletesAt(steps, j, r)
  {
    StepOfRun(ttls, s, steps, i);
    DroppingUntilDeleted(ttls, s, steps, i + 1, k, r);
  }

  // ----- one report from beginning to end

  /** What a report compares with: the key when Redis answers with one, else the table. */
  ghost function HintFor(s: State, listing: seq<AreaId>, get: Reply): seq<AreaId> {
    if get == Answered && Shown(s).Some? then Shown(s).value.entry.areaIds else listing
  }

  /** The state in which the report has its hint. */
  ghost predicate Hinted(s: State, t: State, current: seq<AreaId>, listing: seq<AreaId>, get: Reply) {
    && t.past == s.past && t.cell == s.cell && t.now == s.now && |t.reports| == |s.reports| + 1 && t.reports[..|s.reports|] == s.reports
    && var p := t.reports[|s.reports|];
       && p.current == current && p.hint == HintFor(s, listing, get) && p.pc == HasHint
       && (p.saw.Miss? <==> get == Answered && Shown(s).None?)
       && (!p.saw.Hit? ==> p.version == |s.past| - 1 && p.readAt == s.now)
  }

  lemma ReportIsHinted(ttls: Ttls, s: State, current: seq<AreaId>, listing: seq<AreaId>, get: Reply) returns (steps: seq<Step>)
    requires s.past != [] && Elements(listing) == Current(s) && NoDuplicates(listing)
    ensures IsRun(ttls, s, steps) && Hinted(s, After(ttls, s, steps), current, listing, get)
  {
    var r := |s.reports|;
    steps := [];
    Extend(ttls, s, steps, Arrive(current));
    steps := steps + [Arrive(current)];
    Extend(ttls, s, steps, Get(r, get));
    steps := steps + [Get(r, get)];
    if After(ttls, s, steps).reports[r].pc.Asking? {
      Extend(ttls, s, steps, Read(r, listing));
      steps := steps + [Read(r, listing)];
    }
  }

  /** A report that meets no other and no error in the database. Without a difference to its hint the
      table stays, and the key is written only after a clean miss; with a difference the presence is
      replaced and the key deleted. */
  lemma OneReportAlone(ttls: Ttls, s: State, current: seq<AreaId>, listing: seq<AreaId>, get: Reply, write: Reply) returns (steps: seq<Step>)
    requires s.past != [] && Elements(listing) == Current(s) && NoDuplicates(listing)
    ensures IsRun(ttls, s, steps)
    ensures var t, r, hint := After(ttls, s, steps), |s.reports|, HintFor(s, listing, get);
      && |t.reports| == r + 1 && t.reports[..r] == s.reports && t.reports[r].pc.Over? && t.now == s.now
      && if Differs(current, hint)
         then && t.past == s.past + [Presence(Elements(current), s.now)]
              && t.cell == if write.Done() then None else s.cell
         else && t.past == s.past
              && t.cell == if get == Answered && Shown(s).None? && write.Done()
                           then Some(Cell(Entry(hint, s.now, if hint == [] then ttls.empty else ttls.nonEmpty), |s.past| - 1, s.now, r))
                           else s.cell
  {
    var r := |s.reports|;
    steps := ReportIsHinted(ttls, s, current, listing, get);
    Extend(ttls, s, steps, Compare(r));
    steps := steps + [Compare(r)];
    var pc := After(ttls, s, steps).reports[r].pc;
    if pc.Changing? {
      Extend(ttls, s, steps, Commit(r));
      steps := steps + [Commit(r)];
      Extend(ttls, s, steps, Invalidate(r, write));
      steps := steps + [Invalidate(r, write)];
    } else if pc.Filling? {
      Extend(ttls, s, steps, Populate(r, write));
      steps := steps + [Populate(r, write)];
    }
  }

  // ----- how old a hit can be

  /** The step writes a key of the given kind: no areas, or some. */
  ghost predicate Fills(s: State, step: Step, none: bool) {
    step.Populate? && step.reply.Done() && step.r < |s.reports| && (s.reports[step.r].hint == [] <==> none)
  }

  /** Every key of that kind is written at most `d` after its report read the table. */
  ghost predicate Prompt(ttls: Ttls, s: State, steps: seq<Step>, none: bool, d: int)
    requires IsRun(ttls, s, steps)
    decreases |steps|
  {
    steps == [] || (
      && (Fills(s, steps[0], none) ==> s.now - s.reports[steps[0].r].readAt <= d)
      && Prompt(ttls, Next(ttls, s, steps[0]), steps[1..], none, d))
  }

  /** What Redis would show at a later time if nobody touched the key was read less than `age`
      before that time. */
  ghost predicate Young(s: State, none: bool, age: int) {
    s.cell.Some? && (s.cell.value.entry.areaIds == [] <==> none)
    ==> forall t :: t >= s.now && s.cell.value.entry.Alive(t) ==> t - s.cell.value.readAt < age
  }

  ghost predicate AlwaysYoung(ttls: Ttls, s: State, steps: seq<Step>, none: bool, age: int)
    requires IsRun(ttls, s, steps)
    decreases |steps|
  {
    Young(s, none, age) && (steps != [] ==> AlwaysYoung(ttls, Next(ttls, s, steps[0]), steps[1..], none, age))
  }

  /** Keys, and hits not yet compared, were written at most `d` after the read behind them. */
  ghost predicate PromptSoFar(s: State, none: bool, d: int) {
    && (s.cell.Some? && (s.cell.value.entry.areaIds == [] <==> none) ==> s.cell.value.entry.setAt - s.cell.value.readAt <= d)
    && (forall r :: 0 <= r < |s.reports| && s.reports[r].pc.HasHint? && s.reports[r].saw.Hit? && (s.reports[r].hint == [] <==> none)
          ==> s.reports[r].setAt - s.reports[r].readAt <= d)
  }

  lemma PromptNext(ttls: Ttls, s: State, step: Step, none: bool, d: int)
    requires Fits(ttls, s) && Enabled(s, step) && PromptSoFar(s, none, d)
    requires Fills(s, step, none) ==> s.now - s.reports[step.r].readAt <= d
    ensures PromptSoFar(Next(ttls, s, step), none, d)
  {
    forall r | 0 <= r < |s.reports| && s.reports[r].pc.Asking? ensures !s.reports[r].saw.Hit? {
      assert ReportFits(ttls, s, s.reports[r]);
    }
  }

  /** A key written too late is too old in the last second of its lifetime. */
  lemma LateFillIsOld(ttls: Ttls, s: State, step: Step, none: bool, d: int)
    requires Fits(ttls, s) && Enabled(s, step) && Fills(s, step, none) && ttls.OfKind(none) > 0
    requires s.now - s.reports[step.r].readAt > d
    ensures !Young(Next(ttls, s, step), none, d + ttls.OfKind(none))
  {
    var c := Next(ttls, s, step).cell.value;
    assert c.entry.Alive(s.now + ttls.OfKind(none) - 1);
  }

  lemma {:induction false} YoungFromHere(ttls: Ttls, s: State, steps: seq<Step>, none: bool, d: int)
    requires Fits(ttls, s) && IsRun(ttls, s, steps) && PromptSoFar(s, none, d) && ttls.OfKind(none) > 0
    ensures AlwaysYoung(ttls, s, steps, none, d + ttls.OfKind(none)) <==> Prompt(ttls, s, steps, none, d)
    decreases |steps|
  {
    if steps != [] {
      var t := Next(ttls, s, steps[0]);
      if Fills(s, steps[0], none) && s.now - s.reports[steps[0].r].readAt > d {
        LateFillIsOld(ttls, s, steps[0], none, d);
      } else {
        FitsNext(ttls, s, steps[0]);
        PromptNext(ttls, s, steps[0], none, d);
        YoungFromHere(ttls, t, steps[1..], none, d);
      }
    }
  }

  /** For either lifetime and every delay: at every moment of the run, and for as long after it as
      Redis shows the key, the presence shown was read less than the delay plus the lifetime ago,
      if and only if every such key was written at most the delay after its report read it. */
  lemma YoungExactlyWhenPrompt(ttls: Ttls, s: State, steps: seq<Step>, none: bool, d: int)
    requires Init(s) && IsRun(ttls, s, steps) && ttls.OfKind(none) > 0
    ensures AlwaysYoung(ttls, s, steps, none, d + ttls.OfKind(none)) <==> Prompt(ttls, s, steps, none, d)
  {
    InitFits(ttls, s);
    YoungFromHere(ttls, s, steps, none, d);
  }

  lemma {:induction false} RunIsPrompt(ttls: Ttls, s: State, steps: seq<Step>, none: bool, d: int)
    requires Fits(ttls, s) && IsRun(ttls, s, steps) && PromptSoFar(s, none, d) && Prompt(ttls, s, steps, none, d)
    ensures PromptSoFar(After(ttls, s, steps), none, d)
    decreases |steps|
  {
    if steps != [] {
      FitsNext(ttls, s, steps[0]);
      PromptNext(ttls, s, steps[0], none, d);
      RunIsPrompt(ttls, Next(ttls, s, steps[0]), steps[1..], none, d);
    }
  }

  /** When keys are written at most `d` after the read behind them, a hit that lets an entry off
      was given less than `d` and the lifetime of a non-empty value after the presence that it
      shows had ended. */
  lemma SuppressionIsBounded(ttls: Ttls, s: State, steps: seq<Step>, r: nat, area: AreaId, d: int)
    requires Init(s) && IsRun(ttls, s, steps) && Prompt(ttls, s, steps, false, d)
    requires Enabled(After(ttls, s, steps), Compare(r)) && !Next(ttls, After(ttls, s, steps), Compare(r)).reports[r].pc.Changing?
    requires area in After(ttls, s, steps).reports[r].current && area !in Current(After(ttls, s, steps))
    requires After(ttls, s, steps).reports[r].saw.Hit?
    ensures var t := After(ttls, s, steps);
      var p := t.reports[r];
      && p.version + 1 < |t.past| && area in t.past[p.version].areas
      && p.readAt <= t.past[p.version + 1].since
      && p.gotAt - p.readAt < d + ttls.nonEmpty
      && p.gotAt - t.past[p.version + 1].since < d + ttls.nonEmpty
  {
    EverySuppressionIsStale(ttls, s, steps, r, area);
    InitFits(ttls, s);
    RunFits(ttls, s, steps);
    RunIsPrompt(ttls, s, steps, false, d);
    assert ReportFits(ttls, After(ttls, s, steps), After(ttls, s, steps).reports[r]);
  }

  // ----- what the lifetime does not bound

  /** A user in area 1 whose exit commits while a report still holds its unlocked read. */
  ghost function LateWriter(ttls: Ttls, delay: nat): State {
    State(delay, [Presence({1}, 0), Presence({}, 0)], None, [Report([1], Filling, Miss, [1], 0, 0, 0, 0)])
  }

  lemma LateWriterIsReachable(ttls: Ttls, delay: nat) returns (steps: seq<Step>)
    ensures var s := State(0, [Presence({1}, 0)], None, []);
      Init(s) && IsRun(ttls, s, steps) && After(ttls, s, steps) == LateWriter(ttls, delay)
  {
    var s := State(0, [Presence({1}, 0)], None, []);
    assert Elements([1]) == {1};
    steps := [];
    Extend(ttls, s, steps, Arrive([1]));
    steps := steps + [Arrive([1])];
    Extend(ttls, s, steps, Get(0, Answered));
    steps := steps + [Get(0, Answered)];
    Extend(ttls, s, steps, Read(0, [1]));
    steps := steps + [Read(0, [1])];
    Extend(ttls, s, steps, WriteElsewhere({}));
    steps := steps + [WriteElsewhere({})];
    Extend(ttls, s, steps, Tick(delay));
    steps := steps + [Tick(delay)];
    Extend(ttls, s, steps, Compare(0));
    steps := steps + [Compare(0)];
  }

  /** The lifetime counts from the write of the key, not from the read behind it: for every delay
      between the two there is a run in which a report is let off on a hit although it entered its
      area, in the last second that `SuppressionIsBounded` leaves. */
  lemma StaleHitCanSuppressAnEntry(ttls: Ttls, delay: nat) returns (steps: seq<Step>)
    requires ttls.nonEmpty > 0
    ensures var s := LateWriter(ttls, delay);
      && IsRun(ttls, s, steps)
      && var t := After(ttls, s, steps);
         && Current(t) == {} && t.past == s.past
         && |t.reports| == 2 && t.reports[1].current == [1] && t.reports[1].saw == Hit([1]) && t.reports[1].pc.Over?
         && t.reports[1].version == 0 && t.reports[1].gotAt - t.past[1].since == delay + ttls.nonEmpty - 1
  {
    var s := LateWriter(ttls, delay);
    steps := [];
    Extend(ttls, s, steps, Populate(0, Answered));
    steps := steps + [Populate(0, Answered)];
    Extend(ttls, s, steps, Arrive([1]));
    steps := steps + [Arrive([1])];
    Extend(ttls, s, steps, Tick(ttls.nonEmpty - 1));
    steps := steps + [Tick(ttls.nonEmpty - 1)];
    Extend(ttls, s, steps, Get(1, Answered));
    steps := steps + [Get(1, Answered)];
    Extend(ttls, s, steps, Compare(1));
    steps := steps + [Compare(1)];
  }

  // ----- the same for every run

  /** The answer to a cache read at the end of any run: presence as some report read it after a
      clean miss, written less than the lifetime for that value ago. */
  lemma EveryHitIsBoundedPast(ttls: Ttls, s: State, steps: seq<Step>)
    requires Init(s) && IsRun(ttls, s, steps) && Shown(After(ttls, s, steps)).Some?
    ensures var t := After(ttls, s, steps);
      var c := Shown(t).value;
      && IsPast(t, c.entry.areaIds, c.version, c.readAt)
      && c.entry.setAt <= t.now < c.entry.setAt + (if c.entry.areaIds == [] then ttls.empty else ttls.nonEmpty)
      && t.now - c.readAt < (c.entry.setAt - c.readAt) + (if c.entry.areaIds == [] then ttls.empty else ttls.nonEmpty)
      && c.writer < |t.reports| && t.reports[c.writer].saw.Miss?
      && t.reports[c.writer].hint == c.entry.areaIds && t.reports[c.writer].version == c.version
      && t.reports[c.writer].readAt == c.readAt
  {
    InitFits(ttls, s);
    RunFits(ttls, s, steps);
    assert CellFits(ttls, After(ttls, s, steps), Shown(After(ttls, s, steps)).value);
  }

  /** In every run a report that is let off although it entered an area carries an outdated,
      non-empty hint with that area in it. */
  lemma EverySuppressionIsStale(ttls: Ttls, s: State, steps: seq<Step>, r: nat, area: AreaId)
    requires Init(s) && IsRun(ttls, s, steps) && Enabled(After(ttls, s, steps), Compare(r))
    requires !Next(ttls, After(ttls, s, steps), Compare(r)).reports[r].pc.Changing?
    requires area in After(ttls, s, steps).reports[r].current && area !in Current(After(ttls, s, steps))
    ensures var t := After(ttls, s, steps);
      var p := t.reports[r];
      && area in p.hint && p.version + 1 < |t.past| && area in t.past[p.version].areas
      && (p.saw.Hit? ==> p.setAt <= p.gotAt < p.setAt + ttls.nonEmpty)
  {
    InitFits(ttls, s);
    RunFits(ttls, s, steps);
    SuppressedEntryHasStaleHint(ttls, After(ttls, s, steps), r, area);
  }
}
