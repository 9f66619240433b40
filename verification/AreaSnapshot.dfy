/** The versioned area snapshot of one process: rebuilds run one after the other, each reads the
    version first and the rows second, and races with area creation, polls and failures. */
module AreaSnapshot {
  import opened Tables

  /** Areas are immutable once created, so a set of ids stands for the rows. */
  datatype Snapshot = Snapshot(version: nat, areas: set<AreaId>)

  /** One link of the rebuild chain. An answered query is in flight until the process resumes. */
  datatype Job =
    | Waiting
    | HasVersion(version: nat)
    | HasRows(version: nat, areas: set<AreaId>)
    | Installed
    | Failed
  {
    predicate Finished() { Installed? || Failed? }
  }

  datatype Service = Service(snapshot: Option<Snapshot>, jobs: seq<Job>)

  /** `rebuildChain.then(rebuild)` with a chain that swallows failures. */
  predicate HasTurn(s: Service, k: nat) {
    k < |s.jobs| && !s.jobs[k].Finished() && forall j :: 0 <= j < k ==> s.jobs[j].Finished()
  }

  function Enqueued(s: Service): Service { s.(jobs := s.jobs + [Waiting]) }

  function WithJob(s: Service, k: nat, job: Job): Service
    requires k < |s.jobs|
  {
    s.(jobs := s.jobs[k := job])
  }

  function InstalledBy(s: Service, k: nat): Service
    requires k < |s.jobs| && s.jobs[k].HasRows?
  {
    Service(Some(Snapshot(s.jobs[k].version, s.jobs[k].areas)), s.jobs[k := Installed])
  }

  predicate PollWantsRebuild(s: Service, version: nat) {
    s.snapshot.None? || s.snapshot.value.version != version
  }

  // ----- the service among other processes

  /** Contents of the two tables. `created` lists the areas ever created up to here. */
  datatype Db = Db(version: nat, areas: set<AreaId>, created: set<AreaId>)

  /** When a job was enqueued and when its two queries were answered, as positions in `past`. */
  datatype Times = Times(enqueuedAt: nat, versionAt: nat, rowsAt: nat)

  /** A poll whose version query is answered and which has not decided yet. */
  datatype Asked = Poll(version: nat, askedAt: nat)

  datatype State = State(
    past: seq<Db>,                // every contents the tables ever had; the last is current
    service: Service,
    times: seq<Times>,            // parallel to service.jobs
    installed: Option<nat>,       // the job that wrote the snapshot
    polls: set<Asked>)

  datatype Step =
    | CreateArea(area: AreaId)
    | DeleteArea(area: AreaId)
    | Refresh
    | ReadVersion(k: nat)
    | ReadRows(k: nat)
    | Install(k: nat)
    | Fail(k: nat)
    | AskPoll
    | DecidePoll(poll: Asked)

  function Now(s: State): nat
    requires s.past != []
  {
    |s.past| - 1
  }

  function Current(s: State): Db
    requires s.past != []
  {
    s.past[|s.past| - 1]
  }

  predicate JobReady(s: State, k: nat) {
    HasTurn(s.service, k) && |s.times| == |s.service.jobs|
  }

  predicate Enabled(s: State, step: Step) {
    s.past != [] &&
    match step
    case CreateArea(a) => a !in Current(s).created
    case DeleteArea(a) => a in Current(s).areas
    case Refresh => true
    case ReadVersion(k) => JobReady(s, k) && s.service.jobs[k].Waiting?
    case ReadRows(k) => JobReady(s, k) && s.service.jobs[k].HasVersion?
    case Install(k) => JobReady(s, k) && s.service.jobs[k].HasRows?
    case Fail(k) => JobReady(s, k) && (s.service.jobs[k].Waiting? || s.service.jobs[k].HasVersion?)
    case AskPoll => true
    case DecidePoll(poll) => poll in s.polls
  }

  function Queued(s: State): State
    requires s.past != []
  {
    s.(service := Enqueued(s.service), times := s.times + [Times(Now(s), Now(s), Now(s))])
  }

  function Next(s: State, step: Step): State
    requires Enabled(s, step)
  {
    match step
    case CreateArea(a) =>
      // The insert and the version bump commit together.
      var d := Current(s);
      s.(past := s.past + [Db(d.version + 1, d.areas + {a}, d.created + {a})])
    case DeleteArea(a) =>
      // Out of band: no endpoint deletes, and nothing bumps the version.
      var d := Current(s);
      s.(past := s.past + [d.(areas := d.areas - {a})])
    case Refresh => Queued(s)
    case ReadVersion(k) =>
      s.(service := WithJob(s.service, k, HasVersion(Current(s).version)),
         times := s.times[k := s.times[k].(versionAt := Now(s))])
    case ReadRows(k) =>
      s.(service := WithJob(s.service, k, HasRows(s.service.jobs[k].version, Current(s).areas)),
         times := s.times[k := s.times[k].(rowsAt := Now(s))])
    case Install(k) => s.(service := InstalledBy(s.service, k), installed := Some(k))
    case Fail(k) => s.(service := WithJob(s.service, k, Failed))
    case AskPoll => s.(polls := s.polls + {Poll(Current(s).version, Now(s))})
    case DecidePoll(poll) =>
      var t := s.(polls := s.polls - {poll});
      if PollWantsRebuild(s.service, poll.version) then Queued(t) else t
  }

  // ----- invariants

  /** Versions and creations only grow, the version counts the creations, and a deleted area never
      returns. */
  ghost predicate PastFits(past: seq<Db>) {
    && past != []
    && (forall i, j :: 0 <= i <= j < |past| ==> past[i].version <= past[j].version && past[i].created <= past[j].created)
    && (forall i, j :: 0 <= i <= j < |past| && past[i].version == past[j].version ==> past[i].created == past[j].created)
    && (forall i :: 0 <= i < |past| ==> past[i].areas <= past[i].created)
    && (forall i, j :: 0 <= i <= j < |past| ==> Gone(past[i]) !! past[j].areas)
  }

  /** Created once and no longer there. */
  function Gone(d: Db): set<AreaId> { d.created - d.areas }

  /** What a job has read is what the tables held when it read. */
  ghost predicate JobFits(past: seq<Db>, job: Job, t: Times) {
    && t.enqueuedAt <= t.versionAt < |past| && t.rowsAt < |past|
    && (job.HasVersion? ==> job.version == past[t.versionAt].version)
    && (job.HasRows? ==> job.version == past[t.versionAt].version && t.versionAt <= t.rowsAt && job.areas == past[t.rowsAt].areas)
  }

  /** The snapshot is what its job read; later jobs read later; finished jobs are not newer. */
  ghost predicate SnapshotFits(s: State) {
    match s.installed
    case None => s.service.snapshot.None? && forall k :: 0 <= k < |s.service.jobs| ==> !s.service.jobs[k].Installed?
    case Some(i) =>
      && i < |s.service.jobs| == |s.times| && s.service.jobs[i].Installed?
      && s.times[i].enqueuedAt <= s.times[i].versionAt <= s.times[i].rowsAt < |s.past|
      && s.service.snapshot == Some(Snapshot(s.past[s.times[i].versionAt].version, s.past[s.times[i].rowsAt].areas))
      && forall k :: 0 <= k < |s.service.jobs| ==>
           && (s.service.jobs[k].Installed? ==> k <= i && s.times[k].enqueuedAt <= s.times[i].rowsAt)
           && (s.service.jobs[k].HasVersion? || s.service.jobs[k].HasRows? ==> i < k && s.times[i].rowsAt <= s.times[k].versionAt)
  }

  ghost predicate Fits(s: State) {
    && PastFits(s.past)
    && |s.times| == |s.service.jobs|
    && (forall k :: 0 <= k < |s.times| ==> JobFits(s.past, s.service.jobs[k], s.times[k]))
    && (forall j, k :: 0 <= j < k < |s.service.jobs| && !s.service.jobs[k].Waiting? ==> s.service.jobs[j].Finished())
    && SnapshotFits(s)
    && (forall p :: p in s.polls ==> p.askedAt < |s.past| && p.version == s.past[p.askedAt].version)
  }

  lemma PastGrows(past: seq<Db>, d: Db)
    requires PastFits(past)
    requires var last := past[|past| - 1];
      last.created <= d.created && (last.version < d.version || (last.version == d.version && last.created == d.created))
    requires d.areas <= d.created && Gone(past[|past| - 1]) !! d.areas
    ensures PastFits(past + [d])
  {
    var longer, n := past + [d], |past|;
    forall i, j | 0 <= i <= j < |longer| ensures Gone(longer[i]) !! longer[j].areas {
      if i < j == n {
        assert Gone(past[i]) !! past[n - 1].areas && past[i].created <= past[n - 1].created;
        assert Gone(past[i]) <= Gone(past[n - 1]);
      }
    }
  }

  lemma AreaStepFits(s: State, step: Step)
    requires Fits(s) && Enabled(s, step) && (step.CreateArea? || step.DeleteArea?)
    ensures Fits(Next(s, step))
  {
    var n := Next(s, step);
    PastGrows(s.past, n.past[|s.past|]);
    assert n.past == s.past + [n.past[|s.past|]];
    forall k | 0 <= k < |n.times| ensures JobFits(n.past, n.service.jobs[k], n.times[k]) {
      assert JobFits(s.past, s.service.jobs[k], s.times[k]);
    }
  }

  lemma QueuedFits(s: State)
    requires Fits(s)
    ensures Fits(Queued(s))
  {
  }

  lemma JobsFitAfterJobStep(s: State, step: Step, k: nat)
    requires Fits(s) && Enabled(s, step) && (step.ReadVersion? || step.ReadRows? || step.Fail?) && k < |s.times|
    ensures var n := Next(s, step);
      |n.times| == |n.service.jobs| == |s.times| && JobFits(n.past, n.service.jobs[k], n.times[k])
  {
    assert JobFits(s.past, s.service.jobs[k], s.times[k]);
    assert JobFits(s.past, s.service.jobs[step.k], s.times[step.k]);
  }

  lemma SnapshotFitsAfterJobStep(s: State, step: Step)
    requires Fits(s) && Enabled(s, step) && (step.ReadVersion? || step.ReadRows? || step.Fail?)
    ensures |Next(s, step).times| == |Next(s, step).service.jobs| && SnapshotFits(Next(s, step))
  {
    assert JobFits(s.past, s.service.jobs[step.k], s.times[step.k]);
  }

  /** Steps of the job that has its turn. */
  lemma JobStepFits(s: State, step: Step)
    requires Fits(s) && Enabled(s, step) && (step.ReadVersion? || step.ReadRows? || step.Fail?)
    ensures Fits(Next(s, step))
  {
    var n := Next(s, step);
    SnapshotFitsAfterJobStep(s, step);
    forall k | 0 <= k < |n.times| ensures JobFits(n.past, n.service.jobs[k], n.times[k]) {
      JobsFitAfterJobStep(s, step, k);
    }
  }

  lemma InstallFits(s: State, k: nat)
    requires Fits(s) && Enabled(s, Install(k))
    ensures Fits(Next(s, Install(k)))
  {
  }

  lemma FitsNext(s: State, step: Step)
    requires Fits(s) && Enabled(s, step)
    ensures Fits(Next(s, step))
  {
    match step
    case CreateArea(_) => AreaStepFits(s, step);
    case DeleteArea(_) => AreaStepFits(s, step);
    case Refresh => QueuedFits(s);
    case ReadVersion(_) => JobStepFits(s, step);
    case ReadRows(_) => JobStepFits(s, step);
    case Fail(_) => JobStepFits(s, step);
    case Install(k) => InstallFits(s, k);
    case AskPoll =>
    case DecidePoll(poll) =>
      assert Fits(s.(polls := s.polls - {poll}));
      QueuedFits(s.(polls := s.polls - {poll}));
  }

  predicate IsRun(s: State, steps: seq<Step>)
    decreases |steps|
  {
    steps == [] || (Enabled(s, steps[0]) && IsRun(Next(s, steps[0]), steps[1..]))
  }

  function After(s: State, steps: seq<Step>): State
    requires IsRun(s, steps)
    decreases |steps|
  {
    if steps == [] then s else After(Next(s, steps[0]), steps[1..])
  }

  /** A process that has just started, whatever the tables hold. */
  lemma StartFits(db: Db)
    requires db.areas <= db.created
    ensures Fits(Start(db))
  {
  }

  lemma {:induction false} RunFits(s: State, steps: seq<Step>)
    requires Fits(s) && IsRun(s, steps)
    ensures Fits(After(s, steps))
    decreases |steps|
  {
    if steps != [] {
      FitsNext(s, steps[0]);
      RunFits(Next(s, steps[0]), steps[1..]);
    }
  }

  // ----- what the snapshot holds

  /** The moment whose rows the snapshot holds, if there is a snapshot. */
  function SnapshotMoment(s: State): nat
    requires |s.times| == |s.service.jobs| && s.installed.Some? && s.installed.value < |s.times|
  {
    s.times[s.installed.value].rowsAt
  }

  /** The snapshot equals the tables at one moment of the past, and its label is not newer than
      the version at that moment. */
  lemma SnapshotIsConsistent(s: State)
    requires Fits(s) && s.service.snapshot.Some?
    ensures s.installed.Some? && s.installed.value < |s.times| && SnapshotMoment(s) < |s.past|
    ensures s.service.snapshot.value.areas == s.past[SnapshotMoment(s)].areas
    ensures s.service.snapshot.value.version <= s.past[SnapshotMoment(s)].version <= Current(s).version
  {
  }

  /** Neither the label nor the moment of the snapshot ever goes back. */
  lemma SnapshotNeverGoesBack(s: State, step: Step)
    requires Fits(s) && Enabled(s, step) && s.service.snapshot.Some?
    ensures var n := Next(s, step);
      && n.service.snapshot.Some? && s.installed.Some? && n.installed.Some?
      && s.installed.value < |s.times| == |s.service.jobs| && n.installed.value < |n.times| == |n.service.jobs|
      && SnapshotMoment(s) <= SnapshotMoment(n)
      && s.service.snapshot.value.version <= n.service.snapshot.value.version
  {
  }

  /** A poll that decides not to rebuild: every area created before the poll's query was
      answered had been created when the snapshot's rows were read. */
  lemma QuietPollMissesNothing(s: State, poll: Asked)
    requires Fits(s) && Enabled(s, DecidePoll(poll))
    requires Next(s, DecidePoll(poll)).service.jobs == s.service.jobs
    ensures s.service.snapshot.Some? && s.installed.Some? && s.installed.value < |s.times|
    ensures poll.askedAt < |s.past| && SnapshotMoment(s) < |s.past|
    ensures s.past[poll.askedAt].created <= s.past[SnapshotMoment(s)].created
  {
  }

  /** Read your writes. When the refresh that was enqueued as job k has resolved, the snapshot
      holds the tables of a moment no earlier than the enqueueing, whatever older rebuilds did. */
  lemma ResolvedRefreshIsFresh(s: State, k: nat)
    requires Fits(s) && k < |s.service.jobs| && s.service.jobs[k].Installed?
    ensures s.installed.Some? && s.installed.value < |s.times|
    ensures s.times[k].enqueuedAt <= SnapshotMoment(s)
  {
  }

  lemma {:induction false} RunKeepsMoment(s: State, steps: seq<Step>, m: nat)
    requires Fits(s) && IsRun(s, steps) && s.service.snapshot.Some? && s.installed.Some? && s.installed.value < |s.times|
    requires m <= SnapshotMoment(s)
    ensures var n := After(s, steps);
      && Fits(n) && n.service.snapshot.Some? && n.installed.Some? && n.installed.value < |n.times|
      && m <= SnapshotMoment(n)
    decreases |steps|
  {
    if steps != [] {
      FitsNext(s, steps[0]);
      SnapshotNeverGoesBack(s, steps[0]);
      RunKeepsMoment(Next(s, steps[0]), steps[1..], m);
    }
  }

  /** Once rebuild k has installed, every later snapshot was read no earlier than its enqueueing. */
  lemma LaterSnapshotsAreFresh(s: State, k: nat, steps: seq<Step>, later: seq<Step>)
    requires Fits(s) && k < |s.times| && IsRun(s, steps)
    requires k < |After(s, steps).service.jobs| && After(s, steps).service.jobs[k].Installed?
    requires IsRun(After(s, steps), later)
    ensures var n := After(After(s, steps), later);
      && Fits(n) && n.service.snapshot.Some? && n.installed.Some? && n.installed.value < |n.times|
      && s.times[k].enqueuedAt <= SnapshotMoment(n)
  {
    RunFits(s, steps);
    TimesAreKept(s, steps, k);
    ResolvedRefreshIsFresh(After(s, steps), k);
    RunKeepsMoment(After(s, steps), later, s.times[k].enqueuedAt);
  }

  lemma CreatedStaysCreated(s: State, steps: seq<Step>, later: seq<Step>, at: nat, moment: nat)
    requires IsRun(s, steps) && IsRun(After(s, steps), later) && at < |s.past|
    requires PastFits(After(After(s, steps), later).past) && at <= moment < |After(After(s, steps), later).past|
    ensures s.past[at].created <= After(After(s, steps), later).past[moment].created
  {
    var n := After(After(s, steps), later);
    PastIsKept(s, steps);
    PastIsKept(After(s, steps), later);
    assert n.past[at] == After(s, steps).past[at] == s.past[at];
  }

  /** Area creation as the service performs it: commit, then refresh, then wait for that refresh.
      Every lookup afterwards, in any continuation, uses rows read no earlier than the commit. */
  lemma CreatorReadsOwnArea(s: State, area: AreaId, steps: seq<Step>, later: seq<Step>)
    requires Fits(s) && Enabled(s, CreateArea(area))
    requires var committed := Next(Next(s, CreateArea(area)), Refresh);
      && IsRun(committed, steps)
      && var k := |s.service.jobs|;
         k < |After(committed, steps).service.jobs| && After(committed, steps).service.jobs[k].Installed?
    requires IsRun(After(Next(Next(s, CreateArea(area)), Refresh), steps), later)
    ensures var n := After(After(Next(Next(s, CreateArea(area)), Refresh), steps), later);
      && Fits(n) && n.service.snapshot.Some? && n.installed.Some? && n.installed.value < |n.times|
      && |s.past| <= SnapshotMoment(n) < |n.past|
      && area in n.past[SnapshotMoment(n)].created
      && n.service.snapshot.value.areas == n.past[SnapshotMoment(n)].areas
  {
    var created := Next(s, CreateArea(area));
    var committed := Next(created, Refresh);
    FitsNext(s, CreateArea(area));
    FitsNext(created, Refresh);
    LaterSnapshotsAreFresh(committed, |s.service.jobs|, steps, later);
    var n := After(After(committed, steps), later);
    SnapshotIsConsistent(n);
    CreatedStaysCreated(committed, steps, later, |s.past|, SnapshotMoment(n));
  }

  lemma {:induction false} TimesAreKept(s: State, steps: seq<Step>, k: nat)
    requires Fits(s) && IsRun(s, steps) && k < |s.times|
    ensures k < |After(s, steps).times| && After(s, steps).times[k].enqueuedAt == s.times[k].enqueuedAt
    decreases |steps|
  {
    if steps != [] {
      FitsNext(s, steps[0]);
      TimesAreKept(Next(s, steps[0]), steps[1..], k);
    }
  }

  lemma {:induction false} PastIsKept(s: State, steps: seq<Step>)
    requires IsRun(s, steps)
    ensures |s.past| <= |After(s, steps).past| && After(s, steps).past[..|s.past|] == s.past
    decreases |steps|
  {
    if steps != [] {
      var n := Next(s, steps[0]);
      PastIsKept(n, steps[1..]);
      assert n.past[..|s.past|] == s.past;
      assert After(s, steps).past[..|n.past|][..|s.past|] == After(s, steps).past[..|s.past|];
    }
  }

  lemma {:induction false} Extend(s: State, steps: seq<Step>, step: Step)
    requires IsRun(s, steps) && Enabled(After(s, steps), step)
    ensures IsRun(s, steps + [step])
    ensures After(s, steps + [step]) == Next(After(s, steps), step)
    decreases |steps|
  {
    var more := steps + [step];
    if steps == [] {
      assert more[1..] == [];
    } else {
      Extend(Next(s, steps[0]), steps[1..], step);
      assert more[1..] == steps[1..] + [step];
    }
  }

  lemma {:induction false} RunConcat(s: State, p: seq<Step>, q: seq<Step>)
    requires IsRun(s, p) && IsRun(After(s, p), q)
    ensures IsRun(s, p + q) && After(s, p + q) == After(After(s, p), q)
    decreases |p|
  {
    if p == [] {
      assert p + q == q;
    } else {
      RunConcat(Next(s, p[0]), p[1..], q);
      assert (p + q)[1..] == p[1..] + q;
    }
  }

  // ----- the chain goes on

  /** A failed rebuild passes the turn on: the next one of the chain may ask for the version at once,
      whether it waits already or is enqueued afterwards. */
  lemma FailurePassesTheTurn(s: State, k: nat)
    requires Fits(s) && Enabled(s, Fail(k))
    ensures var n := Next(s, Fail(k));
      && Enabled(if k + 1 < |n.service.jobs| then n else Next(n, Refresh), ReadVersion(k + 1))
      && n.service.snapshot == s.service.snapshot
  {
    assert JobReady(s, k);
  }

  /** A step of one of the rebuilds up to k. */
  predicate IsJobStep(step: Step, k: nat) {
    (step.ReadVersion? || step.ReadRows? || step.Install? || step.Fail?) && step.k <= k
  }

  predicate JobSteps(steps: seq<Step>, k: nat) { forall i :: 0 <= i < |steps| ==> IsJobStep(steps[i], k) }

  /** Nothing but the rebuilds has moved. */
  predicate OnlyJobsMoved(s: State, t: State) {
    t.past == s.past && t.polls == s.polls && |t.service.jobs| == |s.service.jobs| && |t.times| == |s.times|
  }

  /** How a rebuild ends that stands at `job` and whose next query rejects if `fails`. */
  predicate EndsAs(job: Job, fails: bool, end: Job) {
    if job.Finished() then end == job else if fails && !job.HasRows? then end.Failed? else end.Installed?
  }

  /** The rebuild that has its turn runs to its end. */
  lemma TurnRuns(s: State, k: nat, fails: bool) returns (steps: seq<Step>)
    requires Fits(s) && HasTurn(s.service, k)
    ensures IsRun(s, steps) && JobSteps(steps, k)
    ensures var t := After(s, steps);
      && OnlyJobsMoved(s, t) && t.service.jobs == s.service.jobs[k := t.service.jobs[k]]
      && EndsAs(s.service.jobs[k], fails, t.service.jobs[k])
      && (t.service.jobs[k].Installed? && !s.service.jobs[k].HasRows? ==>
            t.service.snapshot.Some? && t.service.snapshot.value.areas == Current(s).areas)
  {
    steps := [];
    if fails && !s.service.jobs[k].HasRows? {
      Extend(s, steps, Fail(k));
      steps := steps + [Fail(k)];
    } else {
      if s.service.jobs[k].Waiting? {
        Extend(s, steps, ReadVersion(k));
        steps := steps + [ReadVersion(k)];
      }
      if !s.service.jobs[k].HasRows? {
        Extend(s, steps, ReadRows(k));
        steps := steps + [ReadRows(k)];
      }
      Extend(s, steps, Install(k));
      steps := steps + [Install(k)];
    }
  }

  /** The rebuilds before k have run to their ends, failing as they please; the others stand. */
  predicate EarlierEnded(s: State, t: State, k: nat, failing: set<nat>) {
    && OnlyJobsMoved(s, t) && k <= |s.service.jobs|
    && (forall j :: 0 <= j < k ==> EndsAs(s.service.jobs[j], j in failing, t.service.jobs[j]))
    && (forall j :: k <= j < |s.service.jobs| ==> t.service.jobs[j] == s.service.jobs[j])
  }

  lemma OneMoreEnded(s: State, t: State, r: State, k: nat, failing: set<nat>)
    requires EarlierEnded(s, t, k, failing) && k < |s.service.jobs| && OnlyJobsMoved(t, r)
    requires r.service.jobs == t.service.jobs[k := r.service.jobs[k]]
    requires EndsAs(t.service.jobs[k], k in failing, r.service.jobs[k])
    ensures EarlierEnded(s, r, k + 1, failing)
  {
  }

  lemma JobStepsConcat(p: seq<Step>, q: seq<Step>, k: nat, m: nat)
    requires JobSteps(p, k) && JobSteps(q, m) && k <= m
    ensures JobSteps(p + q, m)
  {
  }

  lemma EarlierHaveTurn(s: State, t: State, k: nat, failing: set<nat>)
    requires EarlierEnded(s, t, k, failing) && k < |s.service.jobs| && !s.service.jobs[k].Finished()
    ensures HasTurn(t.service, k)
  {
    forall j | 0 <= j < k ensures t.service.jobs[j].Finished() {
      assert EndsAs(s.service.jobs[j], j in failing, t.service.jobs[j]);
    }
  }

  lemma {:induction false} EarlierTurnsRun(s: State, k: nat, failing: set<nat>) returns (steps: seq<Step>)
    requires Fits(s) && k <= |s.service.jobs|
    ensures IsRun(s, steps) && JobSteps(steps, k)
    ensures Fits(After(s, steps)) && EarlierEnded(s, After(s, steps), k, failing)
  {
    if k == 0 {
      steps := [];
    } else {
      var first := EarlierTurnsRun(s, k - 1, failing);
      var t := After(s, first);
      if s.service.jobs[k - 1].Finished() {
        steps := first;
      } else {
        steps := NextTurnRuns(s, first, k - 1, failing, k - 1 in failing);
      }
    }
  }

  /** The rebuild after those that have ended runs to its end. */
  lemma NextTurnRuns(s: State, first: seq<Step>, k: nat, failing: set<nat>, fails: bool) returns (steps: seq<Step>)
    requires IsRun(s, first) && JobSteps(first, k) && Fits(After(s, first)) && EarlierEnded(s, After(s, first), k, failing)
    requires k < |s.service.jobs| && !s.service.jobs[k].Finished()
    ensures IsRun(s, steps) && JobSteps(steps, k) && Fits(After(s, steps))
    ensures fails == (k in failing) ==> EarlierEnded(s, After(s, steps), k + 1, failing)
    ensures !fails ==> CaughtUp(s, After(s, first), After(s, steps), k, failing)
  {
    var t := After(s, first);
    EarlierHaveTurn(s, t, k, failing);
    var more := TurnRuns(t, k, fails);
    RunFits(t, more);
    RunConcat(s, first, more);
    JobStepsConcat(first, more, k, k);
    steps := first + more;
    if fails == (k in failing) {
      OneMoreEnded(s, t, After(t, more), k, failing);
    }
    if !fails {
      CatchUp(s, t, After(t, more), k, failing);
    }
  }

  /** Rebuild k is installed, and unless its rows had been read before, with the areas of now. */
  predicate CaughtUp(s: State, t: State, r: State, k: nat, failing: set<nat>) {
    && EarlierEnded(s, t, k, failing) && OnlyJobsMoved(s, r) && k < |s.service.jobs| && s.past != []
    && r.service.jobs[k].Installed?
    && (forall j :: 0 <= j < k ==> EndsAs(s.service.jobs[j], j in failing, r.service.jobs[j]))
    && (!s.service.jobs[k].HasRows? ==> r.service.snapshot.Some? && r.service.snapshot.value.areas == Current(s).areas)
  }

  lemma CatchUp(s: State, t: State, r: State, k: nat, failing: set<nat>)
    requires EarlierEnded(s, t, k, failing) && k < |s.service.jobs| && s.past != [] && !s.service.jobs[k].Finished()
    requires OnlyJobsMoved(t, r) && r.service.jobs == t.service.jobs[k := r.service.jobs[k]]
    requires EndsAs(t.service.jobs[k], false, r.service.jobs[k])
    requires r.service.jobs[k].Installed? && !t.service.jobs[k].HasRows? ==>
      r.service.snapshot.Some? && r.service.snapshot.value.areas == Current(t).areas
    ensures CaughtUp(s, t, r, k, failing)
  {
  }

  /** Every refresh can resolve: from wherever a run has got to, whichever of the older rebuilds fail on
      the way, steps of the rebuilds alone bring each unfinished one to its installation, and unless its
      rows had been read before, the snapshot then holds the areas of now. */
  lemma EveryRefreshCanResolve(s: State, k: nat, failing: set<nat>) returns (steps: seq<Step>)
    requires Fits(s) && k < |s.service.jobs| && !s.service.jobs[k].Finished()
    ensures IsRun(s, steps) && JobSteps(steps, k)
    ensures var t := After(s, steps);
      && OnlyJobsMoved(s, t) && t.service.jobs[k].Installed?
      && (forall j :: 0 <= j < k ==> EndsAs(s.service.jobs[j], j in failing, t.service.jobs[j]))
      && (!s.service.jobs[k].HasRows? ==> t.service.snapshot.Some? && t.service.snapshot.value.areas == Current(s).areas)
  {
    var first := EarlierTurnsRun(s, k, failing);
    steps := NextTurnRuns(s, first, k, failing, false);
  }

  predicate ConcernsPolling(step: Step) { !step.CreateArea? && !step.DeleteArea? && !step.Refresh? }

  lemma PollDecides(s: State)
    requires Fits(s)
    ensures var poll := Poll(Current(s).version, Now(s));
      && IsRun(s, [AskPoll, DecidePoll(poll)])
      && var t := After(s, [AskPoll, DecidePoll(poll)]);
         && Fits(t) && t.past == s.past
         && if PollWantsRebuild(s.service, Current(s).version) then t.service == Enqueued(s.service)
            else t.service == s.service && t.installed == s.installed && t.times == s.times
  {
    var poll, asked := Poll(Current(s).version, Now(s)), Next(s, AskPoll);
    FitsNext(s, AskPoll);
    FitsNext(asked, DecidePoll(poll));
    assert [AskPoll, DecidePoll(poll)][1..] == [DecidePoll(poll)] && [DecidePoll(poll)][1..] == [];
    assert IsRun(asked, [DecidePoll(poll)]) && After(asked, [DecidePoll(poll)]) == Next(asked, DecidePoll(poll));
  }

  lemma QuietNow(s: State)
    requires Fits(s) && !PollWantsRebuild(s.service, Current(s).version)
    ensures s.service.snapshot.Some? && Current(s).areas <= s.service.snapshot.value.areas
  {
    SnapshotIsConsistent(s);
    assert s.past[SnapshotMoment(s)].created == Current(s).created;
    ExistingIsInSnapshot(s);
  }

  /** Every creation can arrive by polling: one poll and the rebuilds alone bring the snapshot to a
      state in which it holds every area that exists now. */
  lemma PollBringsCreations(s: State) returns (steps: seq<Step>)
    requires Fits(s)
    ensures IsRun(s, steps) && forall i :: 0 <= i < |steps| ==> ConcernsPolling(steps[i])
    ensures var t := After(s, steps);
      && t.past == s.past && t.service.snapshot.Some? && Current(s).areas <= t.service.snapshot.value.areas
  {
    steps := [AskPoll, DecidePoll(Poll(Current(s).version, Now(s)))];
    PollDecides(s);
    if PollWantsRebuild(s.service, Current(s).version) {
      var more := EveryRefreshCanResolve(After(s, steps), |s.service.jobs|, {});
      RunConcat(s, steps, more);
      steps := steps + more;
    } else {
      QuietNow(s);
    }
  }

  /** A snapshot whose rows were read when everything of now had been created holds what exists now. */
  lemma ExistingIsInSnapshot(s: State)
    requires Fits(s) && s.service.snapshot.Some? && s.installed.Some? && s.installed.value < |s.times|
    requires SnapshotMoment(s) < |s.past| && Current(s).created <= s.past[SnapshotMoment(s)].created
    ensures Current(s).areas <= s.service.snapshot.value.areas
  {
    SnapshotIsConsistent(s);
    assert Gone(s.past[SnapshotMoment(s)]) !! s.past[Now(s)].areas;
  }

  // ----- deletions

  /** Up to date, with nothing pending: every poll still to decide saw the snapshot's version. */
  ghost predicate Idle(s: State) {
    && s.past != [] && s.service.snapshot.Some? && s.service.snapshot.value.version == Current(s).version
    && (forall k :: 0 <= k < |s.service.jobs| ==> s.service.jobs[k].Finished())
    && (forall p :: p in s.polls ==> p.version == Current(s).version)
  }

  /** An area deleted out of band is never noticed by polling: until the next creation or
      refresh, any number of polls leaves the snapshot, with the deleted area, as it was. */
  lemma {:induction false} PollsNeverSeeDeletions(s: State, steps: seq<Step>)
    requires Idle(s) && IsRun(s, steps)
    requires forall i :: 0 <= i < |steps| ==> !steps[i].CreateArea? && !steps[i].Refresh?
    ensures Idle(After(s, steps)) && After(s, steps).service == s.service
    decreases |steps|
  {
    if steps != [] {
      assert forall i :: 0 <= i < |steps[1..]| ==> steps[1..][i] == steps[i + 1];
      assert Idle(Next(s, steps[0]));
      PollsNeverSeeDeletions(Next(s, steps[0]), steps[1..]);
    }
  }

  // ----- the same for every run of a process

  /** From the start of a process, the snapshot always equals the tables at one moment, is
      labelled no newer than that moment, and neither ever goes back in any continuation. */
  lemma EveryRunIsConsistent(db: Db, steps: seq<Step>, later: seq<Step>)
    requires db.areas <= db.created
    requires var start := Start(db);
      && IsRun(start, steps) && IsRun(After(start, steps), later)
      && After(start, steps).service.snapshot.Some?
    ensures var s := After(Start(db), steps);
      var n := After(s, later);
      && Fits(s) && Fits(n) && s.installed.Some? && n.installed.Some?
      && s.installed.value < |s.times| && n.installed.value < |n.times| && SnapshotMoment(n) < |n.past|
      && n.service.snapshot == Some(Snapshot(n.service.snapshot.value.version, n.past[SnapshotMoment(n)].areas))
      && n.service.snapshot.value.version <= n.past[SnapshotMoment(n)].version
      && SnapshotMoment(s) <= SnapshotMoment(n)
      && s.service.snapshot.value.version <= n.service.snapshot.value.version
  {
    var start := Start(db);
    var s := After(start, steps);
    StartFits(db);
    RunFits(start, steps);
    SnapshotIsConsistent(s);
    RunKeepsMoment(s, later, SnapshotMoment(s));
    RunKeepsLabel(s, later);
    SnapshotIsConsistent(After(s, later));
  }

  lemma {:induction false} RunKeepsLabel(s: State, steps: seq<Step>)
    requires Fits(s) && IsRun(s, steps) && s.service.snapshot.Some?
    ensures After(s, steps).service.snapshot.Some?
    ensures s.service.snapshot.value.version <= After(s, steps).service.snapshot.value.version
    decreases |steps|
  {
    if steps != [] {
      FitsNext(s, steps[0]);
      SnapshotNeverGoesBack(s, steps[0]);
      RunKeepsLabel(Next(s, steps[0]), steps[1..]);
    }
  }

  /** Moment d is the deletion of the area. */
  ghost predicate DeletedAt(past: seq<Db>, d: nat, area: AreaId) {
    0 < d < |past| && area in past[d - 1].areas && area !in past[d].areas
  }

  /** A deleted area is absent from the snapshot exactly when the rows were read at or after its
      deletion, or before its creation. */
  lemma AbsentExactlyAfterDeletion(s: State, d: nat, area: AreaId)
    requires Fits(s) && s.service.snapshot.Some? && DeletedAt(s.past, d, area)
    ensures s.installed.Some? && s.installed.value < |s.times| && SnapshotMoment(s) < |s.past|
    ensures area !in s.service.snapshot.value.areas
      <==> d <= SnapshotMoment(s) || area !in s.past[SnapshotMoment(s)].created
  {
    SnapshotIsConsistent(s);
    var m := SnapshotMoment(s);
    if m < d {
      assert Gone(s.past[m]) !! s.past[d - 1].areas;
    } else {
      assert s.past[d - 1].created <= s.past[d].created;
      assert Gone(s.past[d]) !! s.past[m].areas;
    }
  }

  /** The next creation ends it: when a poll asked after a creation later than the deletion decides
      not to rebuild, the deleted area is absent. */
  lemma QuietPollAfterCreationSeesDeletion(s: State, poll: Asked, d: nat, area: AreaId)
    requires Fits(s) && Enabled(s, DecidePoll(poll)) && Next(s, DecidePoll(poll)).service.jobs == s.service.jobs
    requires DeletedAt(s.past, d, area) && poll.askedAt < |s.past| && s.past[d].version < s.past[poll.askedAt].version
    ensures s.service.snapshot.Some? && area !in s.service.snapshot.value.areas
  {
    SnapshotIsConsistent(s);
    var t := s.times[s.installed.value];
    assert s.past[t.versionAt].version <= s.past[t.rowsAt].version;
    assert d <= SnapshotMoment(s);
    AbsentExactlyAfterDeletion(s, d, area);
  }

  function Start(db: Db): State { State([db], Service(None, []), [], None, {}) }

  /** From the start of a process to a snapshot that holds a deleted area, up to date by its label,
      with nothing pending. */
  lemma SnapshotKeepsDeletedArea(db: Db, area: AreaId) returns (steps: seq<Step>)
    requires area in db.areas && db.areas <= db.created
    ensures IsRun(Start(db), steps)
    ensures var s := After(Start(db), steps);
      Idle(s) && area in s.service.snapshot.value.areas && area !in Current(s).areas
  {
    var s := Start(db);
    steps := [];
    Extend(s, steps, Refresh);
    steps := steps + [Refresh];
    Extend(s, steps, ReadVersion(0));
    steps := steps + [ReadVersion(0)];
    Extend(s, steps, ReadRows(0));
    steps := steps + [ReadRows(0)];
    Extend(s, steps, Install(0));
    steps := steps + [Install(0)];
    Extend(s, steps, DeleteArea(area));
    steps := steps + [DeleteArea(area)];
  }

  /** And there it stays, however often the process polls. */
  lemma PollsKeepDeletedArea(db: Db, area: AreaId, later: seq<Step>) returns (steps: seq<Step>)
    requires area in db.areas && db.areas <= db.created
    requires forall i :: 0 <= i < |later| ==> !later[i].CreateArea? && !later[i].Refresh?
    ensures IsRun(Start(db), steps)
    ensures IsRun(After(Start(db), steps), later) ==>
      var s := After(After(Start(db), steps), later);
      s.service.snapshot.Some? && area in s.service.snapshot.value.areas
  {
    steps := SnapshotKeepsDeletedArea(db, area);
    if IsRun(After(Start(db), steps), later) {
      PollsNeverSeeDeletions(After(Start(db), steps), later);
    }
  }

  predicate Spared(steps: seq<Step>, area: AreaId) {
    steps == [] || (steps[0] != DeleteArea(area) && Spared(steps[1..], area))
  }

  lemma {:induction false} StillThere(s: State, steps: seq<Step>, area: AreaId)
    requires Fits(s) && IsRun(s, steps) && Spared(steps, area) && area in Current(s).areas
    ensures Fits(After(s, steps)) && area in Current(After(s, steps)).areas
    decreases |steps|
  {
    if steps != [] {
      FitsNext(s, steps[0]);
      StillThere(Next(s, steps[0]), steps[1..], area);
    }
  }

  /** Unless somebody deletes it, the creator's area is in every later snapshot of the process. */
  lemma CreatorSeesOwnArea(s: State, area: AreaId, steps: seq<Step>, later: seq<Step>)
    requires Fits(s) && Enabled(s, CreateArea(area))
    requires var committed := Next(Next(s, CreateArea(area)), Refresh);
      && IsRun(committed, steps)
      && var k := |s.service.jobs|;
         k < |After(committed, steps).service.jobs| && After(committed, steps).service.jobs[k].Installed?
    requires IsRun(After(Next(Next(s, CreateArea(area)), Refresh), steps), later)
    requires Spared(steps, area) && Spared(later, area)
    ensures var n := After(After(Next(Next(s, CreateArea(area)), Refresh), steps), later);
      n.service.snapshot.Some? && area in n.service.snapshot.value.areas
  {
    var created := Next(s, CreateArea(area));
    var committed := Next(created, Refresh);
    FitsNext(s, CreateArea(area));
    FitsNext(created, Refresh);
    CreatorReadsOwnArea(s, area, steps, later);
    StillThere(committed, steps, area);
    StillThere(After(committed, steps), later, area);
    var n := After(After(committed, steps), later);
    assert Gone(n.past[SnapshotMoment(n)]) !! Current(n).areas;
  }

  // ----- the service as the program has it

  /** Two fields, changed between two awaits at a time. The ghost field is the machine around it:
      the tables' history, and the times at which the queries were answered. */
  class AreaSnapshotService {
    var snapshot: Option<Snapshot>
    var rebuildChain: seq<Job>
    ghost var at: State

    ghost predicate Valid()
      reads this
    {
      Fits(at) && at.service == Service(snapshot, rebuildChain)
    }

    constructor (ghost db: Db)
      requires db.areas <= db.created
      ensures Valid() && snapshot == None && rebuildChain == [] && at.past == [db]
    {
      snapshot := None;
      rebuildChain := [];
      at := Start(db);
    }

    /** Before the first build there is no answer; afterwards the answer is the tables of one
        moment, and the label is no newer than that moment. */
    method Areas() returns (areas: Option<set<AreaId>>)
      requires Valid()
      ensures areas.None? <==> snapshot.None?
      ensures areas.Some? ==>
        && at.installed.Some? && at.installed.value < |at.times| && SnapshotMoment(at) < |at.past|
        && areas.value == at.past[SnapshotMoment(at)].areas
        && snapshot.value.version <= at.past[SnapshotMoment(at)].version
    {
      areas := if snapshot.None? then None else Some(snapshot.value.areas);
      if snapshot.Some? {
        SnapshotIsConsistent(at);
      }
    }

    /** What others do meanwhile changes neither field. */
    ghost method Meanwhile(step: Step)
      requires Valid() && Enabled(at, step) && (step.CreateArea? || step.DeleteArea? || step.AskPoll?)
      modifies `at
      ensures Valid() && at == Next(old(at), step)
    {
      FitsNext(at, step);
      at := Next(at, step);
    }

    /** The new rebuild has no turn while an earlier one is unfinished, and takes nobody's turn; it
        reads no earlier than now. */
    method EnqueueRebuild() returns (k: nat)
      requires Valid()
      modifies this
      ensures Valid() && at.past == old(at.past) && snapshot == old(snapshot)
      ensures k == |old(rebuildChain)| < |rebuildChain| && at.times[k].enqueuedAt == Now(at)
      ensures forall j :: 0 <= j < k ==> rebuildChain[j] == old(rebuildChain[j])
      ensures !HasTurn(at.service, k) <==> exists j :: 0 <= j < k && !old(rebuildChain[j]).Finished()
      ensures forall j :: 0 <= j < k ==> HasTurn(at.service, j) == old(HasTurn(at.service, j))
    {
      FitsNext(at, Refresh);
      at := Next(at, Refresh);
      k := |rebuildChain|;
      rebuildChain := rebuildChain + [Waiting];
    }

    method VersionRead(k: nat, version: nat)
      requires Valid() && Enabled(at, ReadVersion(k)) && version == Current(at).version
      modifies this
      ensures Valid() && at == Next(old(at), ReadVersion(k)) && snapshot == old(snapshot)
    {
      FitsNext(at, ReadVersion(k));
      at := Next(at, ReadVersion(k));
      rebuildChain := rebuildChain[k := HasVersion(version)];
    }

    method RowsRead(k: nat, areas: set<AreaId>)
      requires Valid() && Enabled(at, ReadRows(k)) && areas == Current(at).areas
      modifies this
      ensures Valid() && at == Next(old(at), ReadRows(k)) && snapshot == old(snapshot)
    {
      FitsNext(at, ReadRows(k));
      at := Next(at, ReadRows(k));
      rebuildChain := rebuildChain[k := HasRows(rebuildChain[k].version, areas)];
    }

    /** One assignment swaps the snapshot: afterwards it holds the tables of a moment at or after
        the enqueueing of this rebuild, and neither its moment nor its label has gone back. */
    method Install(k: nat)
      requires Valid() && Enabled(at, Step.Install(k))
      modifies this
      ensures Valid() && at.past == old(at.past) && snapshot.Some? && at.installed == Some(k) && k < |at.times|
      ensures SnapshotMoment(at) < |at.past| && snapshot.value.areas == at.past[SnapshotMoment(at)].areas
      ensures at.times[k].enqueuedAt <= SnapshotMoment(at)
      ensures old(snapshot).Some? ==>
        && old(at.installed).Some? && old(at.installed.value) < |old(at.times)| == |old(at.service.jobs)|
        && old(SnapshotMoment(at)) <= SnapshotMoment(at)
        && old(snapshot).value.version <= snapshot.value.version
    {
      FitsNext(at, Step.Install(k));
      if snapshot.Some? {
        SnapshotNeverGoesBack(at, Step.Install(k));
      }
      at := Next(at, Step.Install(k));
      snapshot := Some(Snapshot(rebuildChain[k].version, rebuildChain[k].areas));
      rebuildChain := rebuildChain[k := Installed];
      SnapshotIsConsistent(at);
    }

    /** A failed query keeps the last good snapshot. */
    method Fail(k: nat)
      requires Valid() && Enabled(at, Step.Fail(k))
      modifies this
      ensures Valid() && at == Next(old(at), Step.Fail(k)) && snapshot == old(snapshot)
    {
      FitsNext(at, Step.Fail(k));
      at := Next(at, Step.Fail(k));
      rebuildChain := rebuildChain[k := Failed];
    }

    /** The answer of a poll's query. When it enqueues no rebuild, the snapshot already holds every
        area created before that answer, deletions apart; otherwise a rebuild will read no earlier
        than now. */
    method Poll(ghost poll: Asked, version: nat) returns (quiet: bool)
      requires Valid() && poll in at.polls && version == poll.version
      modifies this
      ensures Valid() && at.past == old(at.past) && snapshot == old(snapshot)
      ensures quiet ==>
        && rebuildChain == old(rebuildChain) && snapshot.Some?
        && at.installed.Some? && at.installed.value < |at.times| && SnapshotMoment(at) < |at.past| && poll.askedAt < |at.past|
        && at.past[poll.askedAt].created <= at.past[SnapshotMoment(at)].created
      ensures !quiet ==> |rebuildChain| == |old(rebuildChain)| + 1 && at.times[|old(rebuildChain)|].enqueuedAt == Now(at)
    {
      quiet := !(snapshot.None? || snapshot.value.version != version);
      FitsNext(at, DecidePoll(poll));
      if quiet {
        QuietPollMissesNothing(at, poll);
      }
      at := Next(at, DecidePoll(poll));
      if !quiet {
        rebuildChain := rebuildChain + [Waiting];
      }
    }
  }
}
