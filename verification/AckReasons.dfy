/** What an acknowledgement says: in every run each acked message was a duplicate, changed
    nothing, committed its effect, or entered an area that no longer exists. */
module AckReasons {
  import opened Tables
  import opened Brokers
  import opened Pipeline
  import opened Conservation
  import opened FastPath
  import opened Dedup

  predicate ReasonHolds(p: Past, n: nat, reason: Reason) {
    match reason
    case NoChange => n in p.applied
    case Effect => n in p.committed && n in p.applied
    case _ => true
  }

  predicate PcReason(p: Past, n: nat, pc: Pc) {
    match pc
    case Committed(_) => ReasonHolds(p, n, Effect)
    case Finishing(reason) => (reason.NoChange? || reason.Effect?) && ReasonHolds(p, n, reason)
    case _ => true
  }

  ghost predicate Reasons(c: Config, s: State) {
    && Sound(c, s)
    && (forall n :: n in s.broker.unacked ==> PcReason(s.past, n, s.worker.pcs[n]))
    && (forall n :: n in s.broker.acked ==> ReasonHolds(s.past, n, s.broker.acked[n]))
  }

  /** Exactly one step acks a message, and the reason it records is the case it is in. */
  lemma AckSaysWhatHappened(c: Config, s: State, step: Step, n: nat)
    requires Reasons(c, s) && Enabled(c, s, step)
    requires n !in s.broker.acked && n in Next(c, s, step).broker.acked
    ensures step.IsTask() && step.n == n && n in s.broker.unacked && n !in Next(c, s, step).broker.unacked
    ensures var e, pc, reason := s.broker.published[n], s.worker.pcs[n], Next(c, s, step).broker.acked[n];
      match reason
      case Duplicate =>
        e.HasIdentity() && if pc.Seeding? then e.seqNo.value <= c.SeedOf(e)
                           else e.Key() in s.worker.lastSeq && e.seqNo.value <= s.worker.lastSeq[e.Key()]
      case NoChange => pc == Finishing(NoChange) && n in s.past.applied
      case Effect => pc == Finishing(Effect) && n in s.past.committed
      case StaleArea => pc.InTx? && exists a :: a in pc.current - pc.previous && a !in s.db.live
  {
    OneHome(s.broker, n);
    if step.Crash? {
      CrashAcksNothing(c, s.broker);
    }
    assert step.IsTask();
    TaskShape(c, s, step);
    OneHome(s.broker, step.n);
    assert Acks(c, s, step);
    if step.FkDrop? {
      assert !EntersOnlyLive(s.worker.pcs[n], s.db.live);
    }
  }

  lemma {:induction false} CrashAcksNothing(c: Config, b: Broker)
    requires InRange(b)
    ensures AllGivenBack(c, b).acked == b.acked
    decreases |b.unacked|
  {
    if b.unacked != [] {
      CrashAcksNothing(c, GivenBack(c, b, b.unacked[|b.unacked| - 1], 0));
    }
  }

  lemma TaskReason(c: Config, s: State, step: Step)
    requires step.IsTask() && Enabled(c, s, step) && PcReason(s.past, step.n, s.worker.pcs[step.n])
    ensures var n, t := step.n, Next(c, s, step);
      && s.past.applied <= t.past.applied && s.past.committed <= t.past.committed
      && if Acks(c, s, step) then n in t.broker.acked && ReasonHolds(t.past, n, t.broker.acked[n])
         else n < |t.worker.pcs| && PcReason(t.past, n, t.worker.pcs[n])
  {
  }

  lemma ReasonsAfter(c: Config, s: State, t: State, n: nat, acks: bool)
    requires Reasons(c, s) && Sound(c, t) && n in s.broker.unacked
    requires s.past.applied <= t.past.applied && s.past.committed <= t.past.committed
    requires acks ==> n in t.broker.acked && t.broker == Acked(s.broker, n, t.broker.acked[n])
                      && t.worker.pcs == s.worker.pcs && ReasonHolds(t.past, n, t.broker.acked[n])
    requires !acks ==> t.broker == s.broker && |t.worker.pcs| == |s.worker.pcs|
                       && t.worker.pcs == s.worker.pcs[n := t.worker.pcs[n]] && PcReason(t.past, n, t.worker.pcs[n])
    ensures Reasons(c, t)
  {
    OneHome(s.broker, n);
    RemoveFacts(s.broker.unacked, n);
    forall m | m in t.broker.unacked ensures PcReason(t.past, m, t.worker.pcs[m]) {
      assert PcReason(s.past, m, s.worker.pcs[m]);
    }
  }

  lemma TaskKeepsReasons(c: Config, s: State, step: Step)
    requires Reasons(c, s) && step.IsTask() && Enabled(c, s, step)
    ensures Reasons(c, Next(c, s, step))
  {
    SoundNext(c, s, step);
    TaskShape(c, s, step);
    TaskReason(c, s, step);
    ReasonsAfter(c, s, Next(c, s, step), step.n, Acks(c, s, step));
  }

  /** Steps that ack nothing and leave every task that is still out where it was, or waiting. */
  lemma ReasonsElsewhere(c: Config, s: State, t: State)
    requires Reasons(c, s) && Sound(c, t) && t.broker.acked == s.broker.acked
    requires t.past.applied == s.past.applied && t.past.committed == s.past.committed
    requires forall n :: n in t.broker.unacked ==>
      t.worker.pcs[n].Waiting? || (n in s.broker.unacked && t.worker.pcs[n] == s.worker.pcs[n])
    ensures Reasons(c, t)
  {
  }

  lemma DeliverKeepsReasons(c: Config, s: State, pos: nat)
    requires Reasons(c, s) && Enabled(c, s, Deliver(pos))
    ensures Reasons(c, Next(c, s, Deliver(pos)))
  {
    SoundNext(c, s, Deliver(pos));
    DeliverShape(c, s, pos);
    ReasonsElsewhere(c, s, Next(c, s, Deliver(pos)));
  }

  lemma FailKeepsReasons(c: Config, s: State, n: nat, pos: nat)
    requires Reasons(c, s) && Enabled(c, s, Fail(n, pos))
    ensures Reasons(c, Next(c, s, Fail(n, pos)))
  {
    SoundNext(c, s, Fail(n, pos));
    RemoveFacts(s.broker.unacked, n);
    ReasonsElsewhere(c, s, Next(c, s, Fail(n, pos)));
  }

  lemma CrashKeepsReasons(c: Config, s: State)
    requires Reasons(c, s)
    ensures Reasons(c, Next(c, s, Crash))
  {
    SoundNext(c, s, Crash);
    CrashAcksNothing(c, s.broker);
    ReasonsElsewhere(c, s, Next(c, s, Crash));
  }

  lemma ReasonsNext(c: Config, s: State, step: Step)
    requires Reasons(c, s) && Enabled(c, s, step)
    ensures Reasons(c, Next(c, s, step))
  {
    if step.IsTask() {
      TaskKeepsReasons(c, s, step);
    } else if step.Deliver? {
      DeliverKeepsReasons(c, s, step.pos);
    } else if step.Fail? {
      FailKeepsReasons(c, s, step.n, step.pos);
    } else if step.Crash? {
      CrashKeepsReasons(c, s);
    } else {
      SoundNext(c, s, step);
      ReasonsElsewhere(c, s, Next(c, s, step));
    }
  }

  lemma InitReasons(c: Config, s: State)
    requires Init(s)
    ensures Reasons(c, s)
  {
  }

  // ----- the steps behind an acknowledgement

  /** Step i of the run settles message n with the ack that it has at the end. */
  ghost predicate AcksAt(c: Config, s: State, steps: seq<Step>, i: nat, n: nat)
    requires IsRun(c, s, steps)
  {
    && i < |steps| && steps[i].IsTask() && steps[i].n == n
    && n in StateAt(c, s, steps, i).broker.unacked && n !in StateAt(c, s, steps, i).broker.acked
    && n in StateAt(c, s, steps, i + 1).broker.acked && n in After(c, s, steps).broker.acked
    && StateAt(c, s, steps, i + 1).broker.acked[n] == After(c, s, steps).broker.acked[n]
  }

  lemma AckStays(c: Config, s: State, step: Step, n: nat)
    requires Sound(c, s) && Enabled(c, s, step) && n in s.broker.acked
    ensures n in Next(c, s, step).broker.acked && Next(c, s, step).broker.acked[n] == s.broker.acked[n]
  {
    OneHome(s.broker, n);
    if step.IsTask() {
      TaskShape(c, s, step);
    } else if step.Crash? {
      CrashAcksNothing(c, s.broker);
    }
  }

  lemma {:induction false} AckStaysInRun(c: Config, s: State, steps: seq<Step>, n: nat)
    requires Sound(c, s) && IsRun(c, s, steps) && n in s.broker.acked
    ensures n in After(c, s, steps).broker.acked && After(c, s, steps).broker.acked[n] == s.broker.acked[n]
    decreases |steps|
  {
    if steps != [] {
      AckStays(c, s, steps[0], n);
      SoundNext(c, s, steps[0]);
      AckStaysInRun(c, Next(c, s, steps[0]), steps[1..], n);
    }
  }

  lemma FirstAck(c: Config, s: State, step: Step, n: nat)
    requires Sound(c, s) && Enabled(c, s, step) && n !in s.broker.acked && n in Next(c, s, step).broker.acked
    ensures step.IsTask() && step.n == n && n in s.broker.unacked
  {
    if step.IsTask() {
      TaskShape(c, s, step);
    } else if step.Crash? {
      CrashAcksNothing(c, s.broker);
    }
  }

  lemma {:induction false} AckHasItsStep(c: Config, s: State, steps: seq<Step>, n: nat) returns (i: nat)
    requires Sound(c, s) && IsRun(c, s, steps) && n !in s.broker.acked && n in After(c, s, steps).broker.acked
    ensures AcksAt(c, s, steps, i, n)
    decreases |steps|
  {
    var t, rest := Next(c, s, steps[0]), steps[1..];
    SoundNext(c, s, steps[0]);
    if n in t.broker.acked {
      FirstAck(c, s, steps[0], n);
      AckStaysInRun(c, t, rest, n);
      i := 0;
      assert StateAt(c, s, steps, 1) == StateAt(c, t, rest, 0);
    } else {
      var j := AckHasItsStep(c, t, rest, n);
      i := j + 1;
      assert StateAt(c, s, steps, i) == StateAt(c, t, rest, j) && StateAt(c, s, steps, i + 1) == StateAt(c, t, rest, j + 1);
    }
  }

  function PcAt(s: State, n: nat): Pc { if n < |s.worker.pcs| then s.worker.pcs[n] else Waiting }

  lemma StepLetsOff(c: Config, s: State, step: Step, n: nat)
    requires Enabled(c, s, step) && PcAt(s, n) != Finishing(NoChange) && PcAt(Next(c, s, step), n) == Finishing(NoChange)
    ensures (step.Hint? || step.KeepHint?) && step.n == n && LetsOff(c, s, step)
  {
  }

  lemma StepSetsMemory(c: Config, s: State, step: Step, n: nat)
    requires Enabled(c, s, step) && PcAt(s, n) != Finishing(Effect) && PcAt(Next(c, s, step), n) == Finishing(Effect)
    ensures step == SetMemory(n) && PcAt(s, n).Committed?
  {
  }

  lemma StepCommits(c: Config, s: State, step: Step, n: nat)
    requires Enabled(c, s, step) && !PcAt(s, n).Committed? && PcAt(Next(c, s, step), n).Committed?
    ensures step == Commit(n)
  {
  }

  /** Step j is a comparison of message n that finds no difference. */
  ghost predicate LetsOffAt(c: Config, s: State, steps: seq<Step>, j: nat, n: nat)
    requires IsRun(c, s, steps)
  {
    && j < |steps| && (steps[j].Hint? || steps[j].KeepHint?) && steps[j].n == n
    && Enabled(c, StateAt(c, s, steps, j), steps[j]) && LetsOff(c, StateAt(c, s, steps, j), steps[j])
  }

  lemma {:induction false} LetOffHasItsStep(c: Config, s: State, steps: seq<Step>, i: nat, n: nat) returns (j: nat)
    requires IsRun(c, s, steps) && i <= |steps| && PcAt(s, n) != Finishing(NoChange)
    requires PcAt(StateAt(c, s, steps, i), n) == Finishing(NoChange)
    ensures j < i && LetsOffAt(c, s, steps, j, n)
  {
    var before := StateAt(c, s, steps, i - 1);
    StepOfRun(c, s, steps, i - 1);
    if PcAt(before, n) == Finishing(NoChange) {
      j := LetOffHasItsStep(c, s, steps, i - 1, n);
    } else {
      StepLetsOff(c, before, steps[i - 1], n);
      j := i - 1;
    }
  }

  lemma {:induction false} CommitHasItsStep(c: Config, s: State, steps: seq<Step>, i: nat, n: nat) returns (j: nat)
    requires IsRun(c, s, steps) && i <= |steps| && !PcAt(s, n).Committed? && PcAt(s, n) != Finishing(Effect)
    requires var pc := PcAt(StateAt(c, s, steps, i), n); pc.Committed? || pc == Finishing(Effect)
    ensures j < i && steps[j] == Commit(n)
  {
    var before, after := StateAt(c, s, steps, i - 1), StateAt(c, s, steps, i);
    StepOfRun(c, s, steps, i - 1);
    if PcAt(before, n).Committed? || PcAt(before, n) == Finishing(Effect) {
      j := CommitHasItsStep(c, s, steps, i - 1, n);
    } else {
      j := i - 1;
      if PcAt(after, n).Committed? {
        StepCommits(c, before, steps[j], n);
      } else {
        StepSetsMemory(c, before, steps[j], n);
      }
    }
  }

  // ----- where a stored number comes from

  ghost predicate NoCrashBetween(steps: seq<Step>, j: nat, i: nat)
    requires j <= i <= |steps|
  {
    forall k :: j <= k < i ==> !steps[k].Crash?
  }

  /** The step stores this number under the key: the table's answer, or a success. */
  ghost predicate Stores(c: Config, s: State, step: Step, key: string, v: nat) {
    && Enabled(c, s, step) && (step.Seed? || step.Finish?)
    && var e := s.broker.published[step.n];
       e.HasIdentity() && e.Key() == key && v == if step.Seed? then c.SeedOf(e) else e.seqNo.value
  }

  ghost predicate StoresAt(c: Config, s: State, steps: seq<Step>, j: nat, key: string, v: nat)
    requires IsRun(c, s, steps)
  {
    j < |steps| && Stores(c, StateAt(c, s, steps, j), steps[j], key, v)
  }

  lemma StepStores(c: Config, s: State, step: Step, key: string)
    requires Enabled(c, s, step) && key in Next(c, s, step).worker.lastSeq
    ensures !step.Crash?
    ensures (key in s.worker.lastSeq && s.worker.lastSeq[key] == Next(c, s, step).worker.lastSeq[key])
      || Stores(c, s, step, key, Next(c, s, step).worker.lastSeq[key])
  {
    if step.IsTask() && !step.Seed? && !step.Finish? {
      MapUntouched(c, s, step);
    }
  }

  lemma {:induction false} EntryHasItsStep(c: Config, s: State, steps: seq<Step>, i: nat, key: string) returns (j: nat)
    requires IsRun(c, s, steps) && i <= |steps| && s.worker.lastSeq == map[]
    requires key in StateAt(c, s, steps, i).worker.lastSeq
    ensures j < i && StoresAt(c, s, steps, j, key, StateAt(c, s, steps, i).worker.lastSeq[key]) && NoCrashBetween(steps, j, i)
  {
    var before := StateAt(c, s, steps, i - 1);
    StepOfRun(c, s, steps, i - 1);
    StepStores(c, before, steps[i - 1], key);
    var v := StateAt(c, s, steps, i).worker.lastSeq[key];
    if key in before.worker.lastSeq && before.worker.lastSeq[key] == v {
      j := EntryHasItsStep(c, s, steps, i - 1, key);
    } else {
      j := i - 1;
    }
  }

  // ----- every acknowledgement explained by the run

  /** A number at or above the event's was stored under its key in this lifetime of the worker. */
  ghost predicate CoveredBefore(c: Config, s: State, steps: seq<Step>, i: nat, e: Event)
    requires IsRun(c, s, steps) && i <= |steps| && e.HasIdentity()
  {
    exists j: nat, v: nat :: j < i && v >= e.seqNo.value && StoresAt(c, s, steps, j, e.Key(), v) && NoCrashBetween(steps, j, i)
  }

  ghost predicate Explained(c: Config, s: State, steps: seq<Step>, i: nat, n: nat, reason: Reason)
    requires IsRun(c, s, steps) && AcksAt(c, s, steps, i, n)
  {
    var t := StateAt(c, s, steps, i);
    Shaped(t) && n < |t.broker.published| &&
    var e, pc := t.broker.published[n], t.worker.pcs[n];
    match reason
    case Duplicate => e.HasIdentity() && (e.seqNo.value <= c.SeedOf(e) || CoveredBefore(c, s, steps, i, e))
    case NoChange => exists j: nat :: j < i && LetsOffAt(c, s, steps, j, n) && ChangesNothing(StateAt(c, s, steps, j), n)
    case Effect => exists j: nat :: j < i && steps[j] == Commit(n)
    case StaleArea => pc.InTx? && exists a :: a in pc.current - pc.previous && a !in t.db.live
  }

  /** The transition that a transaction of message n would carry out now is the identity. */
  ghost predicate ChangesNothing(t: State, n: nat) {
    && Shaped(t) && n < |t.broker.published| && (t.worker.pcs[n].Hinting? || t.worker.pcs[n].HaveRead?)
    && var e, r := t.broker.published[n], RowsOf(t.db.rows, t.broker.published[n].user);
       Transition(r, t.worker.pcs[n].current * t.db.live, e.stamp) == r
  }

  lemma LetOffIsIdentity(c: Config, s: State, steps: seq<Step>, j: nat, n: nat)
    requires Init(s) && IsRun(c, s, steps) && LetsOffAt(c, s, steps, j, n)
    ensures ChangesNothing(StateAt(c, s, steps, j), n)
  {
    var t := StateAt(c, s, steps, j);
    InitHints(c, s);
    HintsAt(c, s, steps, j);
    FastPathSkipsNothing(c, t, n, t.broker.published[n].stamp);
  }

  lemma {:induction false} HintsAt(c: Config, s: State, steps: seq<Step>, j: nat)
    requires Hints(c, s) && IsRun(c, s, steps) && j <= |steps|
    ensures Hints(c, StateAt(c, s, steps, j))
    decreases |steps|
  {
    if j > 0 {
      HintsNext(c, s, steps[0]);
      HintsAt(c, Next(c, s, steps[0]), steps[1..], j - 1);
    }
  }

  lemma {:induction false} ReasonsAt(c: Config, s: State, steps: seq<Step>, j: nat)
    requires Reasons(c, s) && IsRun(c, s, steps) && j <= |steps|
    ensures Reasons(c, StateAt(c, s, steps, j))
    decreases |steps|
  {
    if j > 0 {
      ReasonsNext(c, s, steps[0]);
      ReasonsAt(c, Next(c, s, steps[0]), steps[1..], j - 1);
    }
  }

  /** A task that acks with one of these reasons is at the end of its report. */
  lemma FinishesWith(c: Config, s: State, step: Step)
    requires step.IsTask() && Enabled(c, s, step) && step.n in Next(c, s, step).broker.acked && Acks(c, s, step)
    ensures var reason := Next(c, s, step).broker.acked[step.n];
      && (reason.NoChange? || reason.Effect? ==> s.worker.pcs[step.n] == Finishing(reason))
      && (reason.Duplicate? ==> step.Gate? || step.Seed? || s.worker.pcs[step.n] == Finishing(reason))
  {
  }

  lemma DuplicateIsExplained(c: Config, s: State, steps: seq<Step>, i: nat, n: nat)
    requires Init(s) && IsRun(c, s, steps) && AcksAt(c, s, steps, i, n) && After(c, s, steps).broker.acked[n] == Duplicate
    ensures Explained(c, s, steps, i, n, Duplicate)
  {
    var t := StateAt(c, s, steps, i);
    InitReasons(c, s);
    ReasonsAt(c, s, steps, i);
    StepOfRun(c, s, steps, i);
    AckSaysWhatHappened(c, t, steps[i], n);
    var e := t.broker.published[n];
    if !t.worker.pcs[n].Seeding? {
      var j := EntryHasItsStep(c, s, steps, i, e.Key());
    }
  }

  lemma ReportIsExplained(c: Config, s: State, steps: seq<Step>, i: nat, n: nat)
    requires Init(s) && IsRun(c, s, steps) && AcksAt(c, s, steps, i, n) && After(c, s, steps).broker.acked[n] != Duplicate
    ensures Explained(c, s, steps, i, n, After(c, s, steps).broker.acked[n])
  {
    var t, reason := StateAt(c, s, steps, i), After(c, s, steps).broker.acked[n];
    InitReasons(c, s);
    ReasonsAt(c, s, steps, i);
    StepOfRun(c, s, steps, i);
    AckSaysWhatHappened(c, t, steps[i], n);
    TaskShape(c, t, steps[i]);
    FinishesWith(c, t, steps[i]);
    if reason.NoChange? {
      var j := LetOffHasItsStep(c, s, steps, i, n);
      LetOffIsIdentity(c, s, steps, j, n);
    } else if reason.Effect? {
      var j := CommitHasItsStep(c, s, steps, i, n);
    }
  }

  /** In every run, each acked message was acked by one step of its own task. A duplicate is at or
      below the seed, or a number stored under its key since the worker started; "no change" follows
      a comparison at which a transaction would have written nothing; an effect follows a commit of the message; and a
      stale area is one that it would have entered and that does not exist. */
  lemma EveryAckIsExplained(c: Config, s: State, steps: seq<Step>, n: nat) returns (i: nat)
    requires Init(s) && IsRun(c, s, steps) && n in After(c, s, steps).broker.acked
    ensures AcksAt(c, s, steps, i, n) && Explained(c, s, steps, i, n, After(c, s, steps).broker.acked[n])
  {
    InitReasons(c, s);
    i := AckHasItsStep(c, s, steps, n);
    if After(c, s, steps).broker.acked[n] == Duplicate {
      DuplicateIsExplained(c, s, steps, i, n);
    } else {
      ReportIsExplained(c, s, steps, i, n);
    }
  }
}
