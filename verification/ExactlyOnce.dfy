/** Exactly-once effect: worker crashes at any step, redeliveries and reprocessing leave every
    user's rows equal to a plain fold over the events in the order they were published. */
module ExactlyOnce {
  import opened Tables
  import opened Brokers
  import opened Pipeline
  import opened Conservation
  import opened FastPath
  import opened Dedup
  import opened Replay
  import opened Progress

  // ----- the assumptions, step by step

  /** Messages of one user stand in publication order: first those out, then those queued. */
  ghost predicate InOrder(b: Broker) {
    && InRange(b)
    && (forall i, j :: 0 <= i < j < |b.unacked| ==> Before(b, b.unacked[i], b.unacked[j]))
    && (forall i, j :: 0 <= i < j < |b.queue| ==> Before(b, b.queue[i], b.queue[j]))
    && (forall m, n :: m in b.unacked && n in b.queue ==> Before(b, m, n))
  }

  ghost predicate Before(b: Broker, m: nat, n: nat) {
    m < |b.published| && n < |b.published| && (b.published[m].user == b.published[n].user ==> m < n)
  }

  predicate SameKey(e: Event, f: Event) {
    e.HasIdentity() && f.HasIdentity() && e.Key() == f.Key()
  }

  /** Sequence numbers start above the seed and grow along the queue. */
  ghost predicate SeqsGrow(c: Config, published: seq<Event>) {
    && (forall n :: 0 <= n < |published| && published[n].HasIdentity()
          ==> c.SeedOf(published[n]) < published[n].seqNo.value)
    && (forall m, n :: 0 <= m < n < |published| && SameKey(published[m], published[n])
          ==> published[m].seqNo.value < published[n].seqNo.value)
  }

  ghost predicate GoodEvents(c: Config, published: seq<Event>) {
    && (forall n :: 0 <= n < |published| ==> published[n].v == SCHEMA_VERSION && published[n].PassesAccuracyGate())
    && KeysDistinct(published)
    && SeqsGrow(c, published)
  }

  /** A delivery goes back to a place that keeps its user's order: no other delivery of the user
      is out, and none of the user's queued messages stands before it. */
  ghost predicate KeepsPlace(b: Broker, n: nat, pos: nat)
    requires InRange(b) && n in b.unacked && pos <= |b.queue|
  {
    && (forall m :: m in b.unacked && m != n ==> b.published[m].user != b.published[n].user)
    && (forall i :: 0 <= i < pos ==> b.published[b.queue[i]].user != b.published[n].user)
  }

  /** Steps allowed here: well-formed publications, no area deleted, no new snapshot, nothing
      dead-lettered, and a nacked message put back in its place. */
  ghost predicate Calm(c: Config, s: State, step: Step)
    requires Enabled(c, s, step)
  {
    match step
    case Publish(e) => GoodEvents(c, s.broker.published + [e])
    case Fail(n, pos) => s.broker.comebacks[n] < c.deliveryLimit && KeepsPlace(s.broker, n, pos)
    case Crash => forall n :: n in s.broker.unacked ==> s.broker.comebacks[n] < c.deliveryLimit
    case DeleteArea(_) => false
    case Rebuild(_) => false
    case _ => true
  }

  ghost predicate IsCalmRun(c: Config, s: State, steps: seq<Step>)
    requires IsRun(c, s, steps)
    decreases |steps|
  {
    steps == [] || (Calm(c, s, steps[0]) && IsCalmRun(c, Next(c, s, steps[0]), steps[1..]))
  }

  // ----- the invariant

  ghost predicate Open(b: Broker, n: nat) {
    n in b.unacked || n in b.queue
  }

  /** Every message done for a user precedes all open messages of that user, except itself. */
  ghost predicate DoneFirst(b: Broker, done: set<nat>) {
    forall k, n :: k in done && Open(b, n) && k != n ==> Before(b, k, n)
  }

  ghost predicate OncePc(s: State, n: nat)
    requires Out(s, n)
  {
    var e, pc := s.broker.published[n], s.worker.pcs[n];
    && (KnowsCurrent(pc) ==> pc.current == s.worker.snapshot(e.at))
    && (pc.Opening? || pc.InTx? ==> PresenceOf(s, e.user) != pc.current)
    && (pc.Committed? || pc.Finishing? ==> n in s.past.applied)
  }

  ghost predicate SeqPending(b: Broker, lastSeq: LastSeq) {
    forall n: nat :: Open(b, n) && n < |b.published| && b.published[n].HasIdentity() && b.published[n].Key() in lastSeq
      ==> lastSeq[b.published[n].Key()] < b.published[n].seqNo.value
  }

  /** Every stored number is the seed or the number of some published event of its key. */
  ghost predicate Sourced(c: Config, published: seq<Event>, lastSeq: LastSeq) {
    forall k :: k in lastSeq ==> HasSource(c, published, k, lastSeq[k])
  }

  ghost predicate HasSource(c: Config, published: seq<Event>, key: string, v: nat) {
    exists n :: 0 <= n < |published| && IsSource(c, published[n], key, v)
  }

  predicate IsSource(c: Config, e: Event, key: string, v: nat) {
    e.HasIdentity() && e.Key() == key && (v == c.SeedOf(e) || v == e.seqNo.value)
  }

  ghost predicate RowsAreReplay(s: State, base: Rows) {
    forall u :: RowsOf(s.db.rows, u) == Replayed(base, s.worker.snapshot, s.broker.published, s.past.applied, u)
  }

  ghost predicate Once(c: Config, s: State, base: Rows) {
    && Hints(c, s)
    && GoodEvents(c, s.broker.published)
    && s.db.live == s.db.ever && s.broker.dead == {}
    && InOrder(s.broker)
    && (forall k :: k in s.past.applied ==> k < |s.broker.published|)
    && (forall k :: k in s.broker.acked ==> k in s.past.applied)
    && DoneFirst(s.broker, s.past.applied)
    && SeqPending(s.broker, s.worker.lastSeq) && Sourced(c, s.broker.published, s.worker.lastSeq)
    && (forall n :: n in s.broker.unacked ==> OncePc(s, n))
    && RowsAreReplay(s, base)
  }

  // ----- what it means

  /** At every moment each user's rows are the plain fold over a prefix of that user's events. */
  lemma RowsAreFoldOfPrefix(c: Config, s: State, base: Rows, user: string) returns (k: nat)
    requires Once(c, s, base)
    ensures k <= |s.broker.published|
    ensures RowsOf(s.db.rows, user) == Fold(RowsOf(base, user), s.worker.snapshot, EventsOf(s.broker.published[..k], user))
    ensures forall n: nat :: n < |s.broker.published| && s.broker.published[n].user == user ==> (n in s.past.applied <==> n < k)
  {
    k := FirstUndone(c, s, base, user, |s.broker.published|);
    ReplayedIsFoldOfPrefix(base, s.worker.snapshot, s.broker.published, s.past.applied, user, k);
  }

  lemma {:induction false} FirstUndone(c: Config, s: State, base: Rows, user: string, hi: nat) returns (k: nat)
    requires Once(c, s, base) && hi <= |s.broker.published|
    requires forall n: nat :: hi <= n < |s.broker.published| && s.broker.published[n].user == user ==> n !in s.past.applied
    ensures k <= hi
    ensures forall n: nat :: n < |s.broker.published| && s.broker.published[n].user == user ==> (n in s.past.applied <==> n < k)
    decreases hi
  {
    if hi == 0 {
      k := 0;
    } else if s.broker.published[hi - 1].user == user && hi - 1 in s.past.applied {
      k := hi;
      forall n: nat | n < hi - 1 && s.broker.published[n].user == user ensures n in s.past.applied {
        OneHome(s.broker, n);
        assert !Open(s.broker, n);
      }
    } else {
      k := FirstUndone(c, s, base, user, hi - 1);
    }
  }

  /** No message of the user is queued or out. */
  ghost predicate Drained(b: Broker, user: string) {
    forall n: nat :: n < |b.published| && Open(b, n) ==> b.published[n].user != user
  }

  /** Once nothing of a user is queued or out, that user's log and presence are exactly the
      fold over all of the user's events. */
  lemma DrainedUserIsFolded(c: Config, s: State, base: Rows, user: string)
    requires Once(c, s, base) && Drained(s.broker, user)
    ensures RowsOf(s.db.rows, user) == Fold(RowsOf(base, user), s.worker.snapshot, EventsOf(s.broker.published, user))
  {
    var published := s.broker.published;
    forall n: nat | n < |published| && published[n].user == user ensures n in s.past.applied {
      OneHome(s.broker, n);
      assert !Open(s.broker, n);
    }
    ReplayedIsFoldOfPrefix(base, s.worker.snapshot, published, s.past.applied, user, |published|);
    assert published[..|published|] == published;
  }

  /** At most one message of a user has taken effect without being acknowledged, and it is the
      oldest open message of that user. */
  lemma AtMostOneUnackedEffect(c: Config, s: State, base: Rows, k: nat, n: nat)
    requires Once(c, s, base) && k in s.past.applied && Open(s.broker, k) && Open(s.broker, n)
    requires n < |s.broker.published| && s.broker.published[k].user == s.broker.published[n].user
    ensures k <= n
    ensures n in s.past.applied ==> n == k
  {
    assert n != k ==> Before(s.broker, k, n);
    assert n != k && n in s.past.applied ==> Before(s.broker, n, k);
  }

  /** Reprocessing a message that already took effect never opens a transaction. */
  lemma ReprocessingChangesNothing(c: Config, s: State, base: Rows, n: nat)
    requires Once(c, s, base) && Out(s, n) && n in s.past.applied
    ensures !s.worker.pcs[n].Opening? && !s.worker.pcs[n].InTx?
    ensures PresenceOf(s, s.broker.published[n].user) == s.worker.snapshot(s.broker.published[n].at)
  {
    var u := s.broker.published[n].user;
    forall m | m in s.past.applied && m < |s.broker.published| && s.broker.published[m].user == u ensures m <= n {
      if m != n { assert Before(s.broker, m, n); }
    }
    ReplayEndsAtLatest(base, s.worker.snapshot, s.broker.published, s.past.applied, n);
    assert OncePc(s, n);
  }

  // ----- the invariant is kept: tasks

  /** The running task's message is the first open message of its user. */
  lemma RunningIsOldest(c: Config, s: State, base: Rows, n: nat, m: nat)
    requires Once(c, s, base) && Out(s, n) && Open(s.broker, m) && m != n
    requires !s.worker.pcs[n].Waiting?
    ensures Before(s.broker, n, m)
  {
  }

  /** Done set and rows after the running message n took effect. */
  lemma TakesEffect(c: Config, s: State, base: Rows, n: nat)
    requires Once(c, s, base) && Out(s, n) && !s.worker.pcs[n].Waiting?
    ensures DoneFirst(s.broker, s.past.applied + {n})
    ensures n !in s.past.applied ==>
      var e := s.broker.published[n];
      Replayed(base, s.worker.snapshot, s.broker.published, s.past.applied + {n}, e.user)
      == Transition(RowsOf(s.db.rows, e.user), s.worker.snapshot(e.at), e.stamp)
    ensures forall v :: v != s.broker.published[n].user ==>
      Replayed(base, s.worker.snapshot, s.broker.published, s.past.applied + {n}, v) == RowsOf(s.db.rows, v)
  {
    var b, done := s.broker, s.past.applied;
    forall k, m | k in done + {n} && Open(b, m) && k != m ensures Before(b, k, m) {
      if k == n { RunningIsOldest(c, s, base, n, m); }
    }
    if n !in done {
      forall m | m in done && m < |b.published| && b.published[m].user == b.published[n].user ensures m < n {
        assert Before(b, m, n);
      }
      ReplayOneMore(base, s.worker.snapshot, b.published, done, n);
    }
    forall v | v != b.published[n].user
      ensures Replayed(base, s.worker.snapshot, b.published, done + {n}, v) == RowsOf(s.db.rows, v)
    {
      SameDoneSameReplay(base, s.worker.snapshot, b.published, done, done + {n}, v);
    }
  }

  /** Steps that move the task of n and add at most n to the done messages. */
  lemma MoveKeepsOnce(c: Config, s: State, t: State, base: Rows, n: nat)
    requires Once(c, s, base) && Hints(c, t) && Out(s, n)
    requires !s.worker.pcs[n].Waiting? || IsFirstOfUser(s.broker, n)
    requires t.broker == s.broker && t.worker.snapshot == s.worker.snapshot
    requires t.db.live == s.db.live && t.db.ever == s.db.ever
    requires forall v :: v != s.broker.published[n].user ==> RowsOf(t.db.rows, v) == RowsOf(s.db.rows, v)
    requires forall m :: m in s.broker.unacked && m != n ==> t.worker.pcs[m] == s.worker.pcs[m]
    requires t.past.applied == s.past.applied || t.past.applied == s.past.applied + {n}
    requires DoneFirst(t.broker, t.past.applied) && RowsAreReplay(t, base)
    requires SeqPending(t.broker, t.worker.lastSeq) && Sourced(c, t.broker.published, t.worker.lastSeq)
    requires OncePc(t, n)
    ensures Once(c, t, base)
  {
    forall m | m in t.broker.unacked ensures OncePc(t, m) {
      if m != n {
        assert OncePc(s, m);
        if s.broker.published[m].user == s.broker.published[n].user {
          OthersWait(s.broker, s.worker.pcs, n, m);
        }
      }
    }
  }

  ghost predicate IsQuiet(s: State, step: Step) {
    || step.Start? || step.Gate? || step.Lookup? || step.ReadHint? || step.Open? || step.SetMemory?
    || (step.Hint? && Out(s, step.n) && s.broker.published[step.n].user !in s.worker.memory)
  }

  lemma QuietMove(c: Config, s: State, step: Step)
    requires IsQuiet(s, step) && Enabled(c, s, step) && !Acks(c, s, step) && OncePc(s, step.n)
    ensures var n, t := step.n, Next(c, s, step);
      && t.broker == s.broker && t.db == s.db && t.past == s.past && t.worker.snapshot == s.worker.snapshot
      && t.worker.lastSeq == s.worker.lastSeq
      && Out(t, n) && OncePc(t, n)
      && forall m :: m in s.broker.unacked && m != n ==> t.worker.pcs[m] == s.worker.pcs[m]
  {
  }

  /** Steps that change nothing but the task of n, and perhaps the memory. */
  lemma SamePastKeepsOnce(c: Config, s: State, t: State, base: Rows, n: nat)
    requires Once(c, s, base) && Hints(c, t) && Out(s, n)
    requires !s.worker.pcs[n].Waiting? || IsFirstOfUser(s.broker, n)
    requires t.broker == s.broker && t.db == s.db && t.past == s.past && t.worker.snapshot == s.worker.snapshot
    requires t.worker.lastSeq == s.worker.lastSeq && OncePc(t, n)
    requires forall m :: m in s.broker.unacked && m != n ==> t.worker.pcs[m] == s.worker.pcs[m]
    ensures Once(c, t, base)
  {
    MoveKeepsOnce(c, s, t, base, n);
  }

  lemma QuietMoveKeepsOnce(c: Config, s: State, base: Rows, step: Step)
    requires Once(c, s, base) && IsQuiet(s, step) && Enabled(c, s, step) && !Acks(c, s, step)
    ensures Once(c, Next(c, s, step), base)
  {
    HintsNext(c, s, step);
    QuietMove(c, s, step);
    SamePastKeepsOnce(c, s, Next(c, s, step), base, step.n);
  }

  /** A message that has not taken effect is never mistaken for a duplicate. */
  lemma NeverDuplicate(c: Config, s: State, base: Rows, step: Step)
    requires Once(c, s, base) && (step.Gate? || step.Seed?) && Enabled(c, s, step)
    ensures !Acks(c, s, step)
  {
  }

  lemma GateKeepsOnce(c: Config, s: State, base: Rows, n: nat)
    requires Once(c, s, base) && Enabled(c, s, Gate(n))
    ensures Once(c, Next(c, s, Gate(n)), base)
  {
    NeverDuplicate(c, s, base, Gate(n));
    QuietMoveKeepsOnce(c, s, base, Gate(n));
  }

  lemma SeedMove(c: Config, s: State, n: nat)
    requires Enabled(c, s, Seed(n)) && !Acks(c, s, Seed(n)) && OncePc(s, n)
    ensures var t, e := Next(c, s, Seed(n)), s.broker.published[n];
      && t.broker == s.broker && t.db == s.db && t.past == s.past && t.worker.snapshot == s.worker.snapshot
      && t.worker.lastSeq == s.worker.lastSeq[e.Key() := c.SeedOf(e)]
      && Out(t, n) && OncePc(t, n)
      && forall m :: m in s.broker.unacked && m != n ==> t.worker.pcs[m] == s.worker.pcs[m]
  {
  }

  lemma SeedSeqPending(c: Config, b: Broker, lastSeq: LastSeq, n: nat)
    requires n < |b.published| && b.published[n].HasIdentity() && GoodEvents(c, b.published) && SeqPending(b, lastSeq)
    requires Sourced(c, b.published, lastSeq)
    ensures var e := b.published[n];
      SeqPending(b, lastSeq[e.Key() := c.SeedOf(e)]) && Sourced(c, b.published, lastSeq[e.Key() := c.SeedOf(e)])
  {
    var e := b.published[n];
    forall m: nat | Open(b, m) && m < |b.published| && b.published[m].HasIdentity() && b.published[m].Key() == e.Key()
      ensures c.SeedOf(e) < b.published[m].seqNo.value
    {
      assert c.SeedOf(b.published[m]) == c.SeedOf(e);
    }
    assert IsSource(c, b.published[n], e.Key(), c.SeedOf(e));
  }

  lemma SeedKeepsOnce(c: Config, s: State, base: Rows, n: nat)
    requires Once(c, s, base) && Enabled(c, s, Seed(n))
    ensures Once(c, Next(c, s, Seed(n)), base)
  {
    HintsNext(c, s, Seed(n));
    NeverDuplicate(c, s, base, Seed(n));
    SeedMove(c, s, n);
    SeedSeqPending(c, s.broker, s.worker.lastSeq, n);
    MoveKeepsOnce(c, s, Next(c, s, Seed(n)), base, n);
  }

  /** Without deletions the memory and the hint are the presence rows themselves. */
  lemma HintIsPresence(c: Config, s: State, base: Rows, n: nat)
    requires Once(c, s, base) && Out(s, n) && (s.worker.pcs[n].Hinting? || s.worker.pcs[n].HaveRead?)
    ensures var u := s.broker.published[n].user;
      && (u in s.worker.memory ==> s.worker.memory[u] == PresenceOf(s, u))
      && (s.worker.pcs[n].HaveRead? ==> s.worker.pcs[n].got == PresenceOf(s, u))
  {
    MemoryIsExact(c, s, n);
    var u := s.broker.published[n].user;
    assert PcFits(s.db, u, s.worker.pcs[n]);
    if u in s.worker.memory {
      assert s.worker.memory[u] * s.db.live == s.worker.memory[u];
    }
    if s.worker.pcs[n].HaveRead? {
      assert s.worker.pcs[n].got * s.db.live == s.worker.pcs[n].got;
    }
  }

  /** No change: the transition of the event is the identity. */
  lemma NoChangeIsReplayed(c: Config, s: State, t: State, base: Rows, n: nat)
    requires Once(c, s, base) && Out(s, n) && !s.worker.pcs[n].Waiting?
    requires PresenceOf(s, s.broker.published[n].user) == s.worker.snapshot(s.broker.published[n].at)
    requires t.db.rows == s.db.rows && t.worker.snapshot == s.worker.snapshot && t.broker == s.broker
    requires t.past.applied == s.past.applied + {n}
    ensures DoneFirst(t.broker, t.past.applied) && RowsAreReplay(t, base)
  {
    var e := s.broker.published[n];
    TakesEffect(c, s, base, n);
    if n in s.past.applied {
      assert s.past.applied + {n} == s.past.applied;
    } else {
      TransitionToSamePresence(RowsOf(s.db.rows, e.user), e.stamp);
    }
  }

  ghost predicate ComparesWithPresence(s: State, step: Step)
    requires (step.Hint? || step.KeepHint?) && Out(s, step.n)
  {
    var u, pc := s.broker.published[step.n].user, s.worker.pcs[step.n];
    if step.Hint? then u in s.worker.memory && s.worker.memory[u] == PresenceOf(s, u)
    else pc.HaveRead? && pc.got == PresenceOf(s, u)
  }

  lemma ComparedMove(c: Config, s: State, step: Step)
    requires (step.Hint? || step.KeepHint?) && Enabled(c, s, step) && OncePc(s, step.n)
    requires ComparesWithPresence(s, step)
    ensures var n, t := step.n, Next(c, s, step);
      && t.broker == s.broker && t.db == s.db && t.worker.snapshot == s.worker.snapshot
      && t.worker.lastSeq == s.worker.lastSeq
      && Out(t, n) && OncePc(t, n)
      && (forall m :: m in s.broker.unacked && m != n ==> t.worker.pcs[m] == s.worker.pcs[m])
      && (t.past == s.past
          || (t.past.applied == s.past.applied + {n}
              && PresenceOf(s, s.broker.published[n].user) == s.worker.snapshot(s.broker.published[n].at)))
  {
  }

  lemma ComparedKeepsOnce(c: Config, s: State, base: Rows, step: Step)
    requires Once(c, s, base) && (step.Hint? || step.KeepHint?) && Enabled(c, s, step)
    requires step.Hint? ==> s.broker.published[step.n].user in s.worker.memory
    ensures Once(c, Next(c, s, step), base)
  {
    HintsNext(c, s, step);
    HintIsPresence(c, s, base, step.n);
    ComparedMove(c, s, step);
    ComparedMoveKeepsOnce(c, s, Next(c, s, step), base, step.n);
  }

  lemma ComparedMoveKeepsOnce(c: Config, s: State, t: State, base: Rows, n: nat)
    requires Once(c, s, base) && Hints(c, t) && Out(s, n) && !s.worker.pcs[n].Waiting?
    requires t.broker == s.broker && t.db == s.db && t.worker.snapshot == s.worker.snapshot
    requires t.worker.lastSeq == s.worker.lastSeq && OncePc(t, n)
    requires forall m :: m in s.broker.unacked && m != n ==> t.worker.pcs[m] == s.worker.pcs[m]
    requires t.past == s.past
      || (t.past.applied == s.past.applied + {n}
          && PresenceOf(s, s.broker.published[n].user) == s.worker.snapshot(s.broker.published[n].at))
    ensures Once(c, t, base)
  {
    if t.past != s.past {
      NoChangeIsReplayed(c, s, t, base, n);
    }
    MoveKeepsOnce(c, s, t, base, n);
  }

  lemma CommitIsReplayed(c: Config, s: State, base: Rows, n: nat)
    requires Once(c, s, base) && Enabled(c, s, Commit(n))
    ensures var t := Next(c, s, Commit(n)); DoneFirst(t.broker, t.past.applied) && RowsAreReplay(t, base)
  {
    var e, current := s.broker.published[n], s.worker.pcs[n].current;
    assert OncePc(s, n);
    if n in s.past.applied {
      ReprocessingChangesNothing(c, s, base, n);
    }
    TakesEffect(c, s, base, n);
    CommitPerformsTransition(c, s, n);
    assert PcFits(s.db, e.user, s.worker.pcs[n]);
    assert current * s.db.live == current;
  }

  lemma CommitMove(c: Config, s: State, n: nat)
    requires Enabled(c, s, Commit(n)) && OncePc(s, n)
    ensures var t := Next(c, s, Commit(n));
      && t.broker == s.broker && t.worker.snapshot == s.worker.snapshot && t.worker.lastSeq == s.worker.lastSeq
      && t.db.live == s.db.live && t.db.ever == s.db.ever && t.past.applied == s.past.applied + {n}
      && Out(t, n) && OncePc(t, n)
      && (forall m :: m in s.broker.unacked && m != n ==> t.worker.pcs[m] == s.worker.pcs[m])
      && (forall v :: v != s.broker.published[n].user ==> RowsOf(t.db.rows, v) == RowsOf(s.db.rows, v))
  {
  }

  lemma CommitKeepsOnce(c: Config, s: State, base: Rows, n: nat)
    requires Once(c, s, base) && Enabled(c, s, Commit(n))
    ensures Once(c, Next(c, s, Commit(n)), base)
  {
    HintsNext(c, s, Commit(n));
    CommitIsReplayed(c, s, base, n);
    CommitMove(c, s, n);
    MoveKeepsOnce(c, s, Next(c, s, Commit(n)), base, n);
  }

  /** With every area alive the foreign key never fails. */
  lemma NoStaleArea(c: Config, s: State, base: Rows, n: nat)
    requires Once(c, s, base) && Out(s, n) && s.worker.pcs[n].InTx?
    ensures EntersOnlyLive(s.worker.pcs[n], s.db.live)
  {
  }

  // ----- the invariant is kept: settling, publishing, failing

  lemma RemoveKeepsInOrder(b: Broker, t: Broker, n: nat)
    requires InOrder(b) && n in b.unacked && InRange(t)
    requires t.published == b.published && t.queue == b.queue && t.unacked == Remove(b.unacked, n)
    ensures InOrder(t)
  {
    RemoveFacts(b.unacked, n);
    var k := IndexOf(b.unacked, n);
    forall i, j | 0 <= i < j < |t.unacked| ensures Before(t, t.unacked[i], t.unacked[j]) {
      assert t.unacked[i] == b.unacked[if i < k then i else i + 1];
      assert t.unacked[j] == b.unacked[if j < k then j else j + 1];
      assert Before(b, t.unacked[i], t.unacked[j]);
    }
    forall m, q | m in t.unacked && q in t.queue ensures Before(t, m, q) {
      assert Before(b, m, q);
    }
    forall i, j | 0 <= i < j < |t.queue| ensures Before(t, t.queue[i], t.queue[j]) {
      assert Before(b, b.queue[i], b.queue[j]);
    }
  }

  /** What settling may do: fewer or equally many open messages, nothing else. */
  lemma FewerOpenKeepsOnce(c: Config, s: State, t: State, base: Rows)
    requires Once(c, s, base) && Hints(c, t)
    requires t.broker.published == s.broker.published && InOrder(t.broker) && t.broker.dead == {}
    requires forall m :: Open(t.broker, m) ==> Open(s.broker, m)
    requires forall m :: m in t.broker.acked ==> m in s.past.applied
    requires t.db == s.db && t.worker.snapshot == s.worker.snapshot && t.past.applied == s.past.applied
    requires SeqPending(t.broker, t.worker.lastSeq) && Sourced(c, t.broker.published, t.worker.lastSeq)
    requires forall m :: m in t.broker.unacked ==> t.worker.pcs[m].Waiting? || (m in s.broker.unacked && t.worker.pcs[m] == s.worker.pcs[m])
    ensures Once(c, t, base)
  {
    forall m | m in t.broker.unacked ensures OncePc(t, m) {
      if m in s.broker.unacked { assert OncePc(s, m); }
    }
    forall k, m | k in t.past.applied && Open(t.broker, m) && k != m ensures Before(t.broker, k, m) {
      assert Before(s.broker, k, m);
    }
  }

  /** A success moves its key up, but not past the open messages behind it. */
  lemma FinishSeqPending(c: Config, s: State, base: Rows, d: Broker, n: nat)
    requires Once(c, s, base) && Out(s, n) && !s.worker.pcs[n].Waiting?
    requires d.published == s.broker.published && d.unacked == Remove(s.broker.unacked, n) && d.queue == s.broker.queue
    ensures SeqPending(d, Remember(s.worker.lastSeq, s.broker.published[n]))
  {
    var e, lastSeq := s.broker.published[n], Remember(s.worker.lastSeq, s.broker.published[n]);
    OneHome(s.broker, n);
    RemoveFacts(s.broker.unacked, n);
    forall m: nat | Open(d, m) && m < |d.published| && d.published[m].HasIdentity() && d.published[m].Key() in lastSeq
      ensures lastSeq[d.published[m].Key()] < d.published[m].seqNo.value
    {
      assert Open(s.broker, m) && m != n;
      if e.HasIdentity() && d.published[m].Key() == e.Key() {
        RunningIsOldest(c, s, base, n, m);
        assert SameKey(e, s.broker.published[m]);
      }
    }
  }

  lemma RememberKeepsSourced(c: Config, published: seq<Event>, lastSeq: LastSeq, n: nat)
    requires Sourced(c, published, lastSeq) && n < |published|
    ensures Sourced(c, published, Remember(lastSeq, published[n]))
  {
  }

  lemma FinishKeepsOnce(c: Config, s: State, base: Rows, n: nat)
    requires Once(c, s, base) && Enabled(c, s, Finish(n))
    ensures Once(c, Next(c, s, Finish(n)), base)
  {
    var t := Next(c, s, Finish(n));
    HintsNext(c, s, Finish(n));
    RemoveFacts(s.broker.unacked, n);
    FinishShape(c, s, n);
    FinishSeqPending(c, s, base, t.broker, n);
    RemoveKeepsInOrder(s.broker, t.broker, n);
    assert OncePc(s, n);
    RememberKeepsSourced(c, s.broker.published, s.worker.lastSeq, n);
    FewerOpenKeepsOnce(c, s, t, base);
  }

  lemma InsertKeepsInOrder(b: Broker, t: Broker, n: nat, pos: nat)
    requires InOrder(b) && InRange(t) && n < |b.published| && pos <= |b.queue|
    requires t.published == b.published && t.unacked == b.unacked && t.queue == Inserted(b.queue, pos, n)
    requires forall i :: 0 <= i < pos ==> Before(b, b.queue[i], n)
    requires forall i :: pos <= i < |b.queue| ==> Before(b, n, b.queue[i])
    requires forall m :: m in b.unacked ==> Before(b, m, n)
    ensures InOrder(t)
  {
    InsertedFacts(b.queue, pos, n);
    forall i, j | 0 <= i < j < |t.queue| ensures Before(t, t.queue[i], t.queue[j]) {
      var i', j' := if i < pos then i else i - 1, if j < pos then j else j - 1;
      assert i != pos ==> t.queue[i] == b.queue[i'];
      assert j != pos ==> t.queue[j] == b.queue[j'];
      assert i != pos && j != pos ==> Before(b, b.queue[i'], b.queue[j']);
    }
    forall i, j | 0 <= i < j < |t.unacked| ensures Before(t, t.unacked[i], t.unacked[j]) {
      assert Before(b, t.unacked[i], t.unacked[j]);
    }
    forall m, q | m in t.unacked && q in t.queue ensures Before(t, m, q) {
      assert q != n ==> Before(b, m, q);
    }
  }

  lemma PlaceKeepsOrder(c: Config, b: Broker, n: nat, pos: nat)
    requires InOrder(b) && Conserved(b) && n in b.unacked && pos <= |b.queue| && b.comebacks[n] < c.deliveryLimit
    requires KeepsPlace(b, n, pos)
    ensures InOrder(GivenBack(c, b, n, pos))
  {
    var t, d := GivenBack(c, b, n, pos), b.(unacked := Remove(b.unacked, n));
    OneHome(b, n);
    RemoveFacts(b.unacked, n);
    RemoveKeepsInOrder(b, d, n);
    forall i | pos <= i < |d.queue| ensures Before(d, n, d.queue[i]) { assert Before(b, n, b.queue[i]); }
    InsertKeepsInOrder(d, t, n, pos);
  }

  /** The guard is exact: for the oldest delivery of a user that has not used up its limit, going
      back keeps the queue in order if and only if it goes back to its place. */
  lemma OrderKeptExactlyInPlace(c: Config, b: Broker, n: nat, pos: nat)
    requires InOrder(b) && Conserved(b) && n in b.unacked && pos <= |b.queue| && b.comebacks[n] < c.deliveryLimit
    requires IsFirstOfUser(b, n)
    ensures InOrder(GivenBack(c, b, n, pos)) <==> KeepsPlace(b, n, pos)
  {
    var t := GivenBack(c, b, n, pos);
    if KeepsPlace(b, n, pos) {
      PlaceKeepsOrder(c, b, n, pos);
    } else if m :| m in b.unacked && m != n && b.published[m].user == b.published[n].user {
      var k, j := IndexOf(b.unacked, n), IndexOf(b.unacked, m);
      assert Before(b, b.unacked[k], b.unacked[j]);
      StillThere(b.unacked, n, m);
      assert t.queue[pos] == n;
      assert !Before(t, m, n);
    } else {
      var i :| 0 <= i < pos && b.published[b.queue[i]].user == b.published[n].user;
      assert Before(b, n, b.queue[i]);
      assert t.queue[i] == b.queue[i] && t.queue[pos] == n;
      assert !Before(t, t.queue[i], t.queue[pos]);
    }
  }

  lemma GivenBackStaysOpen(c: Config, b: Broker, n: nat, pos: nat)
    requires InRange(b) && n in b.unacked && pos <= |b.queue| && b.comebacks[n] < c.deliveryLimit
    ensures var d := GivenBack(c, b, n, pos);
      && d.published == b.published && d.acked == b.acked && d.dead == b.dead
      && d.unacked == Remove(b.unacked, n) && d.comebacks == b.comebacks[n := b.comebacks[n] + 1]
      && (forall m :: m in d.unacked ==> m in b.unacked) && (forall m :: Open(d, m) ==> Open(b, m))
  {
    RemoveFacts(b.unacked, n);
    InsertedFacts(b.queue, pos, n);
  }

  lemma FailKeepsOnce(c: Config, s: State, base: Rows, n: nat, pos: nat)
    requires Once(c, s, base) && Enabled(c, s, Fail(n, pos)) && Calm(c, s, Fail(n, pos))
    ensures Once(c, Next(c, s, Fail(n, pos)), base)
  {
    var t := Next(c, s, Fail(n, pos));
    HintsNext(c, s, Fail(n, pos));
    GivenBackStaysOpen(c, s.broker, n, pos);
    PlaceKeepsOrder(c, s.broker, n, pos);
    FewerOpenKeepsOnce(c, s, t, base);
  }

  lemma GivenLastKeepsOrder(c: Config, b: Broker)
    requires InOrder(b) && Conserved(b) && b.unacked != []
    requires b.comebacks[b.unacked[|b.unacked| - 1]] < c.deliveryLimit
    ensures InOrder(GivenBack(c, b, b.unacked[|b.unacked| - 1], 0))
  {
    var last := |b.unacked| - 1;
    var n := b.unacked[last];
    var t, d := GivenBack(c, b, n, 0), b.(unacked := Remove(b.unacked, n));
    Unrepeated(b, IndexOf(b.unacked, n), last);
    RemoveFacts(b.unacked, n);
    assert d.unacked == b.unacked[..last];
    RemoveKeepsInOrder(b, d, n);
    forall i | 0 <= i < |d.queue| ensures Before(d, n, d.queue[i]) { assert Before(b, n, b.queue[i]); }
    forall m | m in d.unacked ensures Before(d, m, n) { assert Before(b, m, n); }
    InsertKeepsInOrder(d, t, n, 0);
  }

  lemma {:induction false} CrashKeepsOrder(c: Config, b: Broker)
    requires InOrder(b) && Conserved(b) && Counted(c, b) && b.dead == {}
    requires forall n :: n in b.unacked ==> b.comebacks[n] < c.deliveryLimit
    ensures var t := AllGivenBack(c, b);
      && t.published == b.published && InOrder(t) && t.dead == {} && t.acked == b.acked
      && (forall m :: Open(t, m) ==> Open(b, m))
    decreases |b.unacked|
  {
    if b.unacked != [] {
      var n := b.unacked[|b.unacked| - 1];
      var d := GivenBack(c, b, n, 0);
      GivenBackStaysOpen(c, b, n, 0);
      OneHome(b, n);
      GivenLastKeepsOrder(c, b);
      GivenBackKeeps(c, b, n, 0);
      CrashKeepsOrder(c, d);
    }
  }

  lemma CrashKeepsOnce(c: Config, s: State, base: Rows)
    requires Once(c, s, base) && Calm(c, s, Crash)
    ensures Once(c, Next(c, s, Crash), base)
  {
    HintsNext(c, s, Crash);
    CrashKeepsOrder(c, s.broker);
    FewerOpenKeepsOnce(c, s, Next(c, s, Crash), base);
  }

  lemma HandedKeepsOrder(b: Broker)
    requires InOrder(b) && b.queue != []
    ensures InOrder(Handed(b))
  {
    var t := Handed(b);
    forall i, j | 0 <= i < j < |t.unacked| ensures Before(t, t.unacked[i], t.unacked[j]) {
      assert Before(b, t.unacked[i], t.unacked[j]);
    }
    forall i, j | 0 <= i < j < |t.queue| ensures Before(t, t.queue[i], t.queue[j]) {
      assert Before(b, b.queue[i + 1], b.queue[j + 1]);
    }
    forall m, q | m in t.unacked && q in t.queue ensures Before(t, m, q) {
      var j :| 0 <= j < |t.queue| && t.queue[j] == q;
      assert Before(b, b.queue[0], b.queue[j + 1]);
      assert m in b.unacked ==> Before(b, m, q);
    }
  }

  lemma HandedStaysOpen(b: Broker)
    requires InRange(b) && b.queue != []
    ensures forall m :: Open(Handed(b), m) ==> Open(b, m)
  {
  }

  lemma HandedKeepsOnce(c: Config, s: State, t: State, base: Rows, n: nat)
    requires Once(c, s, base) && Hints(c, t) && s.broker.queue != [] && t.broker == Handed(s.broker) && InOrder(t.broker)
    requires n !in s.broker.unacked && n < |s.worker.pcs| && t.broker.unacked == s.broker.unacked + [n]
    requires t.worker == s.worker.(pcs := s.worker.pcs[n := Waiting]) && t.db == s.db && t.past == s.past
    ensures Once(c, t, base)
  {
    HandedStaysOpen(s.broker);
    FewerOpenKeepsOnce(c, s, t, base);
  }

  lemma DeliverKeepsOnce(c: Config, s: State, base: Rows, pos: nat)
    requires Once(c, s, base) && Enabled(c, s, Deliver(pos))
    ensures Once(c, Next(c, s, Deliver(pos)), base)
  {
    HintsNext(c, s, Deliver(pos));
    HandedKeepsOrder(s.broker);
    DeliverShape(c, s, pos);
    HandedKeepsOnce(c, s, Next(c, s, Deliver(pos)), base, s.broker.queue[0]);
  }

  lemma EnqueuedKeepsOrder(b: Broker, e: Event)
    requires InOrder(b)
    ensures InOrder(Enqueued(b, e))
  {
    var t := Enqueued(b, e);
    forall i, j | 0 <= i < j < |t.unacked| ensures Before(t, t.unacked[i], t.unacked[j]) {
      assert Before(b, b.unacked[i], b.unacked[j]);
    }
    forall i, j | 0 <= i < j < |t.queue| ensures Before(t, t.queue[i], t.queue[j]) {
      if j < |b.queue| { assert Before(b, b.queue[i], b.queue[j]); }
    }
    forall m, q | m in t.unacked && q in t.queue ensures Before(t, m, q) {
      if q in b.queue { assert Before(b, m, q); }
    }
  }

  lemma PublishedKeepsOnce(c: Config, s: State, t: State, base: Rows, e: Event)
    requires Once(c, s, base) && GoodEvents(c, s.broker.published + [e]) && Hints(c, t) && InOrder(t.broker)
    requires t.broker == Enqueued(s.broker, e) && t.db == s.db && t.past == s.past
    requires t.worker == s.worker.(pcs := s.worker.pcs + [Waiting])
    ensures Once(c, t, base)
  {
    var N := |s.broker.published|;
    forall k, m | k in t.past.applied && Open(t.broker, m) && k != m ensures Before(t.broker, k, m) {
      if m != N { assert Open(s.broker, m) && Before(s.broker, k, m); }
    }
    forall m | m in t.broker.unacked ensures OncePc(t, m) {
      assert OncePc(s, m);
    }
    assert t.broker.published[..N] == s.broker.published;
    assert RowsAreReplay(t, base);
    PublishSeqPending(c, s.broker, s.worker.lastSeq, e);
  }

  lemma PublishKeepsOnce(c: Config, s: State, base: Rows, e: Event)
    requires Once(c, s, base) && Calm(c, s, Publish(e))
    ensures Once(c, Next(c, s, Publish(e)), base)
  {
    HintsNext(c, s, Publish(e));
    EnqueuedKeepsOrder(s.broker, e);
    PublishedKeepsOnce(c, s, Next(c, s, Publish(e)), base, e);
  }

  lemma PublishSeqPending(c: Config, b: Broker, lastSeq: LastSeq, e: Event)
    requires InRange(b) && SeqPending(b, lastSeq) && Sourced(c, b.published, lastSeq)
    requires GoodEvents(c, b.published + [e])
    ensures SeqPending(Enqueued(b, e), lastSeq) && Sourced(c, b.published + [e], lastSeq)
  {
    var t, N := Enqueued(b, e), |b.published|;
    forall k | k in lastSeq ensures HasSource(c, t.published, k, lastSeq[k]) {
      var m :| 0 <= m < N && IsSource(c, b.published[m], k, lastSeq[k]);
      assert t.published[m] == b.published[m];
    }
    forall n: nat | Open(t, n) && n < |t.published| && t.published[n].HasIdentity() && t.published[n].Key() in lastSeq
      ensures lastSeq[t.published[n].Key()] < t.published[n].seqNo.value
    {
      if n == N {
        var m :| 0 <= m < N && IsSource(c, b.published[m], e.Key(), lastSeq[e.Key()]);
        assert t.published[m] == b.published[m] && t.published[N] == e;
        assert SameKey(t.published[m], t.published[N]);
        assert c.SeedOf(t.published[m]) == c.SeedOf(e);
      } else {
        assert Open(b, n);
      }
    }
  }

  lemma CreateKeepsOnce(c: Config, s: State, base: Rows, area: AreaId)
    requires Once(c, s, base) && Enabled(c, s, CreateArea(area))
    ensures Once(c, Next(c, s, CreateArea(area)), base)
  {
    var t := Next(c, s, CreateArea(area));
    HintsNext(c, s, CreateArea(area));
    forall n | n in t.broker.unacked ensures OncePc(t, n) {
      assert OncePc(s, n);
    }
  }

  lemma ReportStepKeepsOnce(c: Config, s: State, base: Rows, step: Step)
    requires Once(c, s, base) && step.IsTask() && Enabled(c, s, step)
    requires !step.Gate? && !step.Seed? && !step.Commit? && !step.Finish? && !step.FkDrop?
    ensures Once(c, Next(c, s, step), base)
  {
    if IsQuiet(s, step) {
      QuietMoveKeepsOnce(c, s, base, step);
    } else {
      ComparedKeepsOnce(c, s, base, step);
    }
  }

  lemma TaskKeepsOnce(c: Config, s: State, base: Rows, step: Step)
    requires Once(c, s, base) && step.IsTask() && Enabled(c, s, step)
    ensures Once(c, Next(c, s, step), base)
  {
    if step.Seed? {
      SeedKeepsOnce(c, s, base, step.n);
    } else if step.Gate? {
      GateKeepsOnce(c, s, base, step.n);
    } else if step.Commit? {
      CommitKeepsOnce(c, s, base, step.n);
    } else if step.Finish? {
      FinishKeepsOnce(c, s, base, step.n);
    } else if step.FkDrop? {
      NoStaleArea(c, s, base, step.n);
    } else {
      ReportStepKeepsOnce(c, s, base, step);
    }
  }

  lemma OnceNext(c: Config, s: State, base: Rows, step: Step)
    requires Once(c, s, base) && Enabled(c, s, step) && Calm(c, s, step)
    ensures Once(c, Next(c, s, step), base)
  {
    if step.IsTask() {
      TaskKeepsOnce(c, s, base, step);
    } else if step.Publish? {
      PublishKeepsOnce(c, s, base, step.e);
    } else if step.Deliver? {
      DeliverKeepsOnce(c, s, base, step.pos);
    } else if step.Fail? {
      FailKeepsOnce(c, s, base, step.n, step.pos);
    } else if step.Crash? {
      CrashKeepsOnce(c, s, base);
    } else {
      CreateKeepsOnce(c, s, base, step.area);
    }
  }

  lemma {:induction false} RunKeepsOnce(c: Config, s: State, base: Rows, steps: seq<Step>)
    requires Once(c, s, base) && IsRun(c, s, steps) && IsCalmRun(c, s, steps)
    ensures Once(c, After(c, s, steps), base)
    decreases |steps|
  {
    if steps != [] {
      OnceNext(c, s, base, steps[0]);
      RunKeepsOnce(c, Next(c, s, steps[0]), base, steps[1..]);
    }
  }

  lemma InitOnce(c: Config, s: State)
    requires Init(s) && s.db.live == s.db.ever
    ensures Once(c, s, s.db.rows)
  {
    InitHints(c, s);
  }

  /** Exactly-once effect through crashes. From an empty queue, after any calm run, a user none
      of whose messages is still open has the log and the presence of the plain fold. */
  lemma ExactlyOnceThroughCrashes(c: Config, s: State, steps: seq<Step>, user: string)
    requires Init(s) && s.db.live == s.db.ever
    requires IsRun(c, s, steps) && IsCalmRun(c, s, steps)
    requires Drained(After(c, s, steps).broker, user)
    ensures var t := After(c, s, steps);
      RowsOf(t.db.rows, user) == Fold(RowsOf(s.db.rows, user), t.worker.snapshot, EventsOf(t.broker.published, user))
  {
    InitOnce(c, s);
    RunKeepsOnce(c, s, s.db.rows, steps);
    DrainedUserIsFolded(c, After(c, s, steps), s.db.rows, user);
  }

  // ----- every calm run can be finished

  lemma CalmPrepend(c: Config, s: State, step: Step, rest: seq<Step>)
    requires Enabled(c, s, step) && Calm(c, s, step)
    requires IsRun(c, Next(c, s, step), rest) && IsCalmRun(c, Next(c, s, step), rest)
    ensures IsRun(c, s, [step] + rest) && IsCalmRun(c, s, [step] + rest)
    ensures After(c, s, [step] + rest) == After(c, Next(c, s, step), rest)
  {
  }

  /** A calm step that brings the work nearer to its end. */
  /** A delivery, or a step of some task. */
  ghost predicate IsMove(s: State, step: Step) {
    step == Deliver(0) || OthersStep(s.broker, {}, step)
  }

  lemma MoveIsCalm(c: Config, s: State, base: Rows, step: Step)
    requires Once(c, s, base) && Enabled(c, s, step) && IsMove(s, step)
    ensures Calm(c, s, step)
  {
  }

  lemma MoveIsCheaper(c: Config, s: State, step: Step)
    requires Sound(c, s) && Enabled(c, s, step) && IsMove(s, step)
    ensures Next(c, s, step).broker.published == s.broker.published && Sound(c, Next(c, s, step))
    ensures Weight(c, Next(c, s, step)) < Weight(c, s)
  {
    PublishedAfter(c, s, step);
    StepIsPaidFor(c, s, step);
  }

  lemma CalmMove(c: Config, s: State, base: Rows) returns (step: Step)
    requires Once(c, s, base) && (s.broker.unacked != [] || s.broker.queue != [])
    ensures Enabled(c, s, step) && Calm(c, s, step)
    ensures var t := Next(c, s, step);
      Once(c, t, base) && t.broker.published == s.broker.published && Weight(c, t) < Weight(c, s)
  {
    if s.broker.unacked != [] {
      step := SomeTaskMoves(c, s, {}, s.broker.unacked[0]);
    } else {
      step := Deliver(0);
    }
    MoveIsCalm(c, s, base, step);
    MoveIsCheaper(c, s, step);
    OnceNext(c, s, base, step);
  }

  ghost predicate FullyFolded(s: State, base: Rows) {
    forall u :: RowsOf(s.db.rows, u) == Fold(RowsOf(base, u), s.worker.snapshot, EventsOf(s.broker.published, u))
  }

  lemma FinishedIsFolded(c: Config, s: State, base: Rows)
    requires Once(c, s, base) && s.broker.unacked == [] && s.broker.queue == []
    ensures FullyFolded(s, base)
  {
    forall u ensures RowsOf(s.db.rows, u) == Fold(RowsOf(base, u), s.worker.snapshot, EventsOf(s.broker.published, u)) {
      DrainedUserIsFolded(c, s, base, u);
    }
  }

  ghost predicate FinishesCalmly(c: Config, s: State, base: Rows, steps: seq<Step>) {
    && IsRun(c, s, steps) && IsCalmRun(c, s, steps)
    && After(c, s, steps).broker.published == s.broker.published
    && FullyFolded(After(c, s, steps), base)
  }

  lemma {:induction false} FinishCalmly(c: Config, s: State, base: Rows) returns (steps: seq<Step>)
    requires Once(c, s, base)
    ensures FinishesCalmly(c, s, base, steps)
    decreases Weight(c, s)
  {
    if s.broker.unacked == [] && s.broker.queue == [] {
      steps := [];
      FinishedIsFolded(c, s, base);
    } else {
      var step := CalmMove(c, s, base);
      var rest := FinishCalmly(c, Next(c, s, step), base);
      CalmPrepend(c, s, step, rest);
      steps := [step] + rest;
    }
  }

  /** From wherever a calm run has got to, some continuation without further publications
      brings every user's log and presence to the plain fold over all published events. */
  lemma EveryEventTakesEffectOnce(c: Config, s: State, steps: seq<Step>) returns (more: seq<Step>)
    requires Init(s) && s.db.live == s.db.ever
    requires IsRun(c, s, steps) && IsCalmRun(c, s, steps)
    ensures FinishesCalmly(c, After(c, s, steps), s.db.rows, more)
  {
    InitOnce(c, s);
    RunKeepsOnce(c, s, s.db.rows, steps);
    more := FinishCalmly(c, After(c, s, steps), s.db.rows);
  }

  /** Of the open messages of the user only the oldest can be below k. */
  ghost predicate OnlyOldestBelow(b: Broker, user: string, k: nat) {
    forall m: nat, n: nat :: (m < n < |b.published| && b.published[m].user == user && b.published[n].user == user
      && Open(b, m) && Open(b, n)) ==> n >= k
  }

  lemma OldestAlone(c: Config, s: State, base: Rows, user: string, k: nat)
    requires Once(c, s, base)
    requires forall n: nat :: n < |s.broker.published| && s.broker.published[n].user == user && n < k ==> n in s.past.applied
    ensures OnlyOldestBelow(s.broker, user, k)
  {
    forall m: nat, n: nat | m < n < |s.broker.published| && s.broker.published[m].user == user && s.broker.published[n].user == user
      && Open(s.broker, m) && Open(s.broker, n)
      ensures n >= k
    {
      if n < k {
        AtMostOneUnackedEffect(c, s, base, n, m);
      }
    }
  }

  /** At every moment of every calm run each user's rows are the plain fold over a prefix of that
      user's events, and of the open messages at most the user's oldest is in that prefix. */
  lemma EveryMomentIsAFoldOfPrefix(c: Config, s: State, steps: seq<Step>, user: string) returns (k: nat)
    requires Init(s) && s.db.live == s.db.ever
    requires IsRun(c, s, steps) && IsCalmRun(c, s, steps)
    ensures var t := After(c, s, steps);
      && k <= |t.broker.published|
      && RowsOf(t.db.rows, user) == Fold(RowsOf(s.db.rows, user), t.worker.snapshot, EventsOf(t.broker.published[..k], user))
      && OnlyOldestBelow(t.broker, user, k)
  {
    InitOnce(c, s);
    RunKeepsOnce(c, s, s.db.rows, steps);
    k := RowsAreFoldOfPrefix(c, After(c, s, steps), s.db.rows, user);
    OldestAlone(c, After(c, s, steps), s.db.rows, user, k);
  }
}
