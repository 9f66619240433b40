/** Which users a hanging transaction holds up: exactly those that share its advisory lock and have
    a delivered message that would open a transaction, which the state tells in advance. */
module LockContention {
  import opened Tables
  import opened Brokers
  import opened Pipeline
  import opened Conservation
  import opened Dedup
  import opened Progress
  import FastPath

  // ----- what the state tells about a waiting message

  predicate PastLookup(pc: Pc) { PastGate(pc) && !pc.Looking? }

  function CurrentOf(s: State, m: nat): set<AreaId>
    requires m < |s.worker.pcs| && m < |s.broker.published|
  {
    if KnowsCurrent(s.worker.pcs[m]) then s.worker.pcs[m].current else s.worker.snapshot(s.broker.published[m].at)
  }

  /** The areas that the user's next comparisons will find as hint, as long as no transaction of the
      user commits: those just committed, else those remembered, else those just read, else the
      presence rows. */
  ghost predicate IsHint(s: State, u: string, h: set<AreaId>)
    requires Shaped(s)
  {
    if exists n: nat :: RunsAt(s, u, n) && s.worker.pcs[n].Committed?
    then forall n: nat :: RunsAt(s, u, n) && s.worker.pcs[n].Committed? ==> h == s.worker.pcs[n].current
    else if u in s.worker.memory then h == s.worker.memory[u]
    else if exists n: nat :: RunsAt(s, u, n) && s.worker.pcs[n].HaveRead?
    then forall n: nat :: RunsAt(s, u, n) && s.worker.pcs[n].HaveRead? ==> h == s.worker.pcs[n].got
    else h == PresenceOf(s, u)
  }

  ghost predicate RunsAt(s: State, u: string, n: nat)
    requires Shaped(s)
  {
    n in s.broker.unacked && s.broker.published[n].user == u
  }

  /** The number that the dedup gate will compare with. */
  function Known(c: Config, lastSeq: LastSeq, e: Event): nat
    requires e.HasIdentity()
  {
    if e.Key() in lastSeq then lastSeq[e.Key()] else c.SeedOf(e)
  }

  ghost predicate EarlierIn(q: seq<nat>, w: nat, m: nat) {
    exists i, j :: 0 <= i < j < |q| && q[i] == w && q[j] == m
  }

  /** An earlier delivery of the device that will succeed with this number or a higher one. */
  ghost predicate Precedes(b: Broker, w: nat, m: nat) {
    && w < |b.published| && m < |b.published| && EarlierIn(b.unacked, w, m)
    && var f, e := b.published[w], b.published[m];
       f.HasIdentity() && e.HasIdentity() && f.Key() == e.Key() && f.PassesAccuracyGate() && f.seqNo.value >= e.seqNo.value
  }

  /** The message will be acked as a duplicate. */
  ghost predicate WillRepeat(c: Config, b: Broker, lastSeq: LastSeq, m: nat)
    requires m < |b.published|
  {
    var e := b.published[m];
    e.HasIdentity() && (e.seqNo.value <= Known(c, lastSeq, e) || exists w :: Precedes(b, w, m))
  }

  /** The message waits for its transaction, or will. */
  ghost predicate WillOpen(c: Config, s: State, m: nat, h: set<AreaId>)
    requires Out(s, m)
  {
    var pc := s.worker.pcs[m];
    || pc.Opening?
    || (&& !pc.InTx? && !pc.Committed? && !pc.Finishing?
        && s.broker.published[m].PassesAccuracyGate()
        && (PastGate(pc) || !WillRepeat(c, s.broker, s.worker.lastSeq, m))
        && CurrentOf(s, m) != h)
  }

  /** Message m of the user is out and will open a transaction. */
  ghost predicate Opens(c: Config, s: State, u: string, h: set<AreaId>, m: nat) {
    Out(s, m) && s.broker.published[m].user == u && WillOpen(c, s, m, h)
  }

  ghost predicate UserOpens(c: Config, s: State, u: string, h: set<AreaId>) {
    exists m: nat :: Opens(c, s, u, h, m)
  }

  /** A frozen transaction holds the user's lock. */
  ghost predicate Contended(c: Config, s: State, frozen: set<string>, u: string) {
    u !in frozen &&
    exists k: nat :: Out(s, k) && Frozen(s.broker, frozen, k) && s.worker.pcs[k].InTx? && c.lockKey(s.broker.published[k].user) == c.lockKey(u)
  }

  /** No user whose lock a frozen transaction holds has a message that will open one. */
  ghost predicate NoneOpens(c: Config, s: State, frozen: set<string>)
    requires Shaped(s)
  {
    forall u, h :: Contended(c, s, frozen, u) && IsHint(s, u, h) ==> !UserOpens(c, s, u, h)
  }

  // ----- the invariant behind it

  ghost predicate Gated(s: State) {
    Shaped(s) && forall n :: n in s.broker.unacked && PastLookup(s.worker.pcs[n]) ==> s.broker.published[n].PassesAccuracyGate()
  }

  ghost predicate HoldsLock(s: State, n: nat)
    requires Shaped(s)
  {
    n in s.broker.unacked && s.worker.pcs[n].InTx?
  }

  ghost predicate LocksExclusive(c: Config, s: State) {
    Shaped(s) && forall n: nat, m: nat :: HoldsLock(s, n) && HoldsLock(s, m) && n != m ==>
      c.lockKey(s.broker.published[n].user) != c.lockKey(s.broker.published[m].user)
  }

  predicate ReadsTable(pc: Pc) { pc.Reading? || pc.HaveRead? }

  /** A task that reads the table has found its user not remembered. */
  ghost predicate ReadsCold(s: State) {
    Shaped(s) && forall n :: n in s.broker.unacked && ReadsTable(s.worker.pcs[n]) ==> s.broker.published[n].user !in s.worker.memory
  }

  ghost predicate Ready(c: Config, s: State) {
    DedupFits(c, s) && Gated(s) && LocksExclusive(c, s) && ReadsCold(s)
  }

  lemma HintIsUnique(s: State, u: string, h: set<AreaId>, k: set<AreaId>)
    requires Shaped(s) && IsHint(s, u, h) && IsHint(s, u, k)
    ensures h == k
  {
  }

  lemma HintExists(c: Config, s: State, u: string) returns (h: set<AreaId>)
    requires Sound(c, s)
    ensures IsHint(s, u, h)
  {
    if n: nat :| RunsAt(s, u, n) && s.worker.pcs[n].Committed? {
      h := s.worker.pcs[n].current;
      forall m: nat | RunsAt(s, u, m) && s.worker.pcs[m].Committed? ensures m == n {
        OneRunning(s.broker, s.worker.pcs, n, m);
      }
    } else if u in s.worker.memory {
      h := s.worker.memory[u];
    } else if n: nat :| RunsAt(s, u, n) && s.worker.pcs[n].HaveRead? {
      h := s.worker.pcs[n].got;
      forall m: nat | RunsAt(s, u, m) && s.worker.pcs[m].HaveRead? ensures m == n {
        OneRunning(s.broker, s.worker.pcs, n, m);
      }
    } else {
      h := PresenceOf(s, u);
    }
  }

  // ----- order among deliveries

  lemma EarlierAfterRemove(q: seq<nat>, n: nat, w: nat, m: nat)
    requires n in q && w != n && m != n
    ensures EarlierIn(Remove(q, n), w, m) <==> EarlierIn(q, w, m)
  {
    var r, k := Remove(q, n), IndexOf(q, n);
    if i, j :| 0 <= i < j < |r| && r[i] == w && r[j] == m {
      assert q[if i < k then i else i + 1] == w && q[if j < k then j else j + 1] == m;
    }
    if i, j :| 0 <= i < j < |q| && q[i] == w && q[j] == m {
      assert r[if i < k then i else i - 1] == w && r[if j < k then j else j - 1] == m;
    }
  }

  /** The running task's delivery is earlier than any other of its user, and none is earlier. */
  lemma RunningIsEarliest(b: Broker, n: nat, m: nat)
    requires Conserved(b) && n in b.unacked && m in b.unacked && n != m && IsFirstOfUser(b, n)
    requires b.published[m].user == b.published[n].user
    ensures EarlierIn(b.unacked, n, m) && !EarlierIn(b.unacked, m, n)
  {
    var i, j := IndexOf(b.unacked, n), IndexOf(b.unacked, m);
    assert i < j;
    if k, l :| 0 <= k < l < |b.unacked| && b.unacked[k] == m && b.unacked[l] == n {
      Unrepeated(b, k, j);
      Unrepeated(b, l, i);
    }
  }

  // ----- what one step of the others changes

  /** A step that neither opens nor ends a transaction. */
  predicate OutsideTx(step: Step) { !step.Open? && !step.Commit? && !step.FkDrop? }

  /** The map may change at the key of e only. */
  ghost predicate SameElsewhere(l: LastSeq, k: LastSeq, e: Event) {
    forall key :: (e.HasIdentity() ==> key != e.Key()) ==>
      (key in k <==> key in l) && (key in l ==> k[key] == l[key])
  }

  lemma SeqShape(c: Config, s: State, step: Step)
    requires Enabled(c, s, step) && (step.IsTask() || step.Fail?)
    ensures SameElsewhere(s.worker.lastSeq, Next(c, s, step).worker.lastSeq, s.broker.published[step.n])
  {
  }

  lemma MemoryShape(c: Config, s: State, step: Step)
    requires Enabled(c, s, step) && (step.IsTask() || step.Fail?)
    ensures var t, e := Next(c, s, step), s.broker.published[step.n];
      && t.worker.snapshot == s.worker.snapshot
      && (forall v :: v != e.user ==> (v in t.worker.memory <==> v in s.worker.memory))
      && (forall v :: v != e.user && v in s.worker.memory ==> t.worker.memory[v] == s.worker.memory[v])
      && (forall v :: v != e.user ==> RowsOf(t.db.rows, v) == RowsOf(s.db.rows, v))
      && (OutsideTx(step) ==> t.db == s.db)
  {
  }

  /** Delivery n may have left; everything else stands. */
  ghost predicate MayHaveLeft(b: Broker, d: Broker, n: nat) {
    n in b.unacked && d.published == b.published && (d.unacked == b.unacked || d.unacked == Remove(b.unacked, n))
  }

  lemma PrecedesKept(b: Broker, d: Broker, n: nat, w: nat, m: nat)
    requires MayHaveLeft(b, d, n) && w != n && m != n
    ensures Precedes(d, w, m) <==> Precedes(b, w, m)
  {
    EarlierAfterRemove(b.unacked, n, w, m);
  }

  lemma KeyTellsUser(published: seq<Event>, n: nat, m: nat)
    requires KeysDistinct(published) && n < |published| && m < |published|
    requires published[n].HasIdentity() && published[m].HasIdentity() && published[n].Key() == published[m].Key()
    ensures published[n].user == published[m].user && published[n].device == published[m].device
  {
  }

  // ----- steps of another user

  lemma ForeignRepeatKept(c: Config, b: Broker, d: Broker, l: LastSeq, k: LastSeq, n: nat, m: nat)
    requires KeysDistinct(b.published) && MayHaveLeft(b, d, n) && n < |b.published| && m < |b.published|
    requires SameElsewhere(l, k, b.published[n]) && b.published[m].user != b.published[n].user
    ensures WillRepeat(c, d, k, m) <==> WillRepeat(c, b, l, m)
  {
    if b.published[m].HasIdentity() {
      if b.published[n].HasIdentity() && b.published[n].Key() == b.published[m].Key() {
        KeyTellsUser(b.published, n, m);
      }
      forall w: nat ensures Precedes(d, w, m) <==> Precedes(b, w, m) {
        if w != n {
          PrecedesKept(b, d, n, w, m);
        }
      }
    }
  }

  lemma LeftFacts(c: Config, s: State, step: Step)
    requires Sound(c, s) && Enabled(c, s, step) && (step.IsTask() || step.Fail?)
    ensures var t, n := Next(c, s, step), step.n;
      && Sound(c, t) && MayHaveLeft(s.broker, t.broker, n)
      && (forall m :: m in s.broker.unacked && m != n ==> m in t.broker.unacked && t.worker.pcs[m] == s.worker.pcs[m])
      && (forall m :: m in t.broker.unacked ==> m in s.broker.unacked)
      && (n in t.broker.unacked <==> t.broker.unacked == s.broker.unacked)
  {
    DeliveryStepFacts(c, s, step);
    OneHome(s.broker, step.n);
    RemoveFacts(s.broker.unacked, step.n);
    forall m | m in s.broker.unacked && m != step.n ensures m in Next(c, s, step).broker.unacked {
      StillThere(s.broker.unacked, step.n, m);
    }
  }

  lemma ForeignOpenKept(c: Config, s: State, step: Step, m: nat, h: set<AreaId>)
    requires Ready(c, s) && Enabled(c, s, step) && (step.IsTask() || step.Fail?)
    requires Out(s, m) && s.broker.published[m].user != s.broker.published[step.n].user
    ensures Out(Next(c, s, step), m) && (WillOpen(c, Next(c, s, step), m, h) <==> WillOpen(c, s, m, h))
  {
    var t := Next(c, s, step);
    LeftFacts(c, s, step);
    SeqShape(c, s, step);
    MemoryShape(c, s, step);
    ForeignRepeatKept(c, s.broker, t.broker, s.worker.lastSeq, t.worker.lastSeq, step.n, m);
  }

  lemma ForeignOpens(c: Config, s: State, step: Step, u: string, h: set<AreaId>, m: nat)
    requires Ready(c, s) && Enabled(c, s, step) && (step.IsTask() || step.Fail?) && s.broker.published[step.n].user != u
    ensures Opens(c, Next(c, s, step), u, h, m) <==> Opens(c, s, u, h, m)
  {
    LeftFacts(c, s, step);
    if Out(s, m) && s.broker.published[m].user == u {
      ForeignOpenKept(c, s, step, m, h);
    }
  }

  lemma ForeignOpensAll(c: Config, s: State, step: Step, u: string, h: set<AreaId>)
    requires Ready(c, s) && Enabled(c, s, step) && (step.IsTask() || step.Fail?) && s.broker.published[step.n].user != u
    ensures UserOpens(c, Next(c, s, step), u, h) <==> UserOpens(c, s, u, h)
  {
    if m: nat :| Opens(c, s, u, h, m) {
      ForeignOpens(c, s, step, u, h, m);
    }
    if m: nat :| Opens(c, Next(c, s, step), u, h, m) {
      ForeignOpens(c, s, step, u, h, m);
    }
  }

  /** A step of one user changes nothing about another: neither its hint nor what will open. */
  lemma ForeignStep(c: Config, s: State, step: Step, u: string, h: set<AreaId>)
    requires Ready(c, s) && Enabled(c, s, step) && (step.IsTask() || step.Fail?) && s.broker.published[step.n].user != u
    ensures Shaped(Next(c, s, step))
    ensures IsHint(s, u, h) ==> IsHint(Next(c, s, step), u, h)
    ensures UserOpens(c, Next(c, s, step), u, h) <==> UserOpens(c, s, u, h)
  {
    LeftFacts(c, s, step);
    MemoryShape(c, s, step);
    ForeignHint(s, Next(c, s, step), step.n, u, h);
    ForeignOpensAll(c, s, step, u, h);
  }

  lemma ForeignHint(s: State, t: State, n: nat, u: string, h: set<AreaId>)
    requires Shaped(s) && Shaped(t) && n < |s.broker.published| && s.broker.published[n].user != u
    requires t.broker.published == s.broker.published
    requires forall m :: m in s.broker.unacked && m != n ==> m in t.broker.unacked && t.worker.pcs[m] == s.worker.pcs[m]
    requires forall m :: m in t.broker.unacked ==> m in s.broker.unacked
    requires u in t.worker.memory <==> u in s.worker.memory
    requires u in s.worker.memory ==> t.worker.memory[u] == s.worker.memory[u]
    requires PresenceOf(t, u) == PresenceOf(s, u)
    ensures IsHint(s, u, h) ==> IsHint(t, u, h)
  {
    forall m: nat ensures RunsAt(t, u, m) <==> RunsAt(s, u, m) {}
    forall m: nat | RunsAt(s, u, m) ensures t.worker.pcs[m] == s.worker.pcs[m] {}
  }

  // ----- steps of the user's own running task

  /** What the running task n does to the numbers that message m will be compared with. */
  ghost predicate OwnSeqs(c: Config, b: Broker, d: Broker, l: LastSeq, k: LastSeq, n: nat, m: nat)
    requires n < |b.published| && m < |b.published|
  {
    var f, e := b.published[n], b.published[m];
    e.HasIdentity() ==>
      if f.HasIdentity() && f.Key() == e.Key() && n !in d.unacked && f.PassesAccuracyGate()
      then e.seqNo.value <= Known(c, k, e) <==> e.seqNo.value <= Known(c, l, e) || e.seqNo.value <= f.seqNo.value
      else e.seqNo.value <= Known(c, k, e) <==> e.seqNo.value <= Known(c, l, e)
  }

  lemma OwnRepeatKept(c: Config, b: Broker, d: Broker, l: LastSeq, k: LastSeq, n: nat, m: nat)
    requires MayHaveLeft(b, d, n) && (n in d.unacked ==> d.unacked == b.unacked)
    requires n < |b.published| && m < |b.published| && n != m && EarlierIn(b.unacked, n, m)
    requires OwnSeqs(c, b, d, l, k, n, m)
    ensures WillRepeat(c, d, k, m) <==> WillRepeat(c, b, l, m)
  {
    forall w: nat | w != n ensures Precedes(d, w, m) <==> Precedes(b, w, m) {
      PrecedesKept(b, d, n, w, m);
    }
    if n in d.unacked {
      assert Precedes(d, n, m) <==> Precedes(b, n, m);
    } else {
      assert !Precedes(d, n, m);
    }
    if b.published[m].HasIdentity() && b.published[n].HasIdentity() && b.published[n].Key() == b.published[m].Key()
      && b.published[n].PassesAccuracyGate() && b.published[m].seqNo.value <= b.published[n].seqNo.value {
      assert Precedes(b, n, m);
    }
  }

  lemma SeedStores(c: Config, s: State, n: nat)
    requires Enabled(c, s, Seed(n))
    ensures Next(c, s, Seed(n)).worker.lastSeq == s.worker.lastSeq[s.broker.published[n].Key() := c.SeedOf(s.broker.published[n])]
  {
  }

  lemma FinishRemembers(c: Config, s: State, n: nat)
    requires Enabled(c, s, Finish(n))
    ensures Next(c, s, Finish(n)).worker.lastSeq == Remember(s.worker.lastSeq, s.broker.published[n])
    ensures Acks(c, s, Finish(n))
  {
  }

  lemma QuietSeqs(c: Config, b: Broker, d: Broker, l: LastSeq, n: nat, m: nat)
    requires n < |b.published| && m < |b.published|
    requires n !in d.unacked && b.published[n].HasIdentity() && b.published[n].PassesAccuracyGate()
      ==> b.published[n].seqNo.value <= Known(c, l, b.published[n])
    requires SameSeedIfSameKey(c, b.published[n], b.published[m])
    ensures OwnSeqs(c, b, d, l, l, n, m)
  {
  }

  ghost predicate SameSeedIfSameKey(c: Config, f: Event, e: Event) {
    e.HasIdentity() && f.HasIdentity() && f.Key() == e.Key() ==> c.SeedOf(f) == c.SeedOf(e)
  }

  lemma SeedSeqs(c: Config, b: Broker, d: Broker, l: LastSeq, n: nat, m: nat)
    requires n < |b.published| && m < |b.published| && b.published[n].HasIdentity() && b.published[n].Key() !in l
    requires n !in d.unacked ==> b.published[n].seqNo.value <= c.SeedOf(b.published[n])
    requires SameSeedIfSameKey(c, b.published[n], b.published[m])
    ensures OwnSeqs(c, b, d, l, l[b.published[n].Key() := c.SeedOf(b.published[n])], n, m)
  {
  }

  lemma FinishSeqs(c: Config, b: Broker, d: Broker, l: LastSeq, n: nat, m: nat)
    requires n < |b.published| && m < |b.published| && n !in d.unacked && b.published[n].PassesAccuracyGate()
    requires b.published[n].HasIdentity() ==> b.published[n].Key() in l && l[b.published[n].Key()] < b.published[n].seqNo.value
    ensures OwnSeqs(c, b, d, l, Remember(l, b.published[n]), n, m)
  {
  }

  lemma SeedsOfKeys(c: Config, s: State, n: nat, m: nat)
    requires DedupFits(c, s) && n < |s.broker.published| && m < |s.broker.published|
    ensures SameSeedIfSameKey(c, s.broker.published[n], s.broker.published[m])
  {
    var f, e := s.broker.published[n], s.broker.published[m];
    if e.HasIdentity() && f.HasIdentity() && f.Key() == e.Key() {
      KeyTellsUser(s.broker.published, n, m);
    }
  }

  lemma QuietAck(c: Config, s: State, step: Step)
    requires step.IsTask() && Enabled(c, s, step) && !step.Seed? && !step.Finish? && !step.FkDrop?
    ensures Next(c, s, step).worker.lastSeq == s.worker.lastSeq
    ensures Acks(c, s, step) ==>
      && s.broker.published[step.n].HasIdentity()
      && s.broker.published[step.n].seqNo.value <= Known(c, s.worker.lastSeq, s.broker.published[step.n])
  {
  }

  lemma OwnSeqsAtSeed(c: Config, s: State, n: nat, m: nat)
    requires Ready(c, s) && Enabled(c, s, Seed(n)) && Out(s, m) && m != n
    ensures OwnSeqs(c, s.broker, Next(c, s, Seed(n)).broker, s.worker.lastSeq, Next(c, s, Seed(n)).worker.lastSeq, n, m)
  {
    SeedsOfKeys(c, s, n, m);
    LeftIffAcks(c, s, Seed(n));
    assert GateFits(s.broker.published[n], s.worker.lastSeq, s.worker.pcs[n]);
    SeedStores(c, s, n);
    SeedSeqs(c, s.broker, Next(c, s, Seed(n)).broker, s.worker.lastSeq, n, m);
  }

  lemma OwnSeqsAtFinish(c: Config, s: State, n: nat, m: nat)
    requires Ready(c, s) && Enabled(c, s, Finish(n)) && Out(s, m) && m != n
    ensures OwnSeqs(c, s.broker, Next(c, s, Finish(n)).broker, s.worker.lastSeq, Next(c, s, Finish(n)).worker.lastSeq, n, m)
  {
    LeftIffAcks(c, s, Finish(n));
    assert GateFits(s.broker.published[n], s.worker.lastSeq, s.worker.pcs[n]);
    FinishRemembers(c, s, n);
    FinishSeqs(c, s.broker, Next(c, s, Finish(n)).broker, s.worker.lastSeq, n, m);
  }

  lemma OwnSeqsHold(c: Config, s: State, step: Step, m: nat)
    requires Ready(c, s) && Enabled(c, s, step) && (step.IsTask() || step.Fail?) && !step.FkDrop?
    requires step.Fail? ==> !s.broker.published[step.n].PassesAccuracyGate()
    requires Out(s, m) && m != step.n
    ensures OwnSeqs(c, s.broker, Next(c, s, step).broker, s.worker.lastSeq, Next(c, s, step).worker.lastSeq, step.n, m)
  {
    if step.Seed? {
      OwnSeqsAtSeed(c, s, step.n, m);
    } else if step.Finish? {
      OwnSeqsAtFinish(c, s, step.n, m);
    } else {
      SeedsOfKeys(c, s, step.n, m);
      LeftIffAcks(c, s, step);
      if step.IsTask() {
        QuietAck(c, s, step);
      }
      QuietSeqs(c, s.broker, Next(c, s, step).broker, s.worker.lastSeq, step.n, m);
    }
  }

  lemma LeftIffAcks(c: Config, s: State, step: Step)
    requires Sound(c, s) && Enabled(c, s, step) && (step.IsTask() || step.Fail?)
    ensures step.n !in Next(c, s, step).broker.unacked <==> step.Fail? || (step.IsTask() && Acks(c, s, step))
    ensures step.Fail? ==> Next(c, s, step).worker == s.worker
  {
    LeftFacts(c, s, step);
    OneHome(s.broker, step.n);
    if step.IsTask() {
      TaskShape(c, s, step);
    }
  }

  /** The hint while n is the user's running task, and when no task of the user runs. */
  function Hinted(s: State, n: nat): set<AreaId>
    requires n < |s.worker.pcs| && n < |s.broker.published|
  {
    var pc, u := s.worker.pcs[n], s.broker.published[n].user;
    if pc.Committed? then pc.current
    else if u in s.worker.memory then s.worker.memory[u]
    else if pc.HaveRead? then pc.got
    else RowsOf(s.db.rows, u).presence
  }

  function HintedAlone(s: State, u: string): set<AreaId> {
    if u in s.worker.memory then s.worker.memory[u] else RowsOf(s.db.rows, u).presence
  }

  ghost predicate OthersWaiting(s: State, u: string, n: nat)
    requires Shaped(s)
  {
    forall m: nat :: RunsAt(s, u, m) && m != n ==> s.worker.pcs[m].Waiting?
  }

  lemma HintOfRunning(s: State, n: nat, h: set<AreaId>)
    requires Out(s, n) && OthersWaiting(s, s.broker.published[n].user, n)
    ensures IsHint(s, s.broker.published[n].user, h) <==> h == Hinted(s, n)
  {
    assert RunsAt(s, s.broker.published[n].user, n);
  }

  lemma HintOfResting(s: State, u: string, n: nat, h: set<AreaId>)
    requires Shaped(s) && OthersWaiting(s, u, n) && !RunsAt(s, u, n)
    ensures IsHint(s, u, h) <==> h == HintedAlone(s, u)
  {
  }

  /** A step of the user's only running task outside its transaction leaves the hint as it is. */
  ghost predicate KeepsHinted(c: Config, s: State, step: Step)
    requires Enabled(c, s, step) && (step.IsTask() || step.Fail?)
  {
    var t, n := Next(c, s, step), step.n;
    if step.IsTask() && !Acks(c, s, step) then n < |t.worker.pcs| && n < |t.broker.published| && Hinted(t, n) == Hinted(s, n)
    else HintedAlone(t, s.broker.published[n].user) == Hinted(s, n)
  }

  lemma HintedWritten(c: Config, s: State, step: Step)
    requires Enabled(c, s, step) && (step.KeepHint? || step.SetMemory?)
    requires ReadsTable(s.worker.pcs[step.n]) ==> s.broker.published[step.n].user !in s.worker.memory
    ensures KeepsHinted(c, s, step)
  {
  }

  lemma HintedUnwritten(c: Config, s: State, step: Step)
    requires Enabled(c, s, step) && step.IsTask() && OutsideTx(step) && !step.KeepHint? && !step.SetMemory?
    ensures KeepsHinted(c, s, step)
  {
  }

  lemma HintedKept(c: Config, s: State, step: Step)
    requires Enabled(c, s, step) && (step.IsTask() || step.Fail?) && OutsideTx(step)
    requires ReadsTable(s.worker.pcs[step.n]) ==> s.broker.published[step.n].user !in s.worker.memory
    ensures KeepsHinted(c, s, step)
  {
    if step.KeepHint? || step.SetMemory? {
      HintedWritten(c, s, step);
    } else if step.IsTask() {
      HintedUnwritten(c, s, step);
    }
  }

  /** As WillOpen, for a delivery with no earlier one of its user. */
  predicate OpensAlone(c: Config, e: Event, pc: Pc, lastSeq: LastSeq, current: set<AreaId>, h: set<AreaId>) {
    || pc.Opening?
    || (&& !pc.InTx? && !pc.Committed? && !pc.Finishing? && e.PassesAccuracyGate()
        && (PastGate(pc) || !(e.HasIdentity() && e.seqNo.value <= Known(c, lastSeq, e)))
        && current != h)
  }

  lemma FirstHasNoWitness(c: Config, s: State, n: nat, h: set<AreaId>)
    requires DedupFits(c, s) && Out(s, n) && IsFirstOfUser(s.broker, n)
    ensures WillOpen(c, s, n, h) <==>
      OpensAlone(c, s.broker.published[n], s.worker.pcs[n], s.worker.lastSeq, CurrentOf(s, n), h)
  {
    var b := s.broker;
    forall w: nat ensures !Precedes(b, w, n) {
      if Precedes(b, w, n) {
        KeyTellsUser(b.published, w, n);
        if w == n {
          var i, j :| 0 <= i < j < |b.unacked| && b.unacked[i] == n && b.unacked[j] == n;
          Unrepeated(b, i, j);
        } else {
          RunningIsEarliest(b, n, w);
        }
      }
    }
  }

  /** What a running task knows that its next step outside the transaction relies on. */
  ghost predicate SelfKnows(s: State, step: Step)
    requires (step.IsTask() || step.Fail?) && Out(s, step.n)
  {
    var e, pc := s.broker.published[step.n], s.worker.pcs[step.n];
    && OutsideTx(step)
    && (step.Fail? || PastLookup(pc) ==> (step.Fail? <==> !e.PassesAccuracyGate()))
    && (step.Fail? ==> !pc.Opening?)
    && (pc.Seeding? ==> e.HasIdentity() && e.Key() !in s.worker.lastSeq)
    && (ReadsTable(pc) ==> e.user !in s.worker.memory)
  }

  ghost predicate KeepsOpening(c: Config, s: State, step: Step, h: set<AreaId>)
    requires Enabled(c, s, step) && (step.IsTask() || step.Fail?)
  {
    var t, n, e := Next(c, s, step), step.n, s.broker.published[step.n];
    var before := OpensAlone(c, e, s.worker.pcs[n], s.worker.lastSeq, CurrentOf(s, n), h);
    if step.IsTask() && !Acks(c, s, step)
    then && n < |t.worker.pcs| && n < |t.broker.published|
         && (before <==> OpensAlone(c, e, t.worker.pcs[n], t.worker.lastSeq, CurrentOf(t, n), h))
    else !before
  }

  lemma SelfStepAtGate(c: Config, s: State, step: Step, h: set<AreaId>)
    requires Enabled(c, s, step) && (step.Start? || step.Gate? || step.Seed?) && SelfKnows(s, step)
    ensures KeepsOpening(c, s, step, h)
  {
  }

  lemma SelfStepInReport(c: Config, s: State, step: Step, h: set<AreaId>)
    requires Enabled(c, s, step) && step.IsTask() && SelfKnows(s, step) && !step.Start? && !step.Gate? && !step.Seed?
    requires h == Hinted(s, step.n)
    ensures KeepsOpening(c, s, step, h)
  {
  }

  lemma SelfStep(c: Config, s: State, step: Step, h: set<AreaId>)
    requires Enabled(c, s, step) && (step.IsTask() || step.Fail?) && SelfKnows(s, step) && h == Hinted(s, step.n)
    ensures KeepsOpening(c, s, step, h)
  {
    if step.Start? || step.Gate? || step.Seed? {
      SelfStepAtGate(c, s, step, h);
    } else if step.IsTask() {
      SelfStepInReport(c, s, step, h);
    }
  }

  // ----- the invariant is kept

  lemma GatedTask(c: Config, s: State, step: Step)
    requires Sound(c, s) && Gated(s) && step.IsTask() && Enabled(c, s, step)
    ensures Gated(Next(c, s, step))
  {
    LeftFacts(c, s, step);
    TaskShape(c, s, step);
  }

  lemma LocksTask(c: Config, s: State, step: Step)
    requires Sound(c, s) && LocksExclusive(c, s) && step.IsTask() && Enabled(c, s, step)
    ensures LocksExclusive(c, Next(c, s, step))
  {
    var t, n := Next(c, s, step), step.n;
    LeftFacts(c, s, step);
    TaskShape(c, s, step);
    forall m: nat | HoldsLock(t, m) ensures HoldsLock(s, m) || (m == n && step.Open?) {}
  }

  lemma ColdOther(c: Config, s: State, step: Step, m: nat)
    requires Sound(c, s) && ReadsCold(s) && step.IsTask() && Enabled(c, s, step)
    requires m in s.broker.unacked && m != step.n && ReadsTable(s.worker.pcs[m])
    ensures s.broker.published[m].user !in Next(c, s, step).worker.memory
  {
    MemoryShape(c, s, step);
    if s.broker.published[m].user == s.broker.published[step.n].user {
      OneRunningOrWaiting(c, s, step, m);
    }
  }

  lemma ColdTask(c: Config, s: State, step: Step)
    requires Sound(c, s) && ReadsCold(s) && step.IsTask() && Enabled(c, s, step)
    ensures ReadsCold(Next(c, s, step))
  {
    var t, n := Next(c, s, step), step.n;
    LeftFacts(c, s, step);
    LeftIffAcks(c, s, step);
    ColdItself(c, s, step);
    forall m | m in t.broker.unacked && m != n && ReadsTable(t.worker.pcs[m])
      ensures t.broker.published[m].user !in t.worker.memory
    {
      ColdOther(c, s, step, m);
    }
  }

  /** Only Start moves a waiting task, and it leaves the memory alone. */
  lemma OneRunningOrWaiting(c: Config, s: State, step: Step, m: nat)
    requires Sound(c, s) && step.IsTask() && Enabled(c, s, step) && m in s.broker.unacked && m != step.n
    requires s.broker.published[m].user == s.broker.published[step.n].user
    ensures s.worker.pcs[m].Waiting?
  {
    FastPath.OthersWait(s.broker, s.worker.pcs, step.n, m);
  }

  lemma ColdItself(c: Config, s: State, step: Step)
    requires ReadsCold(s) && step.IsTask() && Enabled(c, s, step)
    ensures var t, n := Next(c, s, step), step.n;
      n < |t.worker.pcs| && !Acks(c, s, step) && ReadsTable(t.worker.pcs[n]) ==> s.broker.published[n].user !in t.worker.memory
  {
  }

  lemma ElsewhereKeepsPcs(c: Config, s: State, step: Step)
    requires Sound(c, s) && !step.IsTask() && Enabled(c, s, step)
    ensures var t := Next(c, s, step);
      && Sound(c, t) && s.broker.published <= t.broker.published
      && (forall m :: m in t.broker.unacked ==> t.worker.pcs[m].Waiting? || (m in s.broker.unacked && t.worker.pcs[m] == s.worker.pcs[m]))
      && (forall u :: u in t.worker.memory ==> u in s.worker.memory)
  {
    SoundNext(c, s, step);
    PublishedAfter(c, s, step);
    if step.Fail? {
      RemoveFacts(s.broker.unacked, step.n);
    } else if step.Deliver? {
      OneHome(s.broker, s.broker.queue[0]);
      if s.broker.published[s.broker.queue[0]].v != SCHEMA_VERSION {
        RemoveLast(s.broker.unacked, s.broker.queue[0]);
      }
    }
  }

  lemma ElsewhereKeepsReady(c: Config, s: State, step: Step)
    requires Sound(c, s) && Gated(s) && LocksExclusive(c, s) && ReadsCold(s) && !step.IsTask() && Enabled(c, s, step)
    ensures Gated(Next(c, s, step)) && LocksExclusive(c, Next(c, s, step)) && ReadsCold(Next(c, s, step))
  {
    var t := Next(c, s, step);
    ElsewhereKeepsPcs(c, s, step);
    forall m: nat | HoldsLock(t, m) ensures HoldsLock(s, m) {}
  }

  lemma ReadyNext(c: Config, s: State, step: Step)
    requires Ready(c, s) && Enabled(c, s, step)
    requires step.Publish? ==> KeysDistinct(s.broker.published + [step.e])
    ensures Ready(c, Next(c, s, step))
  {
    DedupNext(c, s, step);
    if step.IsTask() {
      GatedTask(c, s, step);
      LocksTask(c, s, step);
      ColdTask(c, s, step);
    } else {
      ElsewhereKeepsReady(c, s, step);
    }
  }

  // ----- what will open, stays so

  lemma OwnOpenKept(c: Config, s: State, step: Step, m: nat, h: set<AreaId>)
    requires Ready(c, s) && Enabled(c, s, step) && (step.IsTask() || step.Fail?) && !step.FkDrop?
    requires step.Fail? ==> !s.broker.published[step.n].PassesAccuracyGate()
    requires Out(s, m) && m != step.n && s.broker.published[m].user == s.broker.published[step.n].user
    requires IsFirstOfUser(s.broker, step.n)
    ensures Out(Next(c, s, step), m) && (WillOpen(c, Next(c, s, step), m, h) <==> WillOpen(c, s, m, h))
  {
    var t, n := Next(c, s, step), step.n;
    LeftFacts(c, s, step);
    MemoryShape(c, s, step);
    OwnSeqsHold(c, s, step, m);
    RunningIsEarliest(s.broker, n, m);
    OwnRepeatKept(c, s.broker, t.broker, s.worker.lastSeq, t.worker.lastSeq, n, m);
  }

  lemma RunningIsAlone(c: Config, s: State, step: Step)
    requires Sound(c, s) && Enabled(c, s, step) && (step.IsTask() || step.Fail?)
    ensures IsFirstOfUser(s.broker, step.n) && OthersWaiting(s, s.broker.published[step.n].user, step.n)
  {
    if !s.worker.pcs[step.n].Waiting? {
      RunningIsFirst(s.broker, s.worker.pcs, step.n);
    }
    forall m: nat | RunsAt(s, s.broker.published[step.n].user, m) && m != step.n ensures s.worker.pcs[m].Waiting? {
      FastPath.OthersWait(s.broker, s.worker.pcs, step.n, m);
    }
  }

  lemma OwnHint(c: Config, s: State, step: Step, h: set<AreaId>)
    requires Ready(c, s) && Enabled(c, s, step) && (step.IsTask() || step.Fail?) && OutsideTx(step)
    requires IsHint(s, s.broker.published[step.n].user, h)
    ensures h == Hinted(s, step.n) && Shaped(Next(c, s, step)) && IsHint(Next(c, s, step), s.broker.published[step.n].user, h)
  {
    var t, n, u := Next(c, s, step), step.n, s.broker.published[step.n].user;
    RunningIsAlone(c, s, step);
    LeftFacts(c, s, step);
    LeftIffAcks(c, s, step);
    HintedKept(c, s, step);
    HintOfRunning(s, n, h);
    if n in t.broker.unacked {
      HintOfRunning(t, n, h);
    } else {
      HintOfResting(t, u, n, h);
    }
  }

  lemma SelfOpenKept(c: Config, s: State, step: Step, h: set<AreaId>)
    requires Ready(c, s) && Enabled(c, s, step) && (step.IsTask() || step.Fail?) && OutsideTx(step)
    requires step.Fail? ==> !s.broker.published[step.n].PassesAccuracyGate()
    requires h == Hinted(s, step.n)
    ensures WillOpen(c, s, step.n, h) <==> Out(Next(c, s, step), step.n) && WillOpen(c, Next(c, s, step), step.n, h)
  {
    var t, n := Next(c, s, step), step.n;
    RunningIsAlone(c, s, step);
    LeftFacts(c, s, step);
    LeftIffAcks(c, s, step);
    DedupNext(c, s, step);
    assert GateFits(s.broker.published[n], s.worker.lastSeq, s.worker.pcs[n]);
    FirstHasNoWitness(c, s, n, h);
    SelfStep(c, s, step, h);
    if n in t.broker.unacked {
      FirstHasNoWitness(c, t, n, h);
    }
  }

  lemma OwnOpens(c: Config, s: State, step: Step, h: set<AreaId>, m: nat)
    requires Ready(c, s) && Enabled(c, s, step) && (step.IsTask() || step.Fail?) && OutsideTx(step)
    requires step.Fail? ==> !s.broker.published[step.n].PassesAccuracyGate()
    requires h == Hinted(s, step.n)
    ensures var t, u := Next(c, s, step), s.broker.published[step.n].user;
      Opens(c, t, u, h, m) <==> Opens(c, s, u, h, m)
  {
    LeftFacts(c, s, step);
    if m == step.n {
      SelfOpenKept(c, s, step, h);
    } else if Out(s, m) && s.broker.published[m].user == s.broker.published[step.n].user {
      RunningIsAlone(c, s, step);
      OwnOpenKept(c, s, step, m, h);
    }
  }

  lemma OwnOpensAll(c: Config, s: State, step: Step, h: set<AreaId>)
    requires Ready(c, s) && Enabled(c, s, step) && (step.IsTask() || step.Fail?) && OutsideTx(step)
    requires step.Fail? ==> !s.broker.published[step.n].PassesAccuracyGate()
    requires h == Hinted(s, step.n)
    ensures UserOpens(c, Next(c, s, step), s.broker.published[step.n].user, h) <==> UserOpens(c, s, s.broker.published[step.n].user, h)
  {
    var t, u := Next(c, s, step), s.broker.published[step.n].user;
    if m: nat :| Opens(c, s, u, h, m) {
      OwnOpens(c, s, step, h, m);
    }
    if m: nat :| Opens(c, t, u, h, m) {
      OwnOpens(c, s, step, h, m);
    }
  }

  lemma OwnStep(c: Config, s: State, step: Step, h: set<AreaId>)
    requires Ready(c, s) && Enabled(c, s, step) && (step.IsTask() || step.Fail?) && OutsideTx(step)
    requires step.Fail? ==> !s.broker.published[step.n].PassesAccuracyGate()
    requires IsHint(s, s.broker.published[step.n].user, h)
    ensures var t, u := Next(c, s, step), s.broker.published[step.n].user;
      Shaped(t) && IsHint(t, u, h) && (UserOpens(c, t, u, h) <==> UserOpens(c, s, u, h))
  {
    OwnHint(c, s, step, h);
    OwnOpensAll(c, s, step, h);
  }

  // ----- the exact condition

  lemma ContendedUserStaysOut(c: Config, s: State, frozen: set<string>, step: Step)
    requires Ready(c, s) && Enabled(c, s, step) && OthersStep(s.broker, frozen, step)
    requires Contended(c, s, frozen, s.broker.published[step.n].user)
    ensures OutsideTx(step)
  {
    var n := step.n;
    var k: nat :| Out(s, k) && Frozen(s.broker, frozen, k) && s.worker.pcs[k].InTx?
      && c.lockKey(s.broker.published[k].user) == c.lockKey(s.broker.published[n].user);
    assert HoldsLock(s, k) && k != n;
    assert !HoldsLock(s, n);
  }

  lemma ContendedKept(c: Config, s: State, t: State, frozen: set<string>, u: string)
    requires Shaped(s) && Shaped(t) && SameFrozen(s, t, frozen)
    ensures Contended(c, t, frozen, u) <==> Contended(c, s, frozen, u)
  {
    forall k: nat ensures Out(t, k) && Frozen(t.broker, frozen, k) <==> Out(s, k) && Frozen(s.broker, frozen, k) {
      assert Frozen(s.broker, frozen, k) <==> Frozen(t.broker, frozen, k);
    }
  }

  lemma StepKeepsOpens(c: Config, s: State, frozen: set<string>, step: Step, u: string, h: set<AreaId>)
    requires Ready(c, s) && Enabled(c, s, step) && OthersStep(s.broker, frozen, step)
    requires Contended(c, s, frozen, u) && IsHint(s, u, h)
    ensures var t := Next(c, s, step);
      Shaped(t) && IsHint(t, u, h) && (UserOpens(c, t, u, h) <==> UserOpens(c, s, u, h))
  {
    if s.broker.published[step.n].user == u {
      ContendedUserStaysOut(c, s, frozen, step);
      OwnStep(c, s, step, h);
    } else {
      ForeignStep(c, s, step, u, h);
    }
  }

  lemma {:induction false} OpensStays(c: Config, s: State, frozen: set<string>, steps: seq<Step>, u: string, h: set<AreaId>)
    requires Ready(c, s) && SparedRun(c, s, frozen, steps)
    requires Contended(c, s, frozen, u) && IsHint(s, u, h) && UserOpens(c, s, u, h)
    ensures UserOpens(c, After(c, s, steps), u, h)
    decreases |steps|
  {
    if steps != [] {
      var t := Next(c, s, steps[0]);
      SparedTail(c, s, frozen, steps);
      StepKeepsOpens(c, s, frozen, steps[0], u, h);
      ReadyNext(c, s, steps[0]);
      ContendedKept(c, s, t, frozen, u);
      OpensStays(c, t, frozen, steps[1..], u, h);
    }
  }

  lemma OpensNeverSettles(c: Config, s: State, frozen: set<string>, steps: seq<Step>, u: string, h: set<AreaId>)
    requires Ready(c, s) && Contended(c, s, frozen, u) && IsHint(s, u, h) && UserOpens(c, s, u, h)
    ensures !SettlesOthers(c, s, frozen, steps)
  {
    if SettlesOthers(c, s, frozen, steps) {
      OpensStays(c, s, frozen, steps, u, h);
    }
  }

  lemma NoneOpensStep(c: Config, s: State, frozen: set<string>, step: Step)
    requires Ready(c, s) && NoneOpens(c, s, frozen) && Enabled(c, s, step) && OthersStep(s.broker, frozen, step)
    ensures Shaped(Next(c, s, step)) && NoneOpens(c, Next(c, s, step), frozen)
  {
    var t := Next(c, s, step);
    OthersStepFacts(c, s, frozen, step);
    forall u, k | Contended(c, t, frozen, u) && IsHint(t, u, k) ensures !UserOpens(c, t, u, k) {
      ContendedKept(c, s, t, frozen, u);
      var h := HintExists(c, s, u);
      StepKeepsOpens(c, s, frozen, step, u, h);
      HintIsUnique(t, u, h, k);
    }
  }

  lemma NoneOpensNoneStuck(c: Config, s: State, frozen: set<string>)
    requires Sound(c, s) && NoneOpens(c, s, frozen)
    ensures NoneStuck(c, s, frozen)
  {
    forall m: nat, k: nat ensures !Stuck(c, s, frozen, m, k) {
      if Stuck(c, s, frozen, m, k) {
        var u := s.broker.published[m].user;
        var h := HintExists(c, s, u);
        assert Contended(c, s, frozen, u) && Opens(c, s, u, h, m);
      }
    }
  }

  lemma {:induction false} NoneOpensNeverStuck(c: Config, s: State, frozen: set<string>, steps: seq<Step>)
    requires Ready(c, s) && NoneOpens(c, s, frozen) && SparedRun(c, s, frozen, steps)
    ensures NoneStuck(c, After(c, s, steps), frozen)
    decreases |steps|
  {
    if steps == [] {
      NoneOpensNoneStuck(c, s, frozen);
    } else {
      SparedTail(c, s, frozen, steps);
      NoneOpensStep(c, s, frozen, steps[0]);
      ReadyNext(c, s, steps[0]);
      NoneOpensNeverStuck(c, Next(c, s, steps[0]), frozen, steps[1..]);
    }
  }

  /** Head-of-line blocking, exactly. While the tasks of the frozen users never move again, the
      others have a run that settles every delivery of theirs if and only if no user whose lock a
      frozen transaction holds has a delivered message that will open a transaction. */
  lemma SettleExactlyUnlessOneOpens(c: Config, s: State, frozen: set<string>)
    requires Ready(c, s)
    ensures CanSettle(c, s, frozen) <==> NoneOpens(c, s, frozen)
  {
    if NoneOpens(c, s, frozen) {
      forall steps | SparedRun(c, s, frozen, steps) ensures NoneStuck(c, After(c, s, steps), frozen) {
        NoneOpensNeverStuck(c, s, frozen, steps);
      }
      var steps := SettleUnlessStuck(c, s, frozen);
    } else {
      var u, h :| Contended(c, s, frozen, u) && IsHint(s, u, h) && UserOpens(c, s, u, h);
      forall steps ensures !SettlesOthers(c, s, frozen, steps) {
        OpensNeverSettles(c, s, frozen, steps, u, h);
      }
    }
  }

  /** Every state that a run with distinct dedup keys reaches is one the theorem speaks of. */
  lemma {:induction false} RunIsReady(c: Config, s: State, steps: seq<Step>)
    requires Ready(c, s) && IsRun(c, s, steps) && DistinctRun(c, s, steps)
    ensures Ready(c, After(c, s, steps))
    decreases |steps|
  {
    if steps != [] {
      DistinctStep(c, s, steps);
      ReadyNext(c, s, steps[0]);
      RunIsReady(c, Next(c, s, steps[0]), steps[1..]);
    }
  }

  lemma InitIsReady(c: Config, s: State)
    requires Init(s)
    ensures Ready(c, s)
  {
    InitDedup(c, s);
  }

  /** So at the end of every run in which dedup keys tell devices apart, whoever hangs. */
  lemma EveryRunSettlesExactly(c: Config, s: State, steps: seq<Step>, frozen: set<string>)
    requires Init(s) && IsRun(c, s, steps) && DistinctRun(c, s, steps)
    ensures Shaped(After(c, s, steps))
    ensures CanSettle(c, After(c, s, steps), frozen) <==> NoneOpens(c, After(c, s, steps), frozen)
  {
    InitIsReady(c, s);
    RunIsReady(c, s, steps);
    SettleExactlyUnlessOneOpens(c, After(c, s, steps), frozen);
  }
}
