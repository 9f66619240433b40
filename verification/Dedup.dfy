/** The in-memory dedup map: what it holds in every run of one worker lifetime, and why that
    needs dedup keys that tell devices apart. */
module Dedup {
  import opened Tables
  import opened Brokers
  import opened Pipeline
  import opened Conservation

  // ----- the key

  /** Equal keys mean the same user and the same device. */
  ghost predicate KeysDistinct(published: seq<Event>) {
    forall i, j :: 0 <= i < |published| && 0 <= j < |published|
      && published[i].HasIdentity() && published[j].HasIdentity() && published[i].Key() == published[j].Key()
      ==> published[i].user == published[j].user && published[i].device == published[j].device
  }

  lemma KeyIsInjective(u1: string, d1: string, u2: string, d2: string)
    requires ':' !in u1 && ':' !in u2 && DedupKey(u1, d1) == DedupKey(u2, d2)
    ensures u1 == u2 && d1 == d2
  {
    var k1, k2 := DedupKey(u1, d1), DedupKey(u2, d2);
    assert k1[|u1|] == ':' && k2[|u2|] == ':';
    assert |u1| == |u2|;
    assert k1[..|u1|] == u1 && k2[..|u2|] == u2;
    assert k1[|u1| + 1..] == d1 && k2[|u2| + 1..] == d2;
  }

  lemma ColonFreeUsersHaveDistinctKeys(published: seq<Event>)
    requires forall i :: 0 <= i < |published| ==> ':' !in published[i].user
    ensures KeysDistinct(published)
  {
    forall i, j | 0 <= i < |published| && 0 <= j < |published|
      && published[i].HasIdentity() && published[j].HasIdentity() && published[i].Key() == published[j].Key()
      ensures published[i].user == published[j].user && published[i].device == published[j].device
    {
      KeyIsInjective(published[i].user, published[i].device.value, published[j].user, published[j].device.value);
    }
  }

  /** User ids with a colon can collide. */
  lemma KeysCanCollide()
    ensures DedupKey("a:b", "c") == DedupKey("a", "b:c")
  {
  }

  // ----- the invariant

  ghost predicate Increasing(seed: nat, q: seq<nat>) {
    && (forall i :: 0 <= i < |q| ==> seed < q[i])
    && (forall i, j :: 0 <= i < j < |q| ==> q[i] < q[j])
  }

  function Highest(seed: nat, q: seq<nat>): nat {
    if q == [] then seed else q[|q| - 1]
  }

  predicate PastGate(pc: Pc) {
    !pc.Waiting? && !pc.Started? && !pc.Seeding?
  }

  ghost predicate KeyKnown(published: seq<Event>, key: string) {
    exists n :: 0 <= n < |published| && published[n].HasIdentity() && published[n].Key() == key
  }

  /** What the map stores for the device of e, given the successes recorded for it. */
  ghost predicate Stored(c: Config, e: Event, lastSeq: LastSeq, p: Past)
    requires e.HasIdentity()
  {
    var done := SucceededOf(p, e.Key());
    && Increasing(c.SeedOf(e), done)
    && if e.Key() in lastSeq then lastSeq[e.Key()] == Highest(c.SeedOf(e), done) else done == []
  }

  /** What a running task knows about its entry. */
  ghost predicate GateFits(e: Event, lastSeq: LastSeq, pc: Pc) {
    && (pc.Seeding? ==> e.HasIdentity() && e.Key() !in lastSeq)
    && (PastGate(pc) && e.HasIdentity() ==> e.Key() in lastSeq && lastSeq[e.Key()] < e.seqNo.value)
  }

  ghost predicate DedupFits(c: Config, s: State) {
    && Sound(c, s)
    && KeysDistinct(s.broker.published)
    && (forall k :: k in s.worker.lastSeq || k in s.past.succeeded ==> KeyKnown(s.broker.published, k))
    && (forall n :: 0 <= n < |s.broker.published| && s.broker.published[n].HasIdentity()
          ==> Stored(c, s.broker.published[n], s.worker.lastSeq, s.past))
    && (forall n :: n in s.broker.unacked ==> GateFits(s.broker.published[n], s.worker.lastSeq, s.worker.pcs[n]))
  }

  /** The stored sequence number of every device is the highest of its seed and the numbers that
      succeeded, and those are strictly increasing, whatever came back and in whatever order. */
  lemma StoredIsHighestSuccess(c: Config, s: State, n: nat)
    requires DedupFits(c, s) && n < |s.broker.published| && s.broker.published[n].HasIdentity()
    ensures var e := s.broker.published[n];
      var done := SucceededOf(s.past, e.Key());
      && Increasing(c.SeedOf(e), done)
      && (e.Key() in s.worker.lastSeq ==>
            && s.worker.lastSeq[e.Key()] >= c.SeedOf(e)
            && (forall q :: q in done ==> q <= s.worker.lastSeq[e.Key()])
            && (s.worker.lastSeq[e.Key()] == c.SeedOf(e) || s.worker.lastSeq[e.Key()] in done))
  {
    assert Stored(c, s.broker.published[n], s.worker.lastSeq, s.past);
  }

  /** A task acks its delivery as a duplicate exactly when the number of its event is not above
      the stored seed and not above every number of its device that succeeded before. */
  lemma DuplicateMeansSeen(c: Config, s: State, step: Step)
    requires DedupFits(c, s) && (step.Gate? || step.Seed?) && Enabled(c, s, step)
    requires s.broker.published[step.n].HasIdentity()
    requires step.Gate? ==> s.broker.published[step.n].Key() in s.worker.lastSeq
    ensures var e := s.broker.published[step.n];
      var done := SucceededOf(s.past, e.Key());
      Next(c, s, step).broker == (if e.seqNo.value <= c.SeedOf(e) || exists q :: q in done && e.seqNo.value <= q
                                  then Acked(s.broker, step.n, Duplicate) else s.broker)
  {
    var e := s.broker.published[step.n];
    StoredIsHighestSuccess(c, s, step.n);
    assert GateFits(e, s.worker.lastSeq, s.worker.pcs[step.n]);
    assert Stored(c, e, s.worker.lastSeq, s.past);
  }

  /** Within a worker lifetime no entry of the map ever shrinks or disappears. */
  lemma LastSeqNeverDecreases(c: Config, s: State, step: Step, key: string)
    requires DedupFits(c, s) && Enabled(c, s, step) && !step.Crash? && key in s.worker.lastSeq
    ensures key in Next(c, s, step).worker.lastSeq
    ensures s.worker.lastSeq[key] <= Next(c, s, step).worker.lastSeq[key]
  {
    StoredNumberShrinksOnlyBySeeding(c, s, step, key);
    if step.Seed? {
      assert GateFits(s.broker.published[step.n], s.worker.lastSeq, s.worker.pcs[step.n]);
    }
  }

  lemma MapUntouched(c: Config, s: State, step: Step)
    requires step.IsTask() && Enabled(c, s, step) && !step.Seed? && !step.Finish?
    ensures Next(c, s, step).worker.lastSeq == s.worker.lastSeq && Next(c, s, step).past.succeeded == s.past.succeeded
  {
  }

  /** Without distinct keys one step can lose progress, and it is the only one: a task whose
      stored number arrives after another user's success under the same key. */
  lemma StoredNumberShrinksOnlyBySeeding(c: Config, s: State, step: Step, key: string)
    requires Enabled(c, s, step) && !step.Crash? && key in s.worker.lastSeq
    ensures key in Next(c, s, step).worker.lastSeq
    ensures Next(c, s, step).worker.lastSeq[key] < s.worker.lastSeq[key]
      <==> (&& step.Seed? && s.broker.published[step.n].Key() == key
            && c.SeedOf(s.broker.published[step.n]) < s.worker.lastSeq[key])
  {
  }

  // ----- the invariant is kept

  /** Steps that touch neither the map nor any task beyond the gate. */
  lemma FrameKeepsDedup(c: Config, s: State, t: State)
    requires DedupFits(c, s) && Sound(c, t)
    requires t.broker.published == s.broker.published
    requires t.worker.lastSeq == s.worker.lastSeq && t.past.succeeded == s.past.succeeded
    requires forall n :: n in t.broker.unacked ==>
      || t.worker.pcs[n].Waiting?
      || (n in s.broker.unacked && t.worker.pcs[n] == s.worker.pcs[n])
      || GateFits(t.broker.published[n], t.worker.lastSeq, t.worker.pcs[n])
    ensures DedupFits(c, t)
  {
  }

  lemma PcAfterTask(c: Config, s: State, step: Step)
    requires step.IsTask() && Enabled(c, s, step) && !step.Seed? && !Acks(c, s, step)
    requires GateFits(s.broker.published[step.n], s.worker.lastSeq, s.worker.pcs[step.n])
    ensures GateFits(s.broker.published[step.n], s.worker.lastSeq, Next(c, s, step).worker.pcs[step.n])
  {
  }

  /** The task of n moves on, or is settled, and the map stays. */
  lemma DedupAfterTask(c: Config, s: State, t: State, n: nat)
    requires DedupFits(c, s) && Sound(c, t) && n in s.broker.unacked && t.broker.published == s.broker.published
    requires t.worker.lastSeq == s.worker.lastSeq && t.past.succeeded == s.past.succeeded
    requires (t.broker.unacked == Remove(s.broker.unacked, n) && t.worker.pcs == s.worker.pcs)
      || (&& t.broker.unacked == s.broker.unacked && t.worker.pcs == s.worker.pcs[n := t.worker.pcs[n]]
          && GateFits(t.broker.published[n], t.worker.lastSeq, t.worker.pcs[n]))
    ensures DedupFits(c, t)
  {
    RemoveFacts(s.broker.unacked, n);
    FrameKeepsDedup(c, s, t);
  }

  lemma TaskKeepsDedup(c: Config, s: State, step: Step)
    requires DedupFits(c, s) && step.IsTask() && Enabled(c, s, step)
    requires !step.Seed? && !step.Finish?
    ensures DedupFits(c, Next(c, s, step))
  {
    TaskShape(c, s, step);
    SoundNext(c, s, step);
    MapUntouched(c, s, step);
    if !Acks(c, s, step) {
      PcAfterTask(c, s, step);
    }
    DedupAfterTask(c, s, Next(c, s, step), step.n);
  }

  /** Two running tasks never share a dedup key. */
  lemma KeysOfOthers(c: Config, s: State, n: nat, m: nat)
    requires DedupFits(c, s) && n in s.broker.unacked && m in s.broker.unacked && n != m
    requires !s.worker.pcs[n].Waiting? && !s.worker.pcs[m].Waiting?
    requires s.broker.published[n].HasIdentity() && s.broker.published[m].HasIdentity()
    ensures s.broker.published[n].Key() != s.broker.published[m].Key()
  {
  }

  /** The map changes at the key of the running task n only. */
  lemma OwnKeyKeepsDedup(c: Config, s: State, t: State, n: nat)
    requires DedupFits(c, s) && Sound(c, t) && n in s.broker.unacked && !s.worker.pcs[n].Waiting?
    requires s.broker.published[n].HasIdentity()
    requires t.broker.published == s.broker.published
    requires forall m :: m in t.broker.unacked ==> m in s.broker.unacked
    requires forall m :: m in t.broker.unacked && m != n ==> t.worker.pcs[m] == s.worker.pcs[m]
    requires var key := s.broker.published[n].Key();
      && (forall k :: k != key ==> (k in t.worker.lastSeq <==> k in s.worker.lastSeq))
      && (forall k :: k != key && k in s.worker.lastSeq ==> t.worker.lastSeq[k] == s.worker.lastSeq[k])
      && (forall k :: k != key ==> SucceededOf(t.past, k) == SucceededOf(s.past, k))
      && (forall k :: k in t.past.succeeded ==> k == key || k in s.past.succeeded)
      && Stored(c, s.broker.published[n], t.worker.lastSeq, t.past)
      && (n in t.broker.unacked ==> GateFits(s.broker.published[n], t.worker.lastSeq, t.worker.pcs[n]))
    ensures DedupFits(c, t)
  {
    var e := s.broker.published[n];
    forall m | 0 <= m < |t.broker.published| && t.broker.published[m].HasIdentity()
      ensures Stored(c, t.broker.published[m], t.worker.lastSeq, t.past)
    {
      assert Stored(c, s.broker.published[m], s.worker.lastSeq, s.past);
    }
    forall m | m in t.broker.unacked ensures GateFits(t.broker.published[m], t.worker.lastSeq, t.worker.pcs[m]) {
      assert GateFits(s.broker.published[m], s.worker.lastSeq, s.worker.pcs[m]);
      if m != n && !s.worker.pcs[m].Waiting? && s.broker.published[m].HasIdentity() {
        KeysOfOthers(c, s, n, m);
      }
    }
    forall k | k in t.worker.lastSeq || k in t.past.succeeded ensures KeyKnown(t.broker.published, k) {
      if k != e.Key() {
        assert KeyKnown(s.broker.published, k);
      } else {
        assert s.broker.published[n].Key() == k;
      }
    }
  }

  /** The table's answer is stored: at a number below the event's the task goes on, else it is acked. */
  lemma SeedShape(c: Config, s: State, n: nat)
    requires Sound(c, s) && Enabled(c, s, Seed(n))
    ensures var t, e := Next(c, s, Seed(n)), s.broker.published[n];
      && t.worker.lastSeq == s.worker.lastSeq[e.Key() := c.SeedOf(e)] && t.past.succeeded == s.past.succeeded
      && (n in t.broker.unacked ==> n < |t.worker.pcs| && t.worker.pcs[n].Looking? && c.SeedOf(e) < e.seqNo.value)
  {
    OneHome(s.broker, n);
  }

  lemma SeededKeepsDedup(c: Config, s: State, t: State, n: nat)
    requires DedupFits(c, s) && Sound(c, t) && n in s.broker.unacked && s.worker.pcs[n].Seeding?
    requires s.broker.published[n].HasIdentity() && t.broker.published == s.broker.published
    requires t.broker.unacked == s.broker.unacked || t.broker.unacked == Remove(s.broker.unacked, n)
    requires forall m :: m in t.broker.unacked && m != n ==> t.worker.pcs[m] == s.worker.pcs[m]
    requires var e := s.broker.published[n];
      && t.worker.lastSeq == s.worker.lastSeq[e.Key() := c.SeedOf(e)] && t.past.succeeded == s.past.succeeded
      && (n in t.broker.unacked ==> t.worker.pcs[n].Looking? && c.SeedOf(e) < e.seqNo.value)
    ensures DedupFits(c, t)
  {
    var e := s.broker.published[n];
    RemoveFacts(s.broker.unacked, n);
    assert GateFits(e, s.worker.lastSeq, s.worker.pcs[n]) && Stored(c, e, s.worker.lastSeq, s.past);
    OwnKeyKeepsDedup(c, s, t, n);
  }

  lemma SeedKeepsDedup(c: Config, s: State, n: nat)
    requires DedupFits(c, s) && Enabled(c, s, Seed(n))
    ensures DedupFits(c, Next(c, s, Seed(n)))
  {
    TaskShape(c, s, Seed(n));
    SoundNext(c, s, Seed(n));
    SeedShape(c, s, n);
    SeededKeepsDedup(c, s, Next(c, s, Seed(n)), n);
  }

  lemma SuccessKeepsStored(c: Config, e: Event, lastSeq: LastSeq, p: Past)
    requires e.HasIdentity() && Stored(c, e, lastSeq, p)
    requires e.Key() in lastSeq && lastSeq[e.Key()] < e.seqNo.value
    ensures Stored(c, e, Remember(lastSeq, e), WithSuccess(p, e))
  {
  }

  /** A success of an event without a number leaves the map alone. */
  lemma FinishUnnumbered(c: Config, s: State, n: nat)
    requires DedupFits(c, s) && Enabled(c, s, Finish(n)) && !s.broker.published[n].HasIdentity()
    ensures DedupFits(c, Next(c, s, Finish(n)))
  {
    SoundNext(c, s, Finish(n));
    RemoveFacts(s.broker.unacked, n);
    FrameKeepsDedup(c, s, Next(c, s, Finish(n)));
  }

  /** A success moves the entry of its own key up, and no other. */
  lemma FinishShape(c: Config, s: State, n: nat)
    requires Sound(c, s) && Enabled(c, s, Finish(n))
    ensures var t, e := Next(c, s, Finish(n)), s.broker.published[n];
      && t.broker.published == s.broker.published && t.broker.unacked == Remove(s.broker.unacked, n) && t.broker.queue == s.broker.queue
      && t.worker.pcs == s.worker.pcs && n !in t.broker.unacked
      && t.worker.lastSeq == Remember(s.worker.lastSeq, e) && t.past == WithSuccess(s.past, e)
  {
    OneHome(s.broker, n);
  }

  lemma SuccessIsOwn(lastSeq: LastSeq, p: Past, e: Event)
    requires e.HasIdentity()
    ensures forall k :: k != e.Key() ==> (k in Remember(lastSeq, e) <==> k in lastSeq)
    ensures forall k :: k != e.Key() && k in lastSeq ==> Remember(lastSeq, e)[k] == lastSeq[k]
    ensures forall k :: k != e.Key() ==> SucceededOf(WithSuccess(p, e), k) == SucceededOf(p, k)
    ensures forall k :: k in WithSuccess(p, e).succeeded ==> k == e.Key() || k in p.succeeded
  {
  }

  lemma SuccessKeepsDedup(c: Config, s: State, t: State, n: nat)
    requires DedupFits(c, s) && Sound(c, t) && n in s.broker.unacked && !s.worker.pcs[n].Waiting?
    requires s.broker.published[n].HasIdentity() && PastGate(s.worker.pcs[n])
    requires t.broker.published == s.broker.published && t.broker.unacked == Remove(s.broker.unacked, n)
    requires t.worker.pcs == s.worker.pcs && n !in t.broker.unacked
    requires t.worker.lastSeq == Remember(s.worker.lastSeq, s.broker.published[n])
    requires t.past == WithSuccess(s.past, s.broker.published[n])
    ensures DedupFits(c, t)
  {
    var e := s.broker.published[n];
    RemoveFacts(s.broker.unacked, n);
    assert GateFits(e, s.worker.lastSeq, s.worker.pcs[n]) && Stored(c, e, s.worker.lastSeq, s.past);
    SuccessKeepsStored(c, e, s.worker.lastSeq, s.past);
    SuccessIsOwn(s.worker.lastSeq, s.past, e);
    OwnKeyKeepsDedup(c, s, t, n);
  }

  lemma FinishKeepsDedup(c: Config, s: State, n: nat)
    requires DedupFits(c, s) && Enabled(c, s, Finish(n))
    ensures DedupFits(c, Next(c, s, Finish(n)))
  {
    if s.broker.published[n].HasIdentity() {
      SoundNext(c, s, Finish(n));
      FinishShape(c, s, n);
      SuccessKeepsDedup(c, s, Next(c, s, Finish(n)), n);
    } else {
      FinishUnnumbered(c, s, n);
    }
  }

  lemma KnownKeyAfterPublish(published: seq<Event>, e: Event, k: string)
    requires KeyKnown(published, k)
    ensures KeyKnown(published + [e], k)
  {
    var m :| 0 <= m < |published| && published[m].HasIdentity() && published[m].Key() == k;
    assert (published + [e])[m].Key() == k;
  }

  /** The published event's device is unknown, or known from an earlier event. */
  lemma PublishedIsStored(c: Config, s: State, e: Event)
    requires DedupFits(c, s) && KeysDistinct(s.broker.published + [e]) && e.HasIdentity()
    ensures Stored(c, e, s.worker.lastSeq, s.past)
  {
    var longer := s.broker.published + [e];
    if KeyKnown(s.broker.published, e.Key()) {
      var k :| 0 <= k < |s.broker.published| && s.broker.published[k].HasIdentity() && s.broker.published[k].Key() == e.Key();
      assert longer[k] == s.broker.published[k] && longer[|s.broker.published|] == e;
      assert Stored(c, s.broker.published[k], s.worker.lastSeq, s.past);
    }
  }

  lemma PublishedKeepsDedup(c: Config, s: State, t: State, e: Event)
    requires DedupFits(c, s) && Sound(c, t) && KeysDistinct(s.broker.published + [e])
    requires t.broker.published == s.broker.published + [e] && t.broker.unacked == s.broker.unacked
    requires t.worker.lastSeq == s.worker.lastSeq && t.past.succeeded == s.past.succeeded
    requires forall m :: m in s.broker.unacked ==> t.worker.pcs[m] == s.worker.pcs[m]
    ensures DedupFits(c, t)
  {
    forall k | k in t.worker.lastSeq || k in t.past.succeeded ensures KeyKnown(t.broker.published, k) {
      KnownKeyAfterPublish(s.broker.published, e, k);
    }
    forall m | 0 <= m < |t.broker.published| && t.broker.published[m].HasIdentity()
      ensures Stored(c, t.broker.published[m], t.worker.lastSeq, t.past)
    {
      if m < |s.broker.published| {
        assert Stored(c, s.broker.published[m], s.worker.lastSeq, s.past);
      } else {
        PublishedIsStored(c, s, e);
      }
    }
  }

  lemma PublishKeepsDedup(c: Config, s: State, e: Event)
    requires DedupFits(c, s) && KeysDistinct(s.broker.published + [e])
    ensures DedupFits(c, Next(c, s, Publish(e)))
  {
    SoundNext(c, s, Publish(e));
    PublishedKeepsDedup(c, s, Next(c, s, Publish(e)), e);
  }

  lemma CrashKeepsDedup(c: Config, s: State)
    requires DedupFits(c, s)
    ensures DedupFits(c, Next(c, s, Crash))
  {
    SoundNext(c, s, Crash);
  }

  lemma BrokerStepKeepsDedup(c: Config, s: State, step: Step)
    requires DedupFits(c, s) && (step.Deliver? || step.Fail?) && Enabled(c, s, step)
    ensures DedupFits(c, Next(c, s, step))
  {
    SoundNext(c, s, step);
    if step.Fail? {
      RemoveFacts(s.broker.unacked, step.n);
    } else {
      DeliverShape(c, s, step.pos);
    }
    FrameKeepsDedup(c, s, Next(c, s, step));
  }

  lemma DedupNext(c: Config, s: State, step: Step)
    requires DedupFits(c, s) && Enabled(c, s, step)
    requires step.Publish? ==> KeysDistinct(s.broker.published + [step.e])
    ensures DedupFits(c, Next(c, s, step))
  {
    if step.Seed? {
      SeedKeepsDedup(c, s, step.n);
    } else if step.Finish? {
      FinishKeepsDedup(c, s, step.n);
    } else if step.IsTask() {
      TaskKeepsDedup(c, s, step);
    } else if step.Publish? {
      PublishKeepsDedup(c, s, step.e);
    } else if step.Deliver? || step.Fail? {
      BrokerStepKeepsDedup(c, s, step);
    } else if step.Crash? {
      CrashKeepsDedup(c, s);
    } else {
      SoundNext(c, s, step);
      FrameKeepsDedup(c, s, Next(c, s, step));
    }
  }

  // ----- runs

  ghost predicate ColonFree(published: seq<Event>) {
    forall i :: 0 <= i < |published| ==> ':' !in published[i].user
  }

  /** Whatever is published comes from a user id without a colon. */
  predicate ColonFreeRun(steps: seq<Step>) {
    steps == [] || ((steps[0].Publish? ==> ':' !in steps[0].e.user) && ColonFreeRun(steps[1..]))
  }

  lemma InitDedup(c: Config, s: State)
    requires Init(s)
    ensures DedupFits(c, s)
  {
  }

  lemma PublishedAfter(c: Config, s: State, step: Step)
    requires Enabled(c, s, step)
    ensures Next(c, s, step).broker.published == s.broker.published + if step.Publish? then [step.e] else []
  {
  }

  /** Within this run the dedup keys of all published events tell devices apart. */
  ghost predicate DistinctRun(c: Config, s: State, steps: seq<Step>)
    requires IsRun(c, s, steps)
  {
    KeysDistinct(After(c, s, steps).broker.published)
  }

  lemma {:induction false} PublishedLasts(c: Config, s: State, steps: seq<Step>)
    requires IsRun(c, s, steps)
    ensures s.broker.published <= After(c, s, steps).broker.published
    decreases |steps|
  {
    if steps != [] {
      PublishedAfter(c, s, steps[0]);
      PublishedLasts(c, Next(c, s, steps[0]), steps[1..]);
    }
  }

  lemma {:induction false} ColonFreeRunIsDistinct(c: Config, s: State, steps: seq<Step>)
    requires ColonFree(s.broker.published) && IsRun(c, s, steps) && ColonFreeRun(steps)
    ensures DistinctRun(c, s, steps)
    decreases |steps|
  {
    if steps == [] {
      ColonFreeUsersHaveDistinctKeys(s.broker.published);
    } else {
      PublishedAfter(c, s, steps[0]);
      ColonFreeRunIsDistinct(c, Next(c, s, steps[0]), steps[1..]);
    }
  }

  lemma DistinctStep(c: Config, s: State, steps: seq<Step>)
    requires DedupFits(c, s) && steps != [] && IsRun(c, s, steps) && DistinctRun(c, s, steps)
    ensures DedupFits(c, Next(c, s, steps[0])) && DistinctRun(c, Next(c, s, steps[0]), steps[1..])
  {
    var t := Next(c, s, steps[0]);
    PublishedAfter(c, s, steps[0]);
    PublishedLasts(c, t, steps[1..]);
    DistinctPrefix(t.broker.published, After(c, s, steps).broker.published);
    DedupNext(c, s, steps[0]);
  }

  lemma DistinctPrefix(published: seq<Event>, longer: seq<Event>)
    requires KeysDistinct(longer) && published <= longer
    ensures KeysDistinct(published)
  {
    forall i, j | 0 <= i < |published| && 0 <= j < |published|
      && published[i].HasIdentity() && published[j].HasIdentity() && published[i].Key() == published[j].Key()
      ensures published[i].user == published[j].user && published[i].device == published[j].device
    {
      assert longer[i] == published[i] && longer[j] == published[j];
    }
  }

  /** While keys tell devices apart, in every run with crashes, failures in any order and
      redeliveries, the stored numbers are what the successes of the worker's lifetime make them. */
  lemma {:induction false} RunKeepsDedup(c: Config, s: State, steps: seq<Step>)
    requires DedupFits(c, s) && IsRun(c, s, steps) && DistinctRun(c, s, steps)
    ensures DedupFits(c, After(c, s, steps))
    decreases |steps|
  {
    if steps != [] {
      DistinctStep(c, s, steps);
      RunKeepsDedup(c, Next(c, s, steps[0]), steps[1..]);
    }
  }

  predicate AtLeast(lastSeq: LastSeq, key: string, v: nat) { key in lastSeq && v <= lastSeq[key] }

  predicate NoCrash(steps: seq<Step>) { steps == [] || (!steps[0].Crash? && NoCrash(steps[1..])) }

  /** Within one worker lifetime the stored number of a device never goes down. */
  lemma {:induction false} RunNeverForgets(c: Config, s: State, steps: seq<Step>, key: string, v: nat)
    requires DedupFits(c, s) && AtLeast(s.worker.lastSeq, key, v)
    requires IsRun(c, s, steps) && DistinctRun(c, s, steps) && NoCrash(steps)
    ensures AtLeast(After(c, s, steps).worker.lastSeq, key, v)
    decreases |steps|
  {
    if steps != [] {
      LastSeqNeverDecreases(c, s, steps[0], key);
      DistinctStep(c, s, steps);
      RunNeverForgets(c, Next(c, s, steps[0]), steps[1..], key, v);
    }
  }
}
