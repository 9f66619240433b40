/** What the broker side of every run keeps: no message is lost, duplicated or delivered more
    often than the delivery limit allows, and the tasks of one user never overlap. */
module Conservation {
  import opened Tables
  import opened Brokers
  import opened Pipeline

  /** In how many places message n is. */
  ghost function Copies(b: Broker, n: nat): nat {
    multiset(b.queue)[n] + multiset(b.unacked)[n]
    + (if n in b.acked then 1 else 0) + (if n in b.dead then 1 else 0)
  }

  /** Every published message is in exactly one of queue, unacked, acked and dead letters, once. */
  ghost predicate Conserved(b: Broker) {
    InRange(b) && forall n: nat :: Copies(b, n) == if n < |b.published| then 1 else 0
  }

  /** Deliveries and comebacks of each message, by where it is. */
  ghost predicate Counted(c: Config, b: Broker) {
    && InRange(b)
    && (forall n :: n in b.queue ==> b.deliveries[n] == b.comebacks[n] <= c.deliveryLimit)
    && (forall n :: n in b.unacked ==> b.deliveries[n] == b.comebacks[n] + 1 <= c.deliveryLimit + 1)
    && (forall n :: n in b.acked ==>
          n < |b.published| && b.deliveries[n] == b.comebacks[n] + 1 <= c.deliveryLimit + 1)
    && (forall n :: n in b.dead ==>
          n < |b.published| && b.deliveries[n] == b.comebacks[n] == c.deliveryLimit + 1)
  }

  /** Only the oldest delivery of a user has left the waiting state. */
  ghost predicate Serial(b: Broker, pcs: seq<Pc>) {
    && InRange(b) && |pcs| == |b.published|
    && (forall n :: n in b.unacked ==> b.published[n].v == SCHEMA_VERSION)
    && (forall n :: n in b.unacked && pcs[n].Seeding? ==> b.published[n].HasIdentity())
    && (forall i, j :: 0 <= i < j < |b.unacked| && b.published[b.unacked[i]].user == b.published[b.unacked[j]].user
          ==> pcs[b.unacked[j]].Waiting?)
  }

  ghost predicate Sound(c: Config, s: State) {
    Shaped(s) && Conserved(s.broker) && Counted(c, s.broker) && Serial(s.broker, s.worker.pcs)
  }

  lemma OneHome(b: Broker, n: nat)
    requires Conserved(b)
    ensures n in b.unacked ==> n < |b.published| && n !in b.queue && n !in b.acked && n !in b.dead && n !in Remove(b.unacked, n)
    ensures n in b.queue ==> n < |b.published| && n !in b.unacked && n !in b.acked && n !in b.dead
    ensures n in b.acked || n in b.dead ==> n < |b.published|
    ensures n >= |b.published| ==> n !in b.unacked && n !in b.queue && n !in b.acked && n !in b.dead
    ensures n < |b.published| ==> n in b.unacked || n in b.queue || n in b.acked || n in b.dead
  {
    assert Copies(b, n) == if n < |b.published| then 1 else 0;
    assert n in b.queue <==> multiset(b.queue)[n] > 0;
    assert n in b.unacked <==> multiset(b.unacked)[n] > 0;
    if n in b.unacked {
      RemoveFacts(b.unacked, n);
      assert multiset(Remove(b.unacked, n))[n] == 0;
    }
  }

  lemma Unrepeated(b: Broker, i: nat, j: nat)
    requires Conserved(b) && i < |b.unacked| && j < |b.unacked| && b.unacked[i] == b.unacked[j]
    ensures i == j
  {
    if i < j {
      Repeated(b.unacked, i, j);
    } else if j < i {
      Repeated(b.unacked, j, i);
    }
    assert Copies(b, b.unacked[i]) <= 1;
  }

  lemma Repeated(q: seq<nat>, i: nat, j: nat)
    requires i < j < |q| && q[i] == q[j]
    ensures multiset(q)[q[i]] >= 2
  {
    assert q == q[..j] + q[j..];
    assert q[i] in q[..j] && q[i] in q[j..];
  }

  // ----- the broker's own steps

  lemma AckedKeeps(c: Config, b: Broker, n: nat, reason: Reason)
    requires Conserved(b) && Counted(c, b) && n in b.unacked
    ensures Conserved(Acked(b, n, reason)) && Counted(c, Acked(b, n, reason))
  {
    var t := Acked(b, n, reason);
    OneHome(b, n);
    RemoveFacts(b.unacked, n);
    forall m: nat ensures Copies(t, m) == Copies(b, m) {}
  }

  lemma GivenBackKeepsHomes(c: Config, b: Broker, n: nat, pos: nat)
    requires Conserved(b) && n in b.unacked && pos <= |b.queue|
    ensures Conserved(GivenBack(c, b, n, pos))
  {
    var t := GivenBack(c, b, n, pos);
    OneHome(b, n);
    RemoveFacts(b.unacked, n);
    InsertedFacts(b.queue, pos, n);
    if n !in t.dead {
      assert multiset(t.queue) == multiset(b.queue) + multiset{n};
    }
    forall m: nat ensures Copies(t, m) == Copies(b, m) {}
  }

  lemma GivenBackKeepsCounts(c: Config, b: Broker, n: nat, pos: nat)
    requires Conserved(b) && Counted(c, b) && n in b.unacked && pos <= |b.queue|
    ensures Counted(c, GivenBack(c, b, n, pos))
  {
    var t := GivenBack(c, b, n, pos);
    OneHome(b, n);
    RemoveFacts(b.unacked, n);
    InsertedFacts(b.queue, pos, n);
    forall m | m in t.unacked ensures m != n && m in b.unacked {}
  }

  lemma GivenBackKeeps(c: Config, b: Broker, n: nat, pos: nat)
    requires Conserved(b) && Counted(c, b) && n in b.unacked && pos <= |b.queue|
    ensures Conserved(GivenBack(c, b, n, pos)) && Counted(c, GivenBack(c, b, n, pos))
  {
    GivenBackKeepsHomes(c, b, n, pos);
    GivenBackKeepsCounts(c, b, n, pos);
  }

  lemma EnqueuedKeeps(c: Config, b: Broker, e: Event)
    requires Conserved(b) && Counted(c, b)
    ensures Conserved(Enqueued(b, e)) && Counted(c, Enqueued(b, e))
  {
    var t := Enqueued(b, e);
    forall m: nat ensures Copies(t, m) == Copies(b, m) + if m == |b.published| then 1 else 0 {
      OneHome(b, m);
    }
    OneHome(b, |b.published|);
  }

  lemma HandedKeepsHomes(b: Broker)
    requires Conserved(b) && b.queue != []
    ensures Conserved(Handed(b))
  {
    assert b.queue == [b.queue[0]] + Handed(b).queue;
    forall m: nat ensures Copies(Handed(b), m) == Copies(b, m) {}
  }

  lemma HandedKeepsCounts(c: Config, b: Broker)
    requires Conserved(b) && Counted(c, b) && b.queue != [] && Conserved(Handed(b))
    ensures Counted(c, Handed(b))
  {
    var n, t := b.queue[0], Handed(b);
    OneHome(b, n);
    OneHome(t, n);
    forall m | m in t.queue ensures m in b.queue && m != n {}
    forall m | m in t.unacked ensures m == n || m in b.unacked {}
  }

  lemma HandedKeeps(c: Config, b: Broker)
    requires Conserved(b) && Counted(c, b) && b.queue != []
    ensures Conserved(Handed(b)) && Counted(c, Handed(b))
  {
    HandedKeepsHomes(b);
    HandedKeepsCounts(c, b);
  }

  // ----- order within a user

  lemma RemoveKeepsSerial(b: Broker, t: Broker, pcs: seq<Pc>, n: nat)
    requires Serial(b, pcs) && InRange(t) && n in b.unacked && t.unacked == Remove(b.unacked, n)
    requires t.published == b.published
    ensures Serial(t, pcs)
  {
  }

  lemma GotoKeepsSerial(b: Broker, pcs: seq<Pc>, n: nat, pc: Pc)
    requires Conserved(b) && Serial(b, pcs) && n in b.unacked
    requires pcs[n].Waiting? ==> IsFirstOfUser(b, n)
    requires pc.Seeding? ==> b.published[n].HasIdentity()
    ensures Serial(b, pcs[n := pc])
  {
    var k := IndexOf(b.unacked, n);
    forall i, j | 0 <= i < j < |b.unacked| && b.published[b.unacked[i]].user == b.published[b.unacked[j]].user
      ensures pcs[n := pc][b.unacked[j]].Waiting?
    {
      if b.unacked[j] == n {
        Unrepeated(b, j, k);
      }
    }
  }

  /** The task that is past waiting is its user's first delivery. */
  lemma RunningIsFirst(b: Broker, pcs: seq<Pc>, n: nat)
    requires Serial(b, pcs) && n in b.unacked && !pcs[n].Waiting?
    ensures IsFirstOfUser(b, n)
  {
  }

  /** At most one task of a user runs. */
  lemma OneRunning(b: Broker, pcs: seq<Pc>, n: nat, m: nat)
    requires Serial(b, pcs) && n in b.unacked && m in b.unacked
    requires !pcs[n].Waiting? && !pcs[m].Waiting? && b.published[n].user == b.published[m].user
    ensures n == m
  {
  }

  lemma HandedKeepsSerial(c: Config, b: Broker, pcs: seq<Pc>)
    requires Conserved(b) && Counted(c, b) && Serial(b, pcs)
    requires b.queue != [] && b.published[b.queue[0]].v == SCHEMA_VERSION
    ensures Serial(Handed(b), pcs[b.queue[0] := Waiting])
  {
  }

  // ----- the steps of the machine

  lemma TaskShape(c: Config, s: State, step: Step)
    requires step.IsTask() && Out(s, step.n) && TaskEnabled(c, s, step)
    ensures var t, n := NextTask(c, s, step), step.n;
      if Acks(c, s, step)
      then n in t.broker.acked && t.broker == Acked(s.broker, n, t.broker.acked[n]) && t.worker.pcs == s.worker.pcs
      else (&& t.broker == s.broker
            && |t.worker.pcs| == |s.worker.pcs| && t.worker.pcs == s.worker.pcs[n := t.worker.pcs[n]]
            && (t.worker.pcs[n].Seeding? ==> s.broker.published[n].HasIdentity()))
  {
  }

  lemma TaskKeeps(c: Config, s: State, step: Step)
    requires Sound(c, s) && step.IsTask() && Enabled(c, s, step)
    ensures Sound(c, Next(c, s, step))
  {
    TaskShape(c, s, step);
    var t, n := NextTask(c, s, step), step.n;
    if Acks(c, s, step) {
      AckedKeeps(c, s.broker, n, t.broker.acked[n]);
      RemoveKeepsSerial(s.broker, t.broker, s.worker.pcs, n);
    } else {
      GotoKeepsSerial(s.broker, s.worker.pcs, n, t.worker.pcs[n]);
    }
  }

  lemma {:induction false} CrashKeeps(c: Config, b: Broker, pcs: seq<Pc>)
    requires Conserved(b) && Counted(c, b) && Serial(b, pcs)
    ensures Conserved(AllGivenBack(c, b)) && Counted(c, AllGivenBack(c, b)) && Serial(AllGivenBack(c, b), pcs)
    decreases |b.unacked|
  {
    if b.unacked != [] {
      var n := b.unacked[|b.unacked| - 1];
      GivenBackKeeps(c, b, n, 0);
      RemoveKeepsSerial(b, GivenBack(c, b, n, 0), pcs, n);
      CrashKeeps(c, GivenBack(c, b, n, 0), pcs);
    }
  }

  lemma DeliverKeeps(c: Config, s: State, pos: nat)
    requires Sound(c, s) && Enabled(c, s, Deliver(pos))
    ensures Sound(c, NextDeliver(c, s, pos))
  {
    var n, b := s.broker.queue[0], Handed(s.broker);
    HandedKeeps(c, s.broker);
    if s.broker.published[n].v == SCHEMA_VERSION {
      HandedKeepsSerial(c, s.broker, s.worker.pcs);
    } else {
      GivenBackKeeps(c, b, n, pos);
      OneHome(s.broker, n);
      RemoveLast(s.broker.unacked, n);
    }
  }

  /** A delivery waits in its user's chain, or goes straight back. */
  lemma DeliverShape(c: Config, s: State, pos: nat)
    requires Sound(c, s) && Enabled(c, s, Deliver(pos))
    ensures var t, n := Next(c, s, Deliver(pos)), s.broker.queue[0];
      && n < |s.broker.published| && n !in s.broker.unacked
      && t.broker.published == s.broker.published && t.broker.acked == s.broker.acked && t.db == s.db && t.past == s.past
      && if s.broker.published[n].v != SCHEMA_VERSION then t.broker.unacked == s.broker.unacked && t.worker == s.worker
         else t.broker.unacked == s.broker.unacked + [n] && t.worker == s.worker.(pcs := s.worker.pcs[n := Waiting])
  {
    OneHome(s.broker, s.broker.queue[0]);
    RemoveLast(s.broker.unacked, s.broker.queue[0]);
  }

  lemma FailKeeps(c: Config, s: State, n: nat, pos: nat)
    requires Sound(c, s) && Enabled(c, s, Fail(n, pos))
    ensures Sound(c, Next(c, s, Fail(n, pos)))
  {
    GivenBackKeeps(c, s.broker, n, pos);
    RemoveKeepsSerial(s.broker, GivenBack(c, s.broker, n, pos), s.worker.pcs, n);
  }

  lemma PublishKeeps(c: Config, s: State, e: Event)
    requires Sound(c, s)
    ensures Sound(c, Next(c, s, Publish(e)))
  {
    EnqueuedKeeps(c, s.broker, e);
  }

  lemma CrashStepKeeps(c: Config, s: State)
    requires Sound(c, s)
    ensures Sound(c, Next(c, s, Crash))
  {
    CrashKeeps(c, s.broker, s.worker.pcs);
  }

  lemma SoundNext(c: Config, s: State, step: Step)
    requires Sound(c, s) && Enabled(c, s, step)
    ensures Sound(c, Next(c, s, step))
  {
    if step.IsTask() {
      TaskKeeps(c, s, step);
    } else if step.Publish? {
      PublishKeeps(c, s, step.e);
    } else if step.Deliver? {
      DeliverKeeps(c, s, step.pos);
    } else if step.Fail? {
      FailKeeps(c, s, step.n, step.pos);
    } else if step.Crash? {
      CrashStepKeeps(c, s);
    } else {
      assert Next(c, s, step).broker == s.broker && Next(c, s, step).worker.pcs == s.worker.pcs;
    }
  }
}
