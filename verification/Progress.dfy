/** The pipeline never spins and never blocks: every message costs a bounded number of steps,
    a user whose task hangs holds up no other user, and a calm run can always be finished. */
module Progress {
  import opened Tables
  import opened Brokers
  import opened Pipeline
  import opened Conservation

  // ----- a measure

  const ROUND := 12

  /** Steps that one delivery may still take. */
  function Rank(pc: Pc): (r: nat)
    ensures 1 <= r < ROUND
  {
    match pc
    case Waiting => 11
    case Started => 10
    case Seeding => 9
    case Looking => 8
    case Hinting(_) => 7
    case Reading(_) => 6
    case HaveRead(_, _) => 5
    case Opening(_) => 4
    case InTx(_, _) => 3
    case Committed(_) => 2
    case Finishing(_) => 1
  }

  /** Rounds a message has left under the delivery limit, each worth ROUND, plus its rank. */
  ghost function Cost(c: Config, b: Broker, pcs: seq<Pc>, n: nat): nat
    requires InRange(b) && |pcs| == |b.published|
  {
    if n >= |b.published| then 0
    else
      var left := if b.comebacks[n] <= c.deliveryLimit then (c.deliveryLimit - b.comebacks[n]) * ROUND else 0;
      if n in b.unacked then left + Rank(pcs[n]) else if n in b.queue then left + ROUND else 0
  }

  ghost function Total(c: Config, b: Broker, pcs: seq<Pc>, k: nat): nat
    requires InRange(b) && |pcs| == |b.published|
  {
    if k == 0 then 0 else Total(c, b, pcs, k - 1) + Cost(c, b, pcs, k - 1)
  }

  /** All a freshly published message can ever cost. */
  function Price(c: Config): nat { (c.deliveryLimit + 1) * ROUND }

  ghost function Weight(c: Config, s: State): nat
    requires Shaped(s)
  {
    Total(c, s.broker, s.worker.pcs, |s.broker.published|)
  }

  /** Two totals differ by what they differ in at one message. */
  lemma {:induction false} TotalChangesAt(c: Config, b: Broker, pcs: seq<Pc>, d: Broker, pcs': seq<Pc>, k: nat, n: nat)
    requires InRange(b) && |pcs| == |b.published| && InRange(d) && |pcs'| == |d.published|
    requires forall m: nat :: m < k && m != n ==> Cost(c, d, pcs', m) == Cost(c, b, pcs, m)
    ensures Total(c, d, pcs', k) ==
      if n < k then Total(c, b, pcs, k) - Cost(c, b, pcs, n) + Cost(c, d, pcs', n) else Total(c, b, pcs, k)
  {
    if k > 0 {
      TotalChangesAt(c, b, pcs, d, pcs', k - 1, n);
    }
  }

  /** A delivery that goes back makes its message strictly cheaper and touches no other. */
  lemma GivenBackIsCheaper(c: Config, b: Broker, pcs: seq<Pc>, n: nat, pos: nat)
    requires Conserved(b) && Counted(c, b) && |pcs| == |b.published| && n in b.unacked && pos <= |b.queue|
    ensures var d := GivenBack(c, b, n, pos); Total(c, d, pcs, |b.published|) < Total(c, b, pcs, |b.published|)
  {
    var d := GivenBack(c, b, n, pos);
    OneHome(b, n);
    RemoveFacts(b.unacked, n);
    InsertedFacts(b.queue, pos, n);
    forall m: nat | m < |b.published| && m != n ensures Cost(c, d, pcs, m) == Cost(c, b, pcs, m) {
      if m in b.unacked { StillThere(b.unacked, n, m); }
    }
    TotalChangesAt(c, b, pcs, d, pcs, |b.published|, n);
  }

  lemma {:induction false} AllGivenBackIsCheaper(c: Config, b: Broker, pcs: seq<Pc>)
    requires Conserved(b) && Counted(c, b) && |pcs| == |b.published|
    ensures Total(c, AllGivenBack(c, b), pcs, |b.published|) + |b.unacked| <= Total(c, b, pcs, |b.published|)
    decreases |b.unacked|
  {
    if b.unacked != [] {
      var n := b.unacked[|b.unacked| - 1];
      GivenBackIsCheaper(c, b, pcs, n, 0);
      GivenBackKeeps(c, b, n, 0);
      AllGivenBackIsCheaper(c, GivenBack(c, b, n, 0), pcs);
    }
  }

  lemma RankFalls(c: Config, s: State, step: Step)
    requires step.IsTask() && Enabled(c, s, step) && !Acks(c, s, step)
    ensures Rank(Next(c, s, step).worker.pcs[step.n]) < Rank(s.worker.pcs[step.n])
  {
  }

  /** The acked message costs nothing more. */
  lemma AckIsCheaper(c: Config, b: Broker, pcs: seq<Pc>, n: nat, reason: Reason)
    requires Conserved(b) && |pcs| == |b.published| && n in b.unacked
    ensures InRange(Acked(b, n, reason)) && Total(c, Acked(b, n, reason), pcs, |b.published|) < Total(c, b, pcs, |b.published|)
  {
    var d := Acked(b, n, reason);
    OneHome(b, n);
    RemoveFacts(b.unacked, n);
    forall m: nat | m < |b.published| && m != n ensures Cost(c, d, pcs, m) == Cost(c, b, pcs, m) {
      if m in b.unacked { StillThere(b.unacked, n, m); }
    }
    TotalChangesAt(c, b, pcs, d, pcs, |b.published|, n);
  }

  lemma FurtherIsCheaper(c: Config, b: Broker, pcs: seq<Pc>, n: nat, pc: Pc)
    requires InRange(b) && |pcs| == |b.published| && n in b.unacked && Rank(pc) < Rank(pcs[n])
    ensures Total(c, b, pcs[n := pc], |b.published|) < Total(c, b, pcs, |b.published|)
  {
    TotalChangesAt(c, b, pcs, b, pcs[n := pc], |b.published|, n);
  }

  lemma TaskIsCheaper(c: Config, s: State, step: Step)
    requires Sound(c, s) && step.IsTask() && Enabled(c, s, step)
    ensures Weight(c, Next(c, s, step)) < Weight(c, s)
  {
    var n, t := step.n, Next(c, s, step);
    TaskShape(c, s, step);
    if Acks(c, s, step) {
      AckIsCheaper(c, s.broker, s.worker.pcs, n, t.broker.acked[n]);
    } else {
      RankFalls(c, s, step);
      FurtherIsCheaper(c, s.broker, s.worker.pcs, n, t.worker.pcs[n]);
    }
  }

  lemma HandedIsCheaper(c: Config, b: Broker, pcs: seq<Pc>)
    requires Conserved(b) && |pcs| == |b.published| && b.queue != []
    ensures var d, pcs' := Handed(b), pcs[b.queue[0] := Waiting];
      Total(c, d, pcs', |b.published|) + 1 == Total(c, b, pcs, |b.published|)
  {
    var n, d := b.queue[0], Handed(b);
    OneHome(b, n);
    forall m: nat | m < |b.published| && m != n
      ensures Cost(c, d, pcs[n := Waiting], m) == Cost(c, b, pcs, m)
    {
      assert m in b.queue <==> m in d.queue;
    }
    assert d.unacked[|b.unacked|] == n;
    TotalChangesAt(c, b, pcs, d, pcs[n := Waiting], |b.published|, n);
  }

  lemma StalePcIsFree(c: Config, b: Broker, pcs: seq<Pc>, n: nat, pc: Pc, k: nat)
    requires InRange(b) && |pcs| == |b.published| && n < |pcs| && n !in b.unacked
    ensures Total(c, b, pcs[n := pc], k) == Total(c, b, pcs, k)
  {
    TotalChangesAt(c, b, pcs, b, pcs[n := pc], k, n);
  }

  lemma DeliverIsCheaper(c: Config, s: State, pos: nat)
    requires Sound(c, s) && Enabled(c, s, Deliver(pos))
    ensures Weight(c, Next(c, s, Deliver(pos))) < Weight(c, s)
  {
    var n, b := s.broker.queue[0], Handed(s.broker);
    HandedIsCheaper(c, s.broker, s.worker.pcs);
    if s.broker.published[n].v != SCHEMA_VERSION {
      HandedKeeps(c, s.broker);
      GivenBackIsCheaper(c, b, s.worker.pcs[n := Waiting], n, pos);
      OneHome(b, n);
      StalePcIsFree(c, GivenBack(c, b, n, pos), s.worker.pcs, n, Waiting, |b.published|);
    }
  }

  lemma PublishCostsOneRound(c: Config, s: State, e: Event)
    requires Sound(c, s)
    ensures Weight(c, Next(c, s, Publish(e))) == Weight(c, s) + Price(c)
  {
    var t, k := Next(c, s, Publish(e)), |s.broker.published|;
    OneHome(s.broker, k);
    assert t.broker.queue[|s.broker.queue|] == k;
    TotalChangesAt(c, s.broker, s.worker.pcs, t.broker, t.worker.pcs, k, k);
  }

  // ----- every message costs a bounded amount of work

  ghost function WorkOf(s: State, step: Step): nat {
    if step.IsTask() || step.Deliver? || step.Fail? then 1 else if step.Crash? then |s.broker.unacked| else 0
  }

  /** Steps of the worker and the broker, crashes counted by the deliveries they interrupt. */
  ghost function Work(c: Config, s: State, steps: seq<Step>): nat
    requires IsRun(c, s, steps)
    decreases |steps|
  {
    if steps == [] then 0 else WorkOf(s, steps[0]) + Work(c, Next(c, s, steps[0]), steps[1..])
  }

  function Publications(steps: seq<Step>): nat {
    if steps == [] then 0 else (if steps[0].Publish? then 1 else 0) + Publications(steps[1..])
  }

  lemma CrashIsCheaper(c: Config, s: State)
    requires Sound(c, s)
    ensures Weight(c, Next(c, s, Crash)) + |s.broker.unacked| <= Weight(c, s)
  {
    AllGivenBackIsCheaper(c, s.broker, s.worker.pcs);
  }

  lemma StepIsPaidFor(c: Config, s: State, step: Step)
    requires Sound(c, s) && Enabled(c, s, step)
    ensures Sound(c, Next(c, s, step))
    ensures Weight(c, Next(c, s, step)) + WorkOf(s, step) <= Weight(c, s) + if step.Publish? then Price(c) else 0
  {
    SoundNext(c, s, step);
    if step.IsTask() {
      TaskIsCheaper(c, s, step);
    } else if step.Deliver? {
      DeliverIsCheaper(c, s, step.pos);
    } else if step.Fail? {
      GivenBackIsCheaper(c, s.broker, s.worker.pcs, step.n, step.pos);
    } else if step.Crash? {
      CrashIsCheaper(c, s);
    } else if step.Publish? {
      PublishCostsOneRound(c, s, step.e);
    }
  }

  /** The account of the first step and that of the rest add up. */
  lemma AddAccounts(first: nat, rest: nat, before: nat, between: nat, after: nat, paid: nat, k: nat, price: nat)
    requires between + first <= before + (if paid == 1 then price else 0) && paid <= 1 && rest + after <= between + k * price
    ensures first + rest + after <= before + (k + paid) * price
  {
    assert (k + paid) * price == k * price + paid * price;
  }

  lemma FirstStepCounts(c: Config, s: State, steps: seq<Step>)
    requires IsRun(c, s, steps) && steps != []
    ensures var t, rest := Next(c, s, steps[0]), steps[1..];
      && After(c, s, steps) == After(c, t, rest)
      && Work(c, s, steps) == WorkOf(s, steps[0]) + Work(c, t, rest)
      && Publications(steps) == Publications(rest) + (if steps[0].Publish? then 1 else 0)
  {
  }

  /** In every run, crashes and nacks included, the steps taken are at most twelve per delivery
      that the delivery limit allows each published message, beyond what was pending. */
  lemma {:induction false} WorkIsBounded(c: Config, s: State, steps: seq<Step>)
    requires Sound(c, s) && IsRun(c, s, steps)
    ensures Sound(c, After(c, s, steps))
    ensures Work(c, s, steps) + Weight(c, After(c, s, steps)) <= Weight(c, s) + Publications(steps) * Price(c)
    decreases |steps|
  {
    if steps != [] {
      var rest, t := steps[1..], Next(c, s, steps[0]);
      StepIsPaidFor(c, s, steps[0]);
      WorkIsBounded(c, t, rest);
      FirstStepCounts(c, s, steps);
      AddAccounts(WorkOf(s, steps[0]), Work(c, t, rest), Weight(c, s), Weight(c, t), Weight(c, After(c, t, rest)),
                  if steps[0].Publish? then 1 else 0, Publications(rest), Price(c));
    }
  }

  /** Delivery and settlement counts of every message in every run: a message is handed out at
      most one time more than the limit, and is dead-lettered exactly when all of them came back. */
  lemma DeliveriesAreBounded(c: Config, s: State, steps: seq<Step>, n: nat)
    requires Init(s) && IsRun(c, s, steps) && n < |After(c, s, steps).broker.published|
    ensures var b := After(c, s, steps).broker;
      && InRange(b)
      && Copies(b, n) == 1
      && b.deliveries[n] <= c.deliveryLimit + 1
      && (n in b.dead <==> b.comebacks[n] == c.deliveryLimit + 1)
      && b.deliveries[n] == b.comebacks[n] + if n in b.unacked || n in b.acked then 1 else 0
  {
    assert forall m: nat :: Copies(s.broker, m) == 0;
    WorkIsBounded(c, s, steps);
    OneHome(After(c, s, steps).broker, n);
  }

  // ----- no head-of-line blocking

  ghost predicate Frozen(b: Broker, frozen: set<string>, n: nat) {
    n < |b.published| && b.published[n].user in frozen
  }

  /** No delivered message of another user shares the advisory lock with an open transaction of
      a frozen user. */
  ghost predicate LocksApart(c: Config, s: State, frozen: set<string>)
    requires Shaped(s)
  {
    forall m, k :: m in s.broker.unacked && !Frozen(s.broker, frozen, m)
      && k in s.broker.unacked && Frozen(s.broker, frozen, k) && s.worker.pcs[k].InTx?
      ==> c.lockKey(s.broker.published[m].user) != c.lockKey(s.broker.published[k].user)
  }

  /** The next step of the task of n. Only a reading that fails the accuracy gate is nacked. */
  ghost function NextStepOf(s: State, n: nat): Step
    requires Out(s, n)
  {
    match s.worker.pcs[n]
    case Waiting => Start(n)
    case Started => Gate(n)
    case Seeding => Seed(n)
    case Looking => if s.broker.published[n].PassesAccuracyGate() then Lookup(n) else Fail(n, 0)
    case Hinting(_) => Hint(n)
    case Reading(_) => ReadHint(n)
    case HaveRead(_, _) => KeepHint(n)
    case Opening(_) => Open(n)
    case InTx(_, _) => if EntersOnlyLive(s.worker.pcs[n], s.db.live) then Commit(n) else FkDrop(n)
    case Committed(_) => SetMemory(n)
    case Finishing(_) => Finish(n)
  }

  lemma {:induction false} FirstOfUser(b: Broker, i: nat) returns (n: nat)
    requires Conserved(b) && i < |b.unacked|
    ensures n in b.unacked && b.published[n].user == b.published[b.unacked[i]].user && IsFirstOfUser(b, n)
    decreases i
  {
    if j: nat :| j < i && b.published[b.unacked[j]].user == b.published[b.unacked[i]].user {
      n := FirstOfUser(b, j);
    } else {
      n := b.unacked[i];
      Unrepeated(b, i, IndexOf(b.unacked, n));
    }
  }

  /** Message m, of a user that is not frozen, waits to open its transaction while message k, of a
      frozen user whose id hashes to the same advisory lock, has one open. */
  ghost predicate Stuck(c: Config, s: State, frozen: set<string>, m: nat, k: nat) {
    BlockedBy(c, s, m, k) && !Frozen(s.broker, frozen, m) && Frozen(s.broker, frozen, k) && s.broker.published[m].PassesAccuracyGate()
  }

  ghost predicate NoneStuck(c: Config, s: State, frozen: set<string>) {
    forall m: nat, k: nat :: !Stuck(c, s, frozen, m, k)
  }

  /** A step that the others may take: any task step of theirs, but a nack only of a reading that
      fails the accuracy gate. */
  ghost predicate OthersStep(b: Broker, frozen: set<string>, step: Step) {
    && (step.IsTask() || step.Fail?) && !Frozen(b, frozen, step.n)
    && (step.Fail? ==> step.n < |b.published| && !b.published[step.n].PassesAccuracyGate())
  }

  lemma NextStepIsEnabled(c: Config, s: State, n: nat)
    requires Sound(c, s) && Out(s, n) && (IsFirstOfUser(s.broker, n) || !s.worker.pcs[n].Waiting?)
    requires s.worker.pcs[n].Opening? ==> LockFree(c, s, s.broker.published[n].user)
    ensures Enabled(c, s, NextStepOf(s, n)) && NextStepOf(s, n).n == n
    ensures NextStepOf(s, n).IsTask() || (NextStepOf(s, n).Fail? && !s.broker.published[n].PassesAccuracyGate())
  {
  }

  /** A held lock is held by a frozen transaction when no other is open. */
  lemma LockIsHeldByFrozen(c: Config, s: State, frozen: set<string>, n: nat)
    requires Sound(c, s) && NoneStuck(c, s, frozen) && Out(s, n) && !Frozen(s.broker, frozen, n) && s.worker.pcs[n].Opening?
    requires forall k :: k in s.broker.unacked && s.worker.pcs[k].InTx? ==> Frozen(s.broker, frozen, k)
    requires !LockFree(c, s, s.broker.published[n].user)
    ensures !s.broker.published[n].PassesAccuracyGate()
  {
    var b, pcs := s.broker, s.worker.pcs;
    var k :| k in b.unacked && pcs[k].InTx? && c.lockKey(b.published[k].user) == c.lockKey(b.published[n].user);
    assert BlockedBy(c, s, n, k) && !Stuck(c, s, frozen, n, k);
  }

  /** Unless one of them is stuck, some task of a user that is not frozen can move. */
  lemma SomeTaskMoves(c: Config, s: State, frozen: set<string>, m: nat) returns (step: Step)
    requires Sound(c, s) && NoneStuck(c, s, frozen)
    requires m in s.broker.unacked && !Frozen(s.broker, frozen, m)
    ensures Enabled(c, s, step) && OthersStep(s.broker, frozen, step)
  {
    var b, pcs, n := s.broker, s.worker.pcs, m;
    if k :| k in b.unacked && !Frozen(b, frozen, k) && pcs[k].InTx? {
      n := k;
    } else {
      n := FirstOfUser(b, IndexOf(b.unacked, m));
    }
    if pcs[n].Opening? && !LockFree(c, s, b.published[n].user) {
      LockIsHeldByFrozen(c, s, frozen, n);
      step := Fail(n, 0);
    } else {
      NextStepIsEnabled(c, s, n);
      step := NextStepOf(s, n);
    }
  }

  lemma DeliveryStepFacts(c: Config, s: State, step: Step)
    requires Sound(c, s) && Enabled(c, s, step) && (step.IsTask() || step.Fail?)
    ensures var t := Next(c, s, step);
      && Sound(c, t) && Weight(c, t) < Weight(c, s)
      && t.broker.published == s.broker.published
      && (t.broker.unacked == s.broker.unacked || t.broker.unacked == Remove(s.broker.unacked, step.n))
      && (forall m :: m in s.broker.unacked && m != step.n ==> t.worker.pcs[m] == s.worker.pcs[m])
  {
    StepIsPaidFor(c, s, step);
    if step.IsTask() {
      TaskShape(c, s, step);
    }
  }

  lemma FrozenUntouched(c: Config, s: State, t: State, frozen: set<string>, n: nat)
    requires Sound(c, s) && Sound(c, t) && Out(s, n) && !Frozen(s.broker, frozen, n)
    requires t.broker.published == s.broker.published
    requires t.broker.unacked == s.broker.unacked || t.broker.unacked == Remove(s.broker.unacked, n)
    requires forall m :: m in s.broker.unacked && m != n ==> t.worker.pcs[m] == s.worker.pcs[m]
    ensures SameFrozen(s, t, frozen)
    ensures LocksApart(c, s, frozen) ==> LocksApart(c, t, frozen)
  {
    RemoveFacts(s.broker.unacked, n);
    forall m | m in s.broker.unacked && m != n ensures m in t.broker.unacked {
      StillThere(s.broker.unacked, n, m);
    }
    forall m | m in t.broker.unacked && m != n ensures m in s.broker.unacked && t.worker.pcs[m] == s.worker.pcs[m] {}
  }

  /** The frozen users' deliveries are the same ones, at the same points. */
  ghost predicate SameFrozen(s: State, t: State, frozen: set<string>)
    requires Shaped(s) && Shaped(t)
  {
    && t.broker.published == s.broker.published
    && forall n: nat :: Frozen(s.broker, frozen, n) ==>
         && (n in s.broker.unacked <==> n in t.broker.unacked)
         && (n in s.broker.unacked ==> t.worker.pcs[n] == s.worker.pcs[n])
  }

  /** A run of the others alone. */
  ghost predicate Spares(b: Broker, frozen: set<string>, steps: seq<Step>) {
    forall i :: 0 <= i < |steps| ==> OthersStep(b, frozen, steps[i])
  }

  ghost predicate SparedRun(c: Config, s: State, frozen: set<string>, steps: seq<Step>) {
    Shaped(s) && IsRun(c, s, steps) && Spares(s.broker, frozen, steps)
  }

  /** Such a run that leaves only the frozen users' deliveries unsettled, where they stood. */
  ghost predicate SettlesOthers(c: Config, s: State, frozen: set<string>, steps: seq<Step>) {
    && SparedRun(c, s, frozen, steps)
    && var t := After(c, s, steps);
      && Sound(c, t) && SameFrozen(s, t, frozen)
      && forall n :: n in t.broker.unacked ==> Frozen(t.broker, frozen, n)
  }

  ghost predicate CanSettle(c: Config, s: State, frozen: set<string>) {
    exists steps :: SettlesOthers(c, s, frozen, steps)
  }

  /** Whatever the others do first, none of them gets stuck. */
  ghost predicate NeverStuck(c: Config, s: State, frozen: set<string>) {
    forall steps :: SparedRun(c, s, frozen, steps) ==> NoneStuck(c, After(c, s, steps), frozen)
  }

  lemma OthersStepFacts(c: Config, s: State, frozen: set<string>, step: Step)
    requires Sound(c, s) && Enabled(c, s, step) && OthersStep(s.broker, frozen, step)
    ensures var t := Next(c, s, step);
      && Sound(c, t) && Weight(c, t) < Weight(c, s) && SameFrozen(s, t, frozen)
      && (LocksApart(c, s, frozen) ==> LocksApart(c, t, frozen))
  {
    DeliveryStepFacts(c, s, step);
    FrozenUntouched(c, s, Next(c, s, step), frozen, step.n);
  }

  lemma SparedPrepend(c: Config, s: State, frozen: set<string>, step: Step, rest: seq<Step>)
    requires Shaped(s) && Enabled(c, s, step) && OthersStep(s.broker, frozen, step)
    requires SparedRun(c, Next(c, s, step), frozen, rest) && Next(c, s, step).broker.published == s.broker.published
    ensures SparedRun(c, s, frozen, [step] + rest) && After(c, s, [step] + rest) == After(c, Next(c, s, step), rest)
  {
    assert ([step] + rest)[1..] == rest;
  }

  lemma SparedTail(c: Config, s: State, frozen: set<string>, steps: seq<Step>)
    requires Sound(c, s) && SparedRun(c, s, frozen, steps) && steps != []
    ensures OthersStep(s.broker, frozen, steps[0]) && SparedRun(c, Next(c, s, steps[0]), frozen, steps[1..])
    ensures Sound(c, Next(c, s, steps[0])) && SameFrozen(s, Next(c, s, steps[0]), frozen)
    ensures LocksApart(c, s, frozen) ==> LocksApart(c, Next(c, s, steps[0]), frozen)
  {
    assert OthersStep(s.broker, frozen, steps[0]);
    OthersStepFacts(c, s, frozen, steps[0]);
    forall i | 0 <= i < |steps[1..]| ensures OthersStep(s.broker, frozen, steps[1..][i]) {
      assert OthersStep(s.broker, frozen, steps[i + 1]);
    }
  }

  lemma StillNeverStuck(c: Config, s: State, frozen: set<string>, step: Step)
    requires Sound(c, s) && NeverStuck(c, s, frozen) && Enabled(c, s, step) && OthersStep(s.broker, frozen, step)
    ensures NeverStuck(c, Next(c, s, step), frozen)
  {
    OthersStepFacts(c, s, frozen, step);
    forall rest | SparedRun(c, Next(c, s, step), frozen, rest) ensures NoneStuck(c, After(c, Next(c, s, step), rest), frozen) {
      NoneStuckAfter(c, s, frozen, step, rest);
    }
  }

  lemma NoneStuckAfter(c: Config, s: State, frozen: set<string>, step: Step, rest: seq<Step>)
    requires Shaped(s) && NeverStuck(c, s, frozen) && Enabled(c, s, step) && OthersStep(s.broker, frozen, step)
    requires SparedRun(c, Next(c, s, step), frozen, rest) && Next(c, s, step).broker.published == s.broker.published
    ensures NoneStuck(c, After(c, Next(c, s, step), rest), frozen)
  {
    SparedPrepend(c, s, frozen, step, rest);
  }

  lemma SameFrozenTransitive(s: State, t: State, r: State, frozen: set<string>)
    requires Shaped(s) && Shaped(t) && Shaped(r) && SameFrozen(s, t, frozen) && SameFrozen(t, r, frozen)
    ensures SameFrozen(s, r, frozen)
  {
    forall n: nat | Frozen(s.broker, frozen, n)
      ensures n in s.broker.unacked <==> n in r.broker.unacked
      ensures n in s.broker.unacked ==> r.worker.pcs[n] == s.worker.pcs[n]
    {
      assert Frozen(t.broker, frozen, n);
    }
  }

  lemma SettlesOthersPrepend(c: Config, s: State, frozen: set<string>, step: Step, rest: seq<Step>)
    requires Shaped(s) && Enabled(c, s, step) && OthersStep(s.broker, frozen, step)
    requires SettlesOthers(c, Next(c, s, step), frozen, rest) && SameFrozen(s, Next(c, s, step), frozen)
    ensures SettlesOthers(c, s, frozen, [step] + rest)
  {
    SparedPrepend(c, s, frozen, step, rest);
    SameFrozenTransitive(s, Next(c, s, step), After(c, Next(c, s, step), rest), frozen);
  }

  /** While the tasks of the frozen users never move again, the others, if none of them can get
      stuck, have a run that settles every delivery of theirs. */
  lemma {:induction false} SettleUnlessStuck(c: Config, s: State, frozen: set<string>) returns (steps: seq<Step>)
    requires Sound(c, s) && NeverStuck(c, s, frozen)
    ensures SettlesOthers(c, s, frozen, steps)
    decreases Weight(c, s)
  {
    if m :| m in s.broker.unacked && !Frozen(s.broker, frozen, m) {
      assert SparedRun(c, s, frozen, []);
      var step := SomeTaskMoves(c, s, frozen, m);
      OthersStepFacts(c, s, frozen, step);
      StillNeverStuck(c, s, frozen, step);
      var rest := SettleUnlessStuck(c, Next(c, s, step), frozen);
      SettlesOthersPrepend(c, s, frozen, step, rest);
      steps := [step] + rest;
    } else {
      steps := [];
    }
  }

  lemma {:induction false} ApartNeverStuck(c: Config, s: State, frozen: set<string>, steps: seq<Step>)
    requires Sound(c, s) && LocksApart(c, s, frozen) && SparedRun(c, s, frozen, steps)
    ensures NoneStuck(c, After(c, s, steps), frozen)
    decreases |steps|
  {
    if steps != [] {
      SparedTail(c, s, frozen, steps);
      ApartNeverStuck(c, Next(c, s, steps[0]), frozen, steps[1..]);
    }
  }

  /** No head-of-line blocking. While the tasks of the frozen users never move again, there is a run
      of the others that settles every delivery of theirs, nacking only readings that fail the
      accuracy gate, provided none of them shares the lock of a frozen open transaction. */
  lemma OthersAlwaysSettle(c: Config, s: State, frozen: set<string>) returns (steps: seq<Step>)
    requires Sound(c, s) && LocksApart(c, s, frozen)
    ensures SettlesOthers(c, s, frozen, steps)
  {
    forall run | SparedRun(c, s, frozen, run) ensures NoneStuck(c, After(c, s, run), frozen) {
      ApartNeverStuck(c, s, frozen, run);
    }
    steps := SettleUnlessStuck(c, s, frozen);
  }

  /** Message m waits to open its transaction while message k, of another user whose id hashes
      to the same advisory lock, has one open. */
  ghost predicate BlockedBy(c: Config, s: State, m: nat, k: nat) {
    && Out(s, m) && s.worker.pcs[m].Opening?
    && Out(s, k) && s.worker.pcs[k].InTx?
    && s.broker.published[m].user != s.broker.published[k].user
    && c.lockKey(s.broker.published[m].user) == c.lockKey(s.broker.published[k].user)
  }

  /** Everything but a crash, a step of the frozen message k, or a failure of the blocked m. */
  ghost predicate LeavesBlocked(step: Step, m: nat, k: nat) {
    !step.Crash? && (step.IsTask() ==> step.n != k) && (step.Fail? ==> step.n != k && step.n != m)
  }

  lemma BlockedThroughTasks(c: Config, s: State, step: Step, m: nat, k: nat)
    requires Sound(c, s) && BlockedBy(c, s, m, k) && Enabled(c, s, step) && LeavesBlocked(step, m, k)
    requires step.IsTask() || step.Fail?
    ensures BlockedBy(c, Next(c, s, step), m, k)
  {
    assert step.n != m;
    DeliveryStepFacts(c, s, step);
    StillThere(s.broker.unacked, step.n, m);
    StillThere(s.broker.unacked, step.n, k);
    BlockedWhereTheyStood(c, s, Next(c, s, step), m, k);
  }

  lemma BlockedStaysBlocked(c: Config, s: State, step: Step, m: nat, k: nat)
    requires Sound(c, s) && BlockedBy(c, s, m, k) && Enabled(c, s, step) && LeavesBlocked(step, m, k)
    ensures BlockedBy(c, Next(c, s, step), m, k)
  {
    if step.IsTask() || step.Fail? {
      BlockedThroughTasks(c, s, step, m, k);
    } else {
      SoundNext(c, s, step);
      if step.Deliver? {
        DeliverShape(c, s, step.pos);
      }
      BlockedWhereTheyStood(c, s, Next(c, s, step), m, k);
    }
  }

  lemma BlockedWhereTheyStood(c: Config, s: State, t: State, m: nat, k: nat)
    requires Sound(c, s) && BlockedBy(c, s, m, k) && Sound(c, t)
    requires s.broker.published <= t.broker.published && m in t.broker.unacked && k in t.broker.unacked
    requires t.worker.pcs[m] == s.worker.pcs[m] && t.worker.pcs[k] == s.worker.pcs[k]
    ensures BlockedBy(c, t, m, k)
  {
  }

  /** Whatever anyone else does, a message whose user shares the lock of a hanging transaction is
      not acknowledged, as long as the worker does not crash and the waiting statement itself does
      not reject. */
  lemma {:induction false} SharedLockBlocks(c: Config, s: State, steps: seq<Step>, m: nat, k: nat)
    requires Sound(c, s) && BlockedBy(c, s, m, k) && IsRun(c, s, steps)
    requires forall i :: 0 <= i < |steps| ==> LeavesBlocked(steps[i], m, k)
    ensures m !in After(c, s, steps).broker.acked && m in After(c, s, steps).broker.unacked
    decreases |steps|
  {
    if steps == [] {
      OneHome(s.broker, m);
    } else {
      BlockedStaysBlocked(c, s, steps[0], m, k);
      SoundNext(c, s, steps[0]);
      SharedLockBlocks(c, Next(c, s, steps[0]), steps[1..], m, k);
    }
  }

  /** The lock condition is needed: once a message is stuck, no run of the others settles it. */
  lemma StuckNeverSettles(c: Config, s: State, frozen: set<string>, steps: seq<Step>, m: nat, k: nat)
    requires Sound(c, s) && Stuck(c, s, frozen, m, k)
    ensures !SettlesOthers(c, s, frozen, steps)
  {
    if SettlesOthers(c, s, frozen, steps) {
      forall i | 0 <= i < |steps| ensures LeavesBlocked(steps[i], m, k) {
        assert OthersStep(s.broker, frozen, steps[i]);
      }
      SharedLockBlocks(c, s, steps, m, k);
    }
  }

  lemma {:induction false} SparedRunIsSound(c: Config, s: State, frozen: set<string>, steps: seq<Step>)
    requires Sound(c, s) && SparedRun(c, s, frozen, steps)
    ensures Sound(c, After(c, s, steps))
    decreases |steps|
  {
    if steps != [] {
      SparedTail(c, s, frozen, steps);
      SparedRunIsSound(c, Next(c, s, steps[0]), frozen, steps[1..]);
    }
  }

  /** Exactly when the others are safe: they can settle whatever they do first if and only if no
      run of theirs brings one of them to wait for the lock of a frozen open transaction. */
  lemma SettleExactlyUnlessStuck(c: Config, s: State, frozen: set<string>)
    requires Sound(c, s)
    ensures NeverStuck(c, s, frozen)
      <==> forall steps :: SparedRun(c, s, frozen, steps) ==> CanSettle(c, After(c, s, steps), frozen)
  {
    forall steps | SparedRun(c, s, frozen, steps)
      ensures NeverStuck(c, s, frozen) ==> CanSettle(c, After(c, s, steps), frozen)
      ensures CanSettle(c, After(c, s, steps), frozen) ==> NoneStuck(c, After(c, s, steps), frozen)
    {
      var t := After(c, s, steps);
      SparedRunIsSound(c, s, frozen, steps);
      if NeverStuck(c, s, frozen) {
        NeverStuckAfter(c, s, frozen, steps);
        var more := SettleUnlessStuck(c, t, frozen);
      }
      if m: nat, k: nat :| Stuck(c, t, frozen, m, k) {
        forall more ensures !SettlesOthers(c, t, frozen, more) {
          StuckNeverSettles(c, t, frozen, more, m, k);
        }
      }
    }
  }

  lemma {:induction false} NeverStuckAfter(c: Config, s: State, frozen: set<string>, steps: seq<Step>)
    requires Sound(c, s) && NeverStuck(c, s, frozen) && SparedRun(c, s, frozen, steps)
    ensures NeverStuck(c, After(c, s, steps), frozen)
    decreases |steps|
  {
    if steps != [] {
      SparedTail(c, s, frozen, steps);
      StillNeverStuck(c, s, frozen, steps[0]);
      NeverStuckAfter(c, Next(c, s, steps[0]), frozen, steps[1..]);
    }
  }
}
