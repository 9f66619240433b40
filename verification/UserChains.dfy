/** Per-user promise chains: a map from user to the tail of that user's chain, extended when a
    message arrives and cleaned up, with an identity check, after a tail has settled. Promises
    are numbered in the order they were created. */
module UserChains {
  import opened Tables
  import Brokers

  datatype Status =
    | Pending                  // the previous tail, if any, has not settled or the task has not begun
    | Running
    | Settled                  // the task is over, its cleanup callback has not run
    | Cleaned

  datatype Tail = Tail(user: string, previous: Option<nat>, status: Status) {
    predicate Done() { status.Settled? || status.Cleaned? }
  }

  datatype Chains = Chains(tails: seq<Tail>, userChains: map<string, nat>)

  datatype Step =
    | Enqueue(user: string)
    | Start(t: nat)
    | Settle(t: nat)
    | CleanUp(t: nat)

  /** `previous.then(task)`: the task begins once the previous promise has settled. */
  predicate CanStart(s: Chains, t: nat) {
    && t < |s.tails| && s.tails[t].status.Pending?
    && (s.tails[t].previous.Some? ==> s.tails[t].previous.value < |s.tails| && s.tails[s.tails[t].previous.value].Done())
  }

  predicate Enabled(s: Chains, step: Step) {
    match step
    case Enqueue(_) => true
    case Start(t) => CanStart(s, t)
    case Settle(t) => t < |s.tails| && s.tails[t].status.Running?
    case CleanUp(t) => t < |s.tails| && s.tails[t].status.Settled?
  }

  function WithStatus(s: Chains, t: nat, status: Status): Chains
    requires t < |s.tails|
  {
    s.(tails := s.tails[t := s.tails[t].(status := status)])
  }

  function Enqueued(s: Chains, user: string): Chains {
    var previous := if user in s.userChains then Some(s.userChains[user]) else None;
    Chains(s.tails + [Tail(user, previous, Pending)], s.userChains[user := |s.tails|])
  }

  /** The map entry goes only if it still is this tail. */
  function CleanedUp(s: Chains, t: nat): Chains
    requires t < |s.tails|
  {
    var user := s.tails[t].user;
    var r := WithStatus(s, t, Status.Cleaned);
    if user in s.userChains && s.userChains[user] == t then r.(userChains := s.userChains - {user}) else r
  }

  function Next(s: Chains, step: Step): Chains
    requires Enabled(s, step)
  {
    match step
    case Enqueue(user) => Enqueued(s, user)
    case Start(t) => WithStatus(s, t, Running)
    case Settle(t) => WithStatus(s, t, Settled)
    case CleanUp(t) => CleanedUp(s, t)
  }

  // ----- the invariant

  ghost predicate Newest(s: Chains, t: nat)
    requires t < |s.tails|
  {
    forall r :: t < r < |s.tails| ==> s.tails[r].user != s.tails[t].user
  }

  ghost predicate EarlierDone(s: Chains, t: nat)
    requires t < |s.tails|
  {
    forall r :: 0 <= r < t && s.tails[r].user == s.tails[t].user ==> s.tails[r].Done()
  }

  ghost predicate LinkFits(s: Chains, t: nat)
    requires t < |s.tails|
  {
    match s.tails[t].previous
    case None => EarlierDone(s, t)
    case Some(p) =>
      && p < t && s.tails[p].user == s.tails[t].user
      && forall r :: p < r < t ==> s.tails[r].user != s.tails[t].user
  }

  ghost predicate Fits(s: Chains) {
    && (forall u :: u in s.userChains ==>
          && s.userChains[u] < |s.tails| && s.tails[s.userChains[u]].user == u
          && Newest(s, s.userChains[u]) && !s.tails[s.userChains[u]].status.Cleaned?)
    && (forall t :: 0 <= t < |s.tails| && s.tails[t].user !in s.userChains ==> s.tails[t].Done())
    && (forall t :: 0 <= t < |s.tails| ==> LinkFits(s, t))
    && (forall t :: 0 <= t < |s.tails| && !s.tails[t].status.Pending? ==> EarlierDone(s, t))
  }

  /** A task may begin exactly when it is its user's oldest unsettled one. */
  lemma StartsInDeliveryOrder(s: Chains, t: nat)
    requires Fits(s) && t < |s.tails|
    ensures CanStart(s, t) <==> s.tails[t].status.Pending? && EarlierDone(s, t)
  {
    assert LinkFits(s, t);
    if CanStart(s, t) && s.tails[t].previous.Some? {
      var p := s.tails[t].previous.value;
      assert EarlierDone(s, p);
    }
  }

  /** At most one task of a user runs. */
  lemma OneTaskPerUser(s: Chains, t: nat, r: nat)
    requires Fits(s) && t < |s.tails| && r < |s.tails|
    requires s.tails[t].status.Running? && s.tails[r].status.Running? && s.tails[t].user == s.tails[r].user
    ensures t == r
  {
  }

  /** While any task of a user is unsettled, the map holds that user's newest tail. */
  lemma MapHoldsNewestTail(s: Chains, t: nat)
    requires Fits(s) && t < |s.tails| && !s.tails[t].Done()
    ensures s.tails[t].user in s.userChains
    ensures s.userChains[s.tails[t].user] < |s.tails|
    ensures t <= s.userChains[s.tails[t].user] && Newest(s, s.userChains[s.tails[t].user])
  {
  }

  lemma EnqueueFits(s: Chains, user: string)
    requires Fits(s)
    ensures Fits(Enqueued(s, user))
  {
    var n := Enqueued(s, user);
    forall t | 0 <= t < |n.tails| ensures LinkFits(n, t) && (!n.tails[t].status.Pending? ==> EarlierDone(n, t)) {
      if t < |s.tails| { assert LinkFits(s, t); }
    }
  }

  lemma StatusFits(s: Chains, t: nat, status: Status)
    requires Fits(s) && t < |s.tails| && !status.Pending? && !status.Cleaned?
    requires EarlierDone(s, t) && (s.tails[t].Done() ==> !status.Running?)
    ensures Fits(WithStatus(s, t, status))
  {
    var n := WithStatus(s, t, status);
    forall r | 0 <= r < |n.tails| ensures LinkFits(n, r) && (!n.tails[r].status.Pending? ==> EarlierDone(n, r)) {
      assert LinkFits(s, r);
    }
    forall u | u in n.userChains ensures Newest(n, n.userChains[u]) {
      assert Newest(s, s.userChains[u]);
    }
  }

  lemma StatusKeepsLinks(s: Chains, t: nat)
    requires Fits(s) && t < |s.tails| && s.tails[t].status.Settled?
    ensures var n := CleanedUp(s, t);
      forall r :: 0 <= r < |n.tails| ==> LinkFits(n, r) && (!n.tails[r].status.Pending? ==> EarlierDone(n, r))
  {
    var n := CleanedUp(s, t);
    forall r | 0 <= r < |n.tails| ensures LinkFits(n, r) && (!n.tails[r].status.Pending? ==> EarlierDone(n, r)) {
      assert LinkFits(s, r);
    }
  }

  lemma CleanUpFits(s: Chains, t: nat)
    requires Fits(s) && Enabled(s, CleanUp(t))
    ensures Fits(CleanedUp(s, t))
  {
    var n := CleanedUp(s, t);
    StatusKeepsLinks(s, t);
    forall u | u in n.userChains ensures Newest(n, n.userChains[u]) {
      assert Newest(s, s.userChains[u]);
    }
    forall r | 0 <= r < |n.tails| && n.tails[r].user !in n.userChains ensures n.tails[r].Done() {
      if s.tails[r].user in s.userChains {
        assert Newest(s, t) && EarlierDone(s, t);
      }
    }
  }

  lemma FitsNext(s: Chains, step: Step)
    requires Fits(s) && Enabled(s, step)
    ensures Fits(Next(s, step))
  {
    match step
    case Enqueue(user) => EnqueueFits(s, user);
    case Start(t) =>
      StartsInDeliveryOrder(s, t);
      StatusFits(s, t, Running);
    case Settle(t) => StatusFits(s, t, Settled);
    case CleanUp(t) => CleanUpFits(s, t);
  }

  /** Cleanup never removes a newer chain: when an entry disappears, no task of that user is
      pending or running. */
  lemma CleanupSparesNewerChains(s: Chains, t: nat, user: string)
    requires Fits(s) && Enabled(s, CleanUp(t))
    requires user in s.userChains && user !in Next(s, CleanUp(t)).userChains
    ensures s.tails[t].user == user && s.userChains[user] == t
    ensures forall r :: 0 <= r < |s.tails| && s.tails[r].user == user ==> s.tails[r].Done()
  {
  }

  /** Shutdown: once the tails held in the map have settled, every task has. */
  lemma MapTailsDominate(s: Chains)
    requires Fits(s)
    requires forall u :: u in s.userChains ==> s.userChains[u] < |s.tails| && s.tails[s.userChains[u]].Done()
    ensures forall t :: 0 <= t < |s.tails| ==> s.tails[t].Done()
  {
  }

  /** No leak: after every cleanup has run the map is empty. */
  lemma CleanedUpMapIsEmpty(s: Chains)
    requires Fits(s) && forall t :: 0 <= t < |s.tails| ==> s.tails[t].status.Cleaned?
    ensures s.userChains == map[]
  {
  }

  // ----- shutdown as a run

  predicate IsRun(s: Chains, steps: seq<Step>)
    decreases |steps|
  {
    steps == [] || (Enabled(s, steps[0]) && IsRun(Next(s, steps[0]), steps[1..]))
  }

  function After(s: Chains, steps: seq<Step>): Chains
    requires IsRun(s, steps)
    decreases |steps|
  {
    if steps == [] then s else After(Next(s, steps[0]), steps[1..])
  }

  lemma {:induction false} DoneStaysDone(s: Chains, steps: seq<Step>, t: nat)
    requires IsRun(s, steps) && t < |s.tails|
    ensures t < |After(s, steps).tails| && After(s, steps).tails[t].user == s.tails[t].user
    ensures s.tails[t].Done() ==> After(s, steps).tails[t].Done()
    decreases |steps|
  {
    if steps != [] {
      DoneStaysDone(Next(s, steps[0]), steps[1..], t);
    }
  }

  lemma {:induction false} RunKeepsFits(s: Chains, steps: seq<Step>)
    requires Fits(s) && IsRun(s, steps)
    ensures Fits(After(s, steps))
    decreases |steps|
  {
    if steps != [] {
      FitsNext(s, steps[0]);
      RunKeepsFits(Next(s, steps[0]), steps[1..]);
    }
  }

  /** The tails collected when the consumers have been cancelled are enough to wait for: in any
      later run without new messages, when all of them have settled, so has every delivery. */
  lemma {:induction false} DrainWaitsForEverything(s: Chains, steps: seq<Step>)
    requires Fits(s) && IsRun(s, steps)
    requires forall i :: 0 <= i < |steps| ==> !steps[i].Enqueue?
    requires forall u :: u in s.userChains ==>
      s.userChains[u] < |After(s, steps).tails| && After(s, steps).tails[s.userChains[u]].Done()
    ensures |After(s, steps).tails| == |s.tails|
    ensures forall t :: 0 <= t < |s.tails| ==> After(s, steps).tails[t].Done()
  {
    var n := After(s, steps);
    RunKeepsFits(s, steps);
    NoNewTails(s, steps);
    forall t | 0 <= t < |s.tails| ensures n.tails[t].Done() {
      DoneStaysDone(s, steps, t);
      if !s.tails[t].Done() {
        MapHoldsNewestTail(s, t);
        var last := s.userChains[s.tails[t].user];
        DoneStaysDone(s, steps, last);
        assert EarlierDone(n, last);
      }
    }
  }

  lemma {:induction false} NoNewTails(s: Chains, steps: seq<Step>)
    requires IsRun(s, steps) && forall i :: 0 <= i < |steps| ==> !steps[i].Enqueue?
    ensures |After(s, steps).tails| == |s.tails|
    decreases |steps|
  {
    if steps != [] {
      assert forall i :: 0 <= i < |steps[1..]| ==> steps[1..][i] == steps[i + 1];
      NoNewTails(Next(s, steps[0]), steps[1..]);
    }
  }

  // ----- every task gets its turn

  lemma {:induction false} RunConcat(s: Chains, p: seq<Step>, q: seq<Step>)
    requires IsRun(s, p) && IsRun(After(s, p), q)
    ensures IsRun(s, p + q) && After(s, p + q) == After(After(s, p), q)
    decreases |p|
  {
    if p == [] {
      assert p + q == q;
    } else {
      RunConcat(Next(s, p[0]), p[1..], q);
      assert (p + q)[1..] == p[1..] + q;
    }
  }

  /** Starts and settlements of one user's tasks alone, no cleanup among them. */
  predicate WorksFor(s: Chains, user: string, steps: seq<Step>) {
    forall i :: 0 <= i < |steps| ==>
      (steps[i].Start? || steps[i].Settle?) && steps[i].t < |s.tails| && s.tails[steps[i].t].user == user
  }

  /** The same tasks, and the user's first n are over. */
  predicate OverUpTo(s: Chains, r: Chains, user: string, n: nat) {
    && |r.tails| == |s.tails| && n <= |s.tails|
    && (forall t :: 0 <= t < |s.tails| ==> r.tails[t].user == s.tails[t].user)
    && (forall t :: 0 <= t < n && s.tails[t].user == user ==> r.tails[t].Done())
  }

  lemma OneStep(s: Chains, step: Step)
    requires Enabled(s, step)
    ensures IsRun(s, [step]) && After(s, [step]) == Next(s, step)
  {
    assert [step][1..] == [];
  }

  lemma TaskRuns(s: Chains, t: nat) returns (steps: seq<Step>)
    requires Fits(s) && t < |s.tails| && EarlierDone(s, t) && !s.tails[t].Done()
    ensures IsRun(s, steps) && WorksFor(s, s.tails[t].user, steps)
    ensures After(s, steps) == WithStatus(s, t, Settled)
  {
    StartsInDeliveryOrder(s, t);
    if s.tails[t].status.Pending? {
      steps := [Start(t), Settle(t)];
      var r := WithStatus(s, t, Running);
      assert WithStatus(r, t, Settled) == WithStatus(s, t, Settled);
      OneStep(s, Start(t));
      OneStep(r, Settle(t));
      RunConcat(s, [Start(t)], [Settle(t)]);
      assert [Start(t)] + [Settle(t)] == steps;
    } else {
      steps := [Settle(t)];
      OneStep(s, Settle(t));
    }
  }

  lemma WorksForConcat(s: Chains, r: Chains, user: string, p: seq<Step>, q: seq<Step>)
    requires WorksFor(s, user, p) && WorksFor(r, user, q) && OverUpTo(s, r, user, 0)
    ensures WorksFor(s, user, p + q)
  {
  }

  lemma OneMoreOver(s: Chains, r: Chains, user: string, n: nat)
    requires OverUpTo(s, r, user, n) && n < |s.tails|
    ensures s.tails[n].user != user || r.tails[n].Done() ==> OverUpTo(s, r, user, n + 1)
    ensures OverUpTo(s, WithStatus(r, n, Settled), user, n + 1)
  {
  }

  lemma NextTaskRuns(s: Chains, first: seq<Step>, user: string, n: nat) returns (steps: seq<Step>)
    requires Fits(s) && IsRun(s, first) && WorksFor(s, user, first) && OverUpTo(s, After(s, first), user, n)
    requires n < |s.tails| && s.tails[n].user == user && !After(s, first).tails[n].Done()
    ensures IsRun(s, steps) && WorksFor(s, user, steps) && OverUpTo(s, After(s, steps), user, n + 1)
  {
    var r := After(s, first);
    RunKeepsFits(s, first);
    var more := TaskRuns(r, n);
    RunConcat(s, first, more);
    WorksForConcat(s, r, user, first, more);
    OneMoreOver(s, r, user, n);
    steps := first + more;
  }

  lemma {:induction false} TasksRunUpTo(s: Chains, user: string, n: nat) returns (steps: seq<Step>)
    requires Fits(s) && n <= |s.tails|
    ensures IsRun(s, steps) && WorksFor(s, user, steps) && OverUpTo(s, After(s, steps), user, n)
  {
    if n == 0 {
      steps := [];
    } else {
      steps := TasksRunUpTo(s, user, n - 1);
      OneMoreOver(s, After(s, steps), user, n - 1);
      if s.tails[n - 1].user == user && !After(s, steps).tails[n - 1].Done() {
        steps := NextTaskRuns(s, steps, user, n - 1);
      }
    }
  }

  /** Whatever has happened, every task can be brought to its end by running tasks of its user alone, and
      without any cleanup. */
  lemma EveryTaskGetsItsTurn(s: Chains, t: nat) returns (steps: seq<Step>)
    requires Fits(s) && t < |s.tails|
    ensures IsRun(s, steps) && WorksFor(s, s.tails[t].user, steps)
    ensures t < |After(s, steps).tails| && After(s, steps).tails[t].Done()
  {
    steps := TasksRunUpTo(s, s.tails[t].user, t + 1);
  }

  // ----- the chains as one list of unsettled tasks

  /** The unsettled tails in delivery order. */
  ghost function Unsettled(tails: seq<Tail>): seq<nat> {
    if tails == [] then [] else
      var t := |tails| - 1;
      Unsettled(tails[..t]) + if tails[t].Done() then [] else [t]
  }

  lemma {:induction false} UnsettledMembers(tails: seq<Tail>)
    ensures forall t: nat :: t in Unsettled(tails) <==> t < |tails| && !tails[t].Done()
    ensures forall i, j :: 0 <= i < j < |Unsettled(tails)| ==> Unsettled(tails)[i] < Unsettled(tails)[j]
    decreases |tails|
  {
    if tails != [] {
      var t := |tails| - 1;
      var before := Unsettled(tails[..t]);
      UnsettledMembers(tails[..t]);
      forall i | 0 <= i < |before| ensures before[i] < t {
        assert before[i] in before;
      }
    }
  }

  /** A message appends its task; settling takes the task out; a task may begin exactly when no
      task of its user stands before it. These are the operations and the guard with which the
      pipeline treats its unacked deliveries. */
  lemma ChainsAreOneQueuePerUser(s: Chains, step: Step)
    requires Fits(s) && Enabled(s, step)
    ensures var before, after := Unsettled(s.tails), Unsettled(Next(s, step).tails);
      match step
      case Enqueue(_) => after == before + [|s.tails|]
      case Start(t) => after == before
      case Settle(t) => t in before && after == Brokers.Remove(before, t)
      case CleanUp(t) => after == before
  {
    var n := Next(s, step);
    match step
    case Enqueue(_) => assert n.tails[..|s.tails|] == s.tails;
    case Start(t) => SameUnsettled(s.tails, n.tails);
    case Settle(t) => SettledLeaves(s.tails, t);
    case CleanUp(t) => SameUnsettled(s.tails, n.tails);
  }

  lemma {:induction false} SameUnsettled(tails: seq<Tail>, other: seq<Tail>)
    requires |tails| == |other| && forall t :: 0 <= t < |tails| ==> tails[t].Done() == other[t].Done()
    ensures Unsettled(tails) == Unsettled(other)
    decreases |tails|
  {
    if tails != [] {
      SameUnsettled(tails[..|tails| - 1], other[..|tails| - 1]);
    }
  }

  lemma RemoveBefore(p: seq<nat>, x: nat, t: nat)
    requires t in p && t != x && forall i, j :: 0 <= i < j < |p| ==> p[i] < p[j]
    ensures Brokers.Remove(p + [x], t) == Brokers.Remove(p, t) + [x]
  {
  }

  lemma LastSettled(tails: seq<Tail>)
    requires tails != [] && !tails[|tails| - 1].Done()
    ensures var t := |tails| - 1;
      t in Unsettled(tails) && Unsettled(tails[t := tails[t].(status := Settled)]) == Brokers.Remove(Unsettled(tails), t)
  {
    var t := |tails| - 1;
    UnsettledMembers(tails[..t]);
    assert tails[t := tails[t].(status := Settled)][..t] == tails[..t];
    Brokers.RemoveLast(Unsettled(tails[..t]), t);
  }

  lemma SettledLastAddsNothing(tails: seq<Tail>)
    requires tails != [] && tails[|tails| - 1].Done()
    ensures Unsettled(tails) == Unsettled(tails[..|tails| - 1])
  {
  }

  lemma UnsettledLastStays(tails: seq<Tail>, t: nat)
    requires t < |tails| - 1 && t in Unsettled(tails[..|tails| - 1]) && !tails[|tails| - 1].Done()
    ensures var last := |tails| - 1;
      && Unsettled(tails) == Unsettled(tails[..last]) + [last]
      && Brokers.Remove(Unsettled(tails[..last]) + [last], t) == Brokers.Remove(Unsettled(tails[..last]), t) + [last]
  {
    UnsettledMembers(tails[..|tails| - 1]);
    RemoveBefore(Unsettled(tails[..|tails| - 1]), |tails| - 1, t);
  }

  lemma {:induction false} SettledLeaves(tails: seq<Tail>, t: nat)
    requires t < |tails| && !tails[t].Done()
    ensures t in Unsettled(tails)
    ensures Unsettled(tails[t := tails[t].(status := Settled)]) == Brokers.Remove(Unsettled(tails), t)
    decreases |tails|
  {
    var last := |tails| - 1;
    if t == last {
      LastSettled(tails);
    } else {
      var other := tails[t := tails[t].(status := Settled)];
      SettledLeaves(tails[..last], t);
      assert other[..last] == tails[..last][t := tails[t].(status := Settled)];
      if tails[last].Done() {
        SettledLastAddsNothing(tails);
        SettledLastAddsNothing(other);
      } else {
        UnsettledLastStays(tails, t);
      }
    }
  }

  lemma StartGuardIsFirstOfUser(s: Chains, t: nat)
    requires Fits(s) && t < |s.tails| && s.tails[t].status.Pending?
    ensures t in Unsettled(s.tails)
    ensures var q := Unsettled(s.tails);
      CanStart(s, t) <==> forall i :: 0 <= i < Brokers.IndexOf(q, t) ==> q[i] < |s.tails| && s.tails[q[i]].user != s.tails[t].user
  {
    var q := Unsettled(s.tails);
    UnsettledMembers(s.tails);
    StartsInDeliveryOrder(s, t);
    var k := Brokers.IndexOf(q, t);
    if CanStart(s, t) {
      forall i | 0 <= i < k ensures q[i] < |s.tails| && s.tails[q[i]].user != s.tails[t].user {
        assert q[i] in q && q[i] < q[k];
      }
    } else {
      var r :| 0 <= r < t && s.tails[r].user == s.tails[t].user && !s.tails[r].Done();
      assert r in q;
      var j := Brokers.IndexOf(q, r);
      assert j < k;
    }
  }

  // ----- the same for every run

  /** In every run, at most one task of a user runs, it is the user's oldest unsettled one, and
      the map holds the newest tail of every user with unsettled tasks. */
  lemma EveryRunIsOnePerUser(steps: seq<Step>, t: nat)
    requires IsRun(Chains([], map[]), steps) && t < |After(Chains([], map[]), steps).tails|
    ensures var s := After(Chains([], map[]), steps);
      && (s.tails[t].status.Running? ==> EarlierDone(s, t))
      && (s.tails[t].status.Running? ==>
            forall r :: 0 <= r < |s.tails| && r != t && s.tails[r].user == s.tails[t].user ==> !s.tails[r].status.Running?)
      && (!s.tails[t].Done() ==> s.tails[t].user in s.userChains)
      && (!s.tails[t].Done() ==> t <= s.userChains[s.tails[t].user] < |s.tails| && Newest(s, s.userChains[s.tails[t].user]))
  {
    var s := After(Chains([], map[]), steps);
    RunKeepsFits(Chains([], map[]), steps);
    if !s.tails[t].Done() {
      MapHoldsNewestTail(s, t);
    }
    if s.tails[t].status.Running? {
      forall r | 0 <= r < |s.tails| && r != t && s.tails[r].user == s.tails[t].user ensures !s.tails[r].status.Running? {
        if s.tails[r].status.Running? {
          OneTaskPerUser(s, t, r);
        }
      }
    }
  }
}
