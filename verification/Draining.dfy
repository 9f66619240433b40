/** Whatever has happened, the worker left to itself comes to an end, and there is only one end: an
    empty queue, no delivery out, every message acknowledged or dead-lettered. */
module Draining {
  import opened Tables
  import opened Brokers
  import opened Pipeline
  import opened Conservation
  import opened Progress

  /** A step of the worker's own: a delivery, a step of a task, or a nack of a reading that fails the
      accuracy gate. No await rejects and nobody publishes. */
  ghost predicate WorkStep(s: State, step: Step) {
    step.Deliver? || OthersStep(s.broker, {}, step)
  }

  ghost predicate Idle(c: Config, s: State) {
    forall step :: Enabled(c, s, step) ==> !WorkStep(s, step)
  }

  ghost predicate Drained(s: State) { s.broker.queue == [] && s.broker.unacked == [] }

  lemma SomethingMoves(c: Config, s: State) returns (step: Step)
    requires Sound(c, s) && !Drained(s)
    ensures Enabled(c, s, step) && WorkStep(s, step)
  {
    if s.broker.queue != [] {
      step := Deliver(0);
    } else {
      step := SomeTaskMoves(c, s, {}, s.broker.unacked[0]);
    }
  }

  /** The worker can get stuck nowhere: nothing of its own is possible exactly when nothing is open. */
  lemma IdleExactlyWhenDrained(c: Config, s: State)
    requires Sound(c, s)
    ensures Idle(c, s) <==> Drained(s)
  {
    if Drained(s) {
      forall step | WorkStep(s, step) ensures !Enabled(c, s, step) {}
    } else {
      var step := SomethingMoves(c, s);
    }
  }

  // ----- runs of the worker alone

  ghost predicate WorkRun(c: Config, s: State, steps: seq<Step>)
    decreases |steps|
  {
    steps == [] || (Enabled(c, s, steps[0]) && WorkStep(s, steps[0]) && WorkRun(c, Next(c, s, steps[0]), steps[1..]))
  }

  lemma {:induction false} WorkRunIsRun(c: Config, s: State, steps: seq<Step>)
    requires WorkRun(c, s, steps)
    ensures IsRun(c, s, steps)
    decreases |steps|
  {
    if steps != [] {
      WorkRunIsRun(c, Next(c, s, steps[0]), steps[1..]);
    }
  }

  lemma WorkStepFacts(c: Config, s: State, step: Step)
    requires Sound(c, s) && Enabled(c, s, step) && WorkStep(s, step)
    ensures Sound(c, Next(c, s, step)) && Weight(c, Next(c, s, step)) < Weight(c, s)
  {
    StepIsPaidFor(c, s, step);
  }

  lemma {:induction false} WorkRunIsShort(c: Config, s: State, steps: seq<Step>)
    requires Sound(c, s) && WorkRun(c, s, steps)
    ensures IsRun(c, s, steps) && Sound(c, After(c, s, steps))
    ensures |steps| + Weight(c, After(c, s, steps)) <= Weight(c, s)
    decreases |steps|
  {
    WorkRunIsRun(c, s, steps);
    if steps != [] {
      WorkStepFacts(c, s, steps[0]);
      WorkRunIsShort(c, Next(c, s, steps[0]), steps[1..]);
    }
  }

  ghost predicate AllSettled(s: State) {
    Drained(s) && forall n: nat :: n < |s.broker.published| ==> n in s.broker.acked || n in s.broker.dead
  }

  lemma DrainedIsSettled(c: Config, s: State)
    requires Sound(c, s) && Drained(s)
    ensures AllSettled(s)
  {
    forall n: nat | n < |s.broker.published| ensures n in s.broker.acked || n in s.broker.dead {
      OneHome(s.broker, n);
    }
  }

  /** After any run, with whatever crashes and nacks: let the worker take its own steps in any order.
      It takes at most `Weight` of them, and where it cannot take another, every published message
      has been acknowledged or dead-lettered. */
  lemma MaximalRunsSettleAll(c: Config, s: State, steps: seq<Step>, more: seq<Step>)
    requires Init(s) && IsRun(c, s, steps) && WorkRun(c, After(c, s, steps), more)
    ensures var t := After(c, s, steps);
      && Shaped(t) && |more| <= Weight(c, t) && IsRun(c, t, more)
      && (Idle(c, After(c, t, more)) <==> AllSettled(After(c, t, more)))
  {
    var t := After(c, s, steps);
    WorkIsBounded(c, s, steps);
    WorkRunIsShort(c, t, more);
    IdleExactlyWhenDrained(c, After(c, t, more));
    if Drained(After(c, t, more)) {
      DrainedIsSettled(c, After(c, t, more));
    }
  }

  lemma {:induction false} Drain(c: Config, s: State) returns (steps: seq<Step>)
    requires Sound(c, s)
    ensures WorkRun(c, s, steps) && IsRun(c, s, steps) && Sound(c, After(c, s, steps)) && Drained(After(c, s, steps))
    decreases Weight(c, s)
  {
    if Drained(s) {
      steps := [];
    } else {
      var step := SomethingMoves(c, s);
      WorkStepFacts(c, s, step);
      var rest := Drain(c, Next(c, s, step));
      steps := [step] + rest;
      assert steps[1..] == rest;
    }
  }

  /** From wherever a run has got to, the worker alone can settle everything published. */
  lemma EveryRunCanSettleAll(c: Config, s: State, steps: seq<Step>) returns (more: seq<Step>)
    requires Init(s) && IsRun(c, s, steps)
    ensures WorkRun(c, After(c, s, steps), more) && IsRun(c, After(c, s, steps), more)
    ensures AllSettled(After(c, After(c, s, steps), more))
  {
    WorkIsBounded(c, s, steps);
    more := Drain(c, After(c, s, steps));
    DrainedIsSettled(c, After(c, After(c, s, steps), more));
  }
}
