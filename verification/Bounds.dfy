/** What holds in every reachable state whatever the environment does: well-formed
    entries, the concurrency limit, and how far the unchecked push of a
    rescheduled request can take a queue over its limit. */
module Bounds {
  import opened Common
  import opened Requests
  import opened Machine

  predicate Sound(c: Config, r: SimulationRequest) {
    r.retries <= c.maxRetries && r.backedOffUntil == None
  }

  /** Every entry is within its retry limit and has no back-off, and each queue
      holds only its own priority. */
  predicate Tidy(c: Config, s: State) {
    && (forall m :: m in s.mailbox ==> FromHandle(m))
    && (forall r :: r in s.high ==> Sound(c, r) && r.priority == High)
    && (forall r :: r in s.normal ==> Sound(c, r) && r.priority == Normal)
    && (forall r :: r in s.flying ==> Sound(c, r))
  }

  lemma SettleKeepsTidy(c: Config, s: State, outcome: BundleSimulationOutcome, sim: SimulationRequest)
    requires Tidy(c, s) && Sound(c, sim)
    ensures Tidy(c, Settle(c, s, outcome, sim))
  {
  }

  lemma StepKeepsTidy(c: Config, s: State, a: Action)
    requires Enabled(c, s, a) && Tidy(c, s)
    ensures Tidy(c, Step(c, s, a))
  {
    match a
    case Receive =>
      assert s.mailbox[0] in s.mailbox;
    case Complete(i, outcome) =>
      assert s.flying[i] in s.flying;
      assert forall r :: r in Without(s.flying, i) ==> r in s.flying;
      SettleKeepsTidy(c, s.(flying := Without(s.flying, i)), outcome, s.flying[i]);
    case Drop(pos, now) =>
    case Launch(pos, now) =>
      assert s.Queued()[pos] in s.Queued();
    case _ =>
  }

  lemma {:induction false} AlwaysTidy(c: Config, block: U64, h: seq<Action>)
    requires Legal(c, block, h)
    ensures Tidy(c, Run(c, block, h))
    decreases |h|
  {
    if h != [] {
      var n := |h| - 1;
      AlwaysTidy(c, block, h[..n]);
      StepKeepsTidy(c, Run(c, block, h[..n]), h[n]);
    }
  }

  function AtPriority(p: SimulationPriority): SimulationRequest -> nat {
    (r: SimulationRequest) => if r.priority == p then 1 else 0
  }

  /** The in-flight requests of a priority. */
  function Aloft(s: State, p: SimulationPriority): nat { Sum(s.flying, AtPriority(p)) }

  lemma {:induction false} SumAtMostLength(q: seq<SimulationRequest>, p: SimulationPriority)
    ensures Sum(q, AtPriority(p)) <= |q|
  {
    if q != [] {
      SumAtMostLength(q[1..], p);
    }
  }

  /** In-flight requests are within the concurrency limit, and each queue with
      its in-flight requests is within its own limit plus the concurrency limit. */
  predicate Fits(c: Config, s: State) {
    && |s.flying| <= c.maxConcurrentSimulations
    && |s.high| + Aloft(s, High) <= c.maxHighPrioQueueLen + c.maxConcurrentSimulations
    && |s.normal| + Aloft(s, Normal) <= c.maxNormalPrioQueueLen + c.maxConcurrentSimulations
  }

  lemma DeliverKeepsFits(c: Config, s: State, m: Message)
    requires Fits(c, s)
    ensures Fits(c, Deliver(c, s, m))
  {
    SumAtMostLength(s.flying, High);
    SumAtMostLength(s.flying, Normal);
  }

  lemma CompleteKeepsFits(c: Config, s: State, i: nat, outcome: BundleSimulationOutcome)
    requires i < |s.flying| && Fits(c, s)
    ensures Fits(c, Step(c, s, Complete(i, outcome)))
  {
    SumWithout(s.flying, i, AtPriority(High));
    SumWithout(s.flying, i, AtPriority(Normal));
  }

  lemma LaunchKeepsFits(c: Config, s: State, pos: nat, now: Instant)
    requires Enabled(c, s, Launch(pos, now)) && Fits(c, s) && Tidy(c, s)
    ensures Fits(c, Step(c, s, Launch(pos, now)))
  {
    var r := s.Queued()[pos];
    assert r in if pos < |s.high| then s.high else s.normal;
    SumAppend(s.flying, r, AtPriority(High));
    SumAppend(s.flying, r, AtPriority(Normal));
  }

  /** The bounds hold in every reachable state, for every order of messages,
      completions and block updates. */
  lemma {:induction false} AlwaysFits(c: Config, block: U64, h: seq<Action>)
    requires Legal(c, block, h)
    ensures Fits(c, Run(c, block, h))
    decreases |h|
  {
    if h != [] {
      var n := |h| - 1;
      AlwaysFits(c, block, h[..n]);
      var s := Run(c, block, h[..n]);
      match h[n]
      case Receive => DeliverKeepsFits(c, Fetch(s), s.mailbox[0]);
      case Complete(i, outcome) => CompleteKeepsFits(c, s, i, outcome);
      case Launch(pos, now) =>
        AlwaysTidy(c, block, h[..n]);
        LaunchKeepsFits(c, s, pos, now);
      case _ =>
    }
  }
}
