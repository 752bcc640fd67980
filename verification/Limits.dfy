/** Queues within their configured limits, and how a selection gets them back there. */
module Limits {
  import opened Common
  import opened Requests
  import opened Selection
  import opened Machine
  import opened Bounds

  function Queue(s: State, p: SimulationPriority): seq<SimulationRequest> {
    if p == High then s.high else s.normal
  }

  function Limit(c: Config, p: SimulationPriority): nat {
    if p == High then c.maxHighPrioQueueLen else c.maxNormalPrioQueueLen
  }

  /** With a limit of zero, nothing of that priority ever gets in. */
  predicate NoneOf(s: State, p: SimulationPriority) {
    Queue(s, p) == [] && forall r :: r in s.flying ==> r.priority != p
  }

  lemma SettleKeepsNoneOf(
    c: Config, s: State, outcome: BundleSimulationOutcome, sim: SimulationRequest, p: SimulationPriority)
    requires NoneOf(s, p) && sim.priority != p
    ensures NoneOf(Settle(c, s, outcome, sim), p)
  {
  }

  lemma StepKeepsNoneOf(c: Config, s: State, a: Action, p: SimulationPriority)
    requires Enabled(c, s, a) && Tidy(c, s) && NoneOf(s, p) && Limit(c, p) == 0
    ensures NoneOf(Step(c, s, a), p)
  {
    hide Settle, Judge;
    match a
    case Complete(i, outcome) =>
      assert s.flying[i] in s.flying;
      assert forall r :: r in Without(s.flying, i) ==> r in s.flying;
      SettleKeepsNoneOf(c, s.(flying := Without(s.flying, i)), outcome, s.flying[i], p);
    case Launch(pos, _) =>
      assert s.Queued()[pos] in s.high || s.Queued()[pos] in s.normal;
    case _ =>
  }

  lemma {:induction false} LimitZeroMeansNone(c: Config, block: U64, h: seq<Action>, p: SimulationPriority)
    requires Legal(c, block, h) && Limit(c, p) == 0
    ensures NoneOf(Run(c, block, h), p)
    decreases |h|
  {
    if h != [] {
      var n := |h| - 1;
      LimitZeroMeansNone(c, block, h[..n], p);
      AlwaysTidy(c, block, h[..n]);
      StepKeepsNoneOf(c, Run(c, block, h[..n]), h[n], p);
    }
  }

  lemma StepStaysWithinLimit(c: Config, s: State, a: Action, p: SimulationPriority)
    requires Enabled(c, s, a) && c.maxRetries == 0 && |Queue(s, p)| <= Limit(c, p)
    ensures |Queue(Step(c, s, a), p)| <= Limit(c, p)
  {
  }

  lemma {:induction false} NoRetriesMeansWithinLimit(c: Config, block: U64, h: seq<Action>, p: SimulationPriority)
    requires Legal(c, block, h) && c.maxRetries == 0
    ensures |Queue(Run(c, block, h), p)| <= Limit(c, p)
    decreases |h|
  {
    if h != [] {
      var n := |h| - 1;
      NoRetriesMeansWithinLimit(c, block, h[..n], p);
      StepStaysWithinLimit(c, Run(c, block, h[..n]), h[n], p);
    }
  }

  /** Can be selected at any time of day. */
  function RipeAt(next: U64): SimulationRequest -> nat {
    (r: SimulationRequest) => if r.IsMinBlock(next) && r.backedOffUntil == None then 1 else 0
  }

  /** Each ripe entry of a queue frees a slot, as far as the capacity goes. */
  lemma {:induction false} SweepFreesSlots(q: seq<SimulationRequest>, capacity: nat, next: U64, now: Instant)
    ensures var s := Sweep(q, capacity, next, now);
            |s.rest| <= |q| && (|s.rest| + capacity <= |q| || |s.rest| + Sum(q, RipeAt(next)) <= |q|)
    decreases |q|
  {
    if capacity != 0 && q != [] {
      var eligible := Judge(q[0], next, now) == Eligible;
      SweepFreesSlots(q[1..], if eligible then capacity - 1 else capacity, next, now);
    }
  }

  /** So the high queue gets back under any bound it exceeds by no more than its ripe entries. */
  lemma SelectFreesSlots(
    high: seq<SimulationRequest>, normal: seq<SimulationRequest>, capacity: nat, next: U64, now: Instant,
    bound: nat, returned: nat)
    requires |high| <= bound + returned && returned <= capacity && returned <= Sum(high, RipeAt(next))
    ensures |Select(high, normal, capacity, next, now).high| <= bound
  {
    SweepFreesSlots(high, capacity, next, now);
  }
}
