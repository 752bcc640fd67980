/** Small facts about single actions that the service's loops rely on. */
module Effects {
  import opened Common
  import opened Requests
  import opened Selection
  import opened Machine
  import opened Bounds
  import opened Windows
  import opened Limits

  /** What is added to a queue by a finished simulation: nothing, or the request with one more retry. */
  lemma CompleteEffect(c: Config, s: State, i: nat, outcome: BundleSimulationOutcome)
    requires i < |s.flying|
    ensures var t := Step(c, s, Complete(i, outcome));
            && t.block == s.block && t.mailbox == s.mailbox && t.ledger.handled == s.ledger.handled
            && t.flying == Without(s.flying, i)
            && (t.high == s.high
                || t.high == s.high + [s.flying[i].(retries := s.flying[i].retries + 1)])
  {
  }

  /** On a climbing run, a rescheduled high-priority request can be selected at once. */
  lemma RescheduledIsRipe(c: Config, block: U64, h: seq<Action>, i: nat, outcome: BundleSimulationOutcome)
    requires Legal(c, block, h) && i < |Run(c, block, h).flying|
    requires Climbing(block, Run(c, block, h).ledger.handled)
    ensures var s := Run(c, block, h);
            var t := Step(c, s, Complete(i, outcome));
            Sum(t.high, RipeAt(NextBlock(s.block))) == Sum(s.high, RipeAt(NextBlock(s.block))) + |t.high| - |s.high|
  {
    var s := Run(c, block, h);
    CompleteEffect(c, s, i, outcome);
    RetriedNeverWaits(c, block, h);
    AlwaysTidy(c, block, h);
    assert s.flying[i] in s.flying;
    SumAppend(s.high, s.flying[i].(retries := s.flying[i].retries + 1), RipeAt(NextBlock(s.block)));
  }

  /** The events that dropping requests emits. */
  function Notices(dropped: seq<SimulationRequest>, next: U64): seq<SimulationEvent> {
    if dropped == [] then []
    else [OutdatedRequest(dropped[0].request, dropped[0].overrides, next)] + Notices(dropped[1..], next)
  }

  lemma NoNotices(events: seq<SimulationEvent>, next: U64)
    ensures events + Notices([], next) == events
  {
  }

  lemma {:induction false} NoticesConcat(p: seq<SimulationRequest>, q: seq<SimulationRequest>, next: U64)
    ensures Notices(p + q, next) == Notices(p, next) + Notices(q, next)
  {
    if p == [] {
      assert p + q == q;
    } else {
      assert (p + q)[1..] == p[1..] + q;
      NoticesConcat(p[1..], q, next);
    }
  }

  /** A selection that takes nothing although it could leaves only waiting requests. */
  lemma {:induction false} SweepNothing(q: seq<SimulationRequest>, capacity: nat, next: U64, now: Instant)
    requires capacity > 0 && Sweep(q, capacity, next, now).taken == []
    ensures AllWait(Sweep(q, capacity, next, now).rest, next, now)
    decreases |q|
  {
    if q != [] {
      SweepNothing(q[1..], capacity, next, now);
    }
  }

  lemma SelectNothing(
    high: seq<SimulationRequest>, normal: seq<SimulationRequest>, capacity: nat, next: U64, now: Instant)
    requires capacity > 0 && Select(high, normal, capacity, next, now).taken == []
    ensures var s := Select(high, normal, capacity, next, now); AllWait(s.high + s.normal, next, now)
  {
    SweepNothing(high, capacity, next, now);
    SweepNothing(normal, capacity, next, now);
  }
}
