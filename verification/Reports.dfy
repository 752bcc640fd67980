/** What listeners are told: every event of a run, stated from the actions alone. */
module Reports {
  import opened Common
  import opened Requests
  import opened Machine
  import opened Listening

  /** What each way for a simulation to end does: the one event it adds, or the
      one queue it puts the request back into. */
  lemma CompletionMeaning(c: Config, s: State, i: nat, outcome: BundleSimulationOutcome)
    requires i < |s.flying|
    ensures var sim, t := s.flying[i], Step(c, s, Complete(i, outcome));
            && t.flying == Without(s.flying, i)
            && t.block == s.block && t.mailbox == s.mailbox
            && t.ledger == s.ledger.(events := t.ledger.events)
            && match outcome
               case Success(response) =>
                 && t.high == s.high && t.normal == s.normal
                 && t.ledger.events
                    == s.ledger.events
                       + [Simulated(Ok(SimulatedBundle(sim.request, sim.overrides, response, sim.retries)))]
               case Fatal(error) =>
                 && t.high == s.high && t.normal == s.normal
                 && t.ledger.events == s.ledger.events + [Simulated(Err(SimulatedBundleError(error, sim)))]
               case Reschedule(_) =>
                 if sim.retries >= c.maxRetries then
                   && t.high == s.high && t.normal == s.normal
                   && t.ledger.events == s.ledger.events + [ExceededMaxRetries(sim.request, sim.overrides)]
                 else
                   var again := sim.(retries := sim.retries + 1);
                   && t.ledger.events == s.ledger.events
                   && t.high == s.high + (if sim.priority == High then [again] else [])
                   && t.normal == s.normal + (if sim.priority == Normal then [again] else [])
  {
  }

  /** The events an action adds. */
  function Told(c: Config, s: State, a: Action): seq<SimulationEvent>
    requires Enabled(c, s, a)
  {
    match a
    case Send(_) => []
    case HangUp(_) => []
    case Launch(_, _) => []
    case Receive =>
      var m := s.mailbox[0];
      if m.UpdateBlockNumber? && m.num != s.block then [BlockNumberUpdated(s.block, s.block)] else []
    case Drop(pos, _) =>
      var r := s.Queued()[pos];
      [OutdatedRequest(r.request, r.overrides, NextBlock(s.block))]
    case Complete(i, outcome) =>
      var sim := s.flying[i];
      match outcome
      case Success(response) =>
        [Simulated(Ok(SimulatedBundle(sim.request, sim.overrides, response, sim.retries)))]
      case Fatal(error) =>
        [Simulated(Err(SimulatedBundleError(error, sim)))]
      case Reschedule(_) =>
        if sim.retries < c.maxRetries then [] else [ExceededMaxRetries(sim.request, sim.overrides)]
  }

  function ToldBy(c: Config, block: U64, h: seq<Action>): seq<SimulationEvent>
    requires Legal(c, block, h)
  {
    if h == [] then []
    else
      var g := h[..|h| - 1];
      ToldBy(c, block, g) + Told(c, Run(c, block, g), h[|h| - 1])
  }

  lemma StepTells(c: Config, s: State, a: Action)
    requires Enabled(c, s, a)
    ensures Step(c, s, a).ledger.events == s.ledger.events + Told(c, s, a)
  {
    if a.Complete? {
      CompletionMeaning(c, s, a.i, a.outcome);
    }
  }

  /** The events of a run are what its actions tell, in order. */
  lemma {:induction false} EventsAreTold(c: Config, block: U64, h: seq<Action>)
    requires Legal(c, block, h)
    ensures Run(c, block, h).ledger.events == ToldBy(c, block, h)
    decreases |h|
  {
    if h != [] {
      var n := |h| - 1;
      EventsAreTold(c, block, h[..n]);
      StepTells(c, Run(c, block, h[..n]), h[n]);
    }
  }

  /** The results of the simulations that succeeded or failed for good, in the order in which they ended. */
  function Outcomes(c: Config, block: U64, h: seq<Action>): seq<Result<SimulatedBundle, SimulatedBundleError>>
    requires Legal(c, block, h)
  {
    if h == [] then []
    else
      var g := h[..|h| - 1];
      Outcomes(c, block, g) +
      match h[|h| - 1]
      case Complete(i, Success(response)) =>
        var sim := Run(c, block, g).flying[i];
        [Ok(SimulatedBundle(sim.request, sim.overrides, response, sim.retries))]
      case Complete(i, Fatal(error)) =>
        [Err(SimulatedBundleError(error, Run(c, block, g).flying[i]))]
      case _ => []
  }

  lemma StepResults(c: Config, s: State, a: Action)
    requires Enabled(c, s, a)
    ensures Results(Told(c, s, a))
         == match a
            case Complete(i, Success(response)) =>
              [Ok(SimulatedBundle(s.flying[i].request, s.flying[i].overrides, response, s.flying[i].retries))]
            case Complete(i, Fatal(error)) => [Err(SimulatedBundleError(error, s.flying[i]))]
            case _ => []
  {
  }

  /** The results among the events of a run are the outcomes of its simulations,
      in order: a success is reported as `Ok` with the simulator's response, a
      fatal end as `Err` with its error. */
  lemma {:induction false} ResultsAreOutcomes(c: Config, block: U64, h: seq<Action>)
    requires Legal(c, block, h)
    ensures Results(Run(c, block, h).ledger.events) == Outcomes(c, block, h)
    decreases |h|
  {
    if h != [] {
      var n := |h| - 1;
      var s := Run(c, block, h[..n]);
      ResultsAreOutcomes(c, block, h[..n]);
      StepTells(c, s, h[n]);
      ResultsConcat(s.ledger.events, Told(c, s, h[n]));
      StepResults(c, s, h[n]);
    }
  }

  /** A listener's results are the outcomes of the simulations that ended after it registered. */
  lemma ListenerGetsOutcomes(c: Config, block: U64, h: seq<Action>, l: Listener)
    requires Legal(c, block, h) && l in Run(c, block, h).listeners
    ensures var all, got := Outcomes(c, block, h), Results(l.received);
            |got| <= |all| && got == all[|all| - |got|..]
  {
    var events := Run(c, block, h).ledger.events;
    ListenersAgree(c, block, h);
    var since := Since(l, events);
    assert events == events[..since] + l.received;
    ResultsConcat(events[..since], l.received);
    ResultsAreOutcomes(c, block, h);
  }
}
