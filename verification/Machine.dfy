/** The scheduler as a transition system: one action per message handled,
    simulation finished, request dropped or request started, in any order the
    environment chooses. The service class refines it action by action. */
module Machine {
  import opened Common
  import opened Requests
  import opened Selection

  /** History of a run that the scheduler itself does not store. */
  datatype Ledger = Ledger(
    handled: seq<Message>,             // messages processed, in order
    accepted: seq<SimulationRequest>,  // requests answered `Ok`
    rejected: seq<SimulationRequest>,  // requests answered `QueueFull`
    cleared: seq<SimulationRequest>,   // requests removed by `ClearQueue`
    starts: multiset<Job>,             // how often each job was started
    events: seq<SimulationEvent>)      // every event emitted, in order

  datatype State = State(
    mailbox: seq<Message>,
    high: seq<SimulationRequest>,
    normal: seq<SimulationRequest>,
    flying: seq<SimulationRequest>,
    block: U64,
    listeners: seq<Listener>,
    ledger: Ledger)
  {
    function Queued(): seq<SimulationRequest> { high + normal }
  }

  datatype Action =
    | Send(message: Message)                                   // a handle sends
    | HangUp(k: nat)                                           // a listener drops its receiver
    | Receive                                                  // the service handles one message
    | Complete(i: nat, outcome: BundleSimulationOutcome)       // a simulation finishes
    | Drop(pos: nat, now: Instant)                             // an outdated request is dropped
    | Launch(pos: nat, now: Instant)                           // an eligible request is started

  function Initial(block: U64): State {
    State([], [], [], [], block, [], Ledger([], [], [], [], multiset{}, []))
  }

  predicate Enabled(c: Config, s: State, a: Action) {
    match a
    case Send(m) => FromHandle(m)
    case HangUp(k) => k < |s.listeners|
    case Receive => s.mailbox != []
    case Complete(i, _) => i < |s.flying|
    case Drop(pos, now) => Selectable(c, s, pos, now) && Judge(s.Queued()[pos], NextBlock(s.block), now) == Outdated
    case Launch(pos, now) => Selectable(c, s, pos, now) && Judge(s.Queued()[pos], NextBlock(s.block), now) == Eligible
  }

  /** There is a free slot, and `pos` is the first queued request that does not wait. */
  predicate Selectable(c: Config, s: State, pos: nat, now: Instant) {
    |s.flying| < c.maxConcurrentSimulations && IsFirstActive(s.Queued(), pos, NextBlock(s.block), now)
  }

  /** The listeners after an event: closed ones are gone, the others have received it. */
  function Notified(listeners: seq<Listener>, event: SimulationEvent): seq<Listener> {
    if listeners == [] then []
    else (if listeners[0].open then [listeners[0].(received := listeners[0].received + [event])] else [])
         + Notified(listeners[1..], event)
  }

  function Emit(s: State, event: SimulationEvent): State {
    s.(listeners := Notified(s.listeners, event), ledger := s.ledger.(events := s.ledger.events + [event]))
  }

  function Deliver(c: Config, s: State, m: Message): State {
    match m
    case UpdateBlockNumber(num) =>
      if num == s.block then s else Emit(s.(block := num), BlockNumberUpdated(s.block, s.block))
    case ClearQueue =>
      s.(high := [], normal := [], ledger := s.ledger.(cleared := s.ledger.cleared + s.Queued()))
    case AddEventListener(id) =>
      s.(listeners := s.listeners + [Listener(id, true, [])])
    case AddSimulation(r) =>
      if r.priority.High? then
        if |s.high| < c.maxHighPrioQueueLen
        then s.(high := s.high + [r], ledger := s.ledger.(accepted := s.ledger.accepted + [r]))
        else s.(ledger := s.ledger.(rejected := s.ledger.rejected + [r]))
      else
        if |s.normal| < c.maxNormalPrioQueueLen
        then s.(normal := s.normal + [r], ledger := s.ledger.(accepted := s.ledger.accepted + [r]))
        else s.(ledger := s.ledger.(rejected := s.ledger.rejected + [r]))
  }

  function Settle(c: Config, s: State, outcome: BundleSimulationOutcome, sim: SimulationRequest): State {
    match outcome
    case Success(response) =>
      Emit(s, Simulated(Ok(SimulatedBundle(sim.request, sim.overrides, response, sim.retries))))
    case Fatal(error) =>
      Emit(s, Simulated(Err(SimulatedBundleError(error, sim))))
    case Reschedule(_) =>
      var again := sim.(retries := sim.retries + 1);
      if again.retries > c.maxRetries then Emit(s, ExceededMaxRetries(sim.request, sim.overrides))
      else if sim.priority.High? then s.(high := s.high + [again])
      else s.(normal := s.normal + [again])
  }

  /** The state without the queued request at `pos`. */
  function Unqueue(s: State, pos: nat): State
    requires pos < |s.Queued()|
  {
    s.(high := HighWithout(s.high, pos), normal := NormalWithout(s.high, s.normal, pos))
  }

  /** `mailbox[0]` taken out and recorded. */
  function Fetch(s: State): State
    requires s.mailbox != []
  {
    s.(mailbox := s.mailbox[1..], ledger := s.ledger.(handled := s.ledger.handled + [s.mailbox[0]]))
  }

  function Step(c: Config, s: State, a: Action): State
    requires Enabled(c, s, a)
  {
    match a
    case Send(m) => s.(mailbox := s.mailbox + [m])
    case HangUp(k) => s.(listeners := s.listeners[k := s.listeners[k].(open := false)])
    case Receive => Deliver(c, Fetch(s), s.mailbox[0])
    case Complete(i, outcome) => Settle(c, s.(flying := Without(s.flying, i)), outcome, s.flying[i])
    case Drop(pos, now) =>
      var r := s.Queued()[pos];
      Emit(Unqueue(s, pos), OutdatedRequest(r.request, r.overrides, NextBlock(s.block)))
    case Launch(pos, now) =>
      var r := s.Queued()[pos];
      Unqueue(s, pos).(flying := s.flying + [r],
                       ledger := s.ledger.(starts := s.ledger.starts + multiset{r.Job()}))
  }

  /** A history is legal when every action was enabled where it happened. */
  predicate Legal(c: Config, block: U64, h: seq<Action>)
    decreases |h|, 0
  {
    h == [] || (Legal(c, block, h[..|h| - 1]) && Enabled(c, Run(c, block, h[..|h| - 1]), h[|h| - 1]))
  }

  /** The state a legal history leads to. */
  function Run(c: Config, block: U64, h: seq<Action>): State
    requires Legal(c, block, h)
    decreases |h|, 1
  {
    if h == [] then Initial(block)
    else Step(c, Run(c, block, h[..|h| - 1]), h[|h| - 1])
  }

  lemma RunAppend(c: Config, block: U64, h: seq<Action>, a: Action)
    requires Legal(c, block, h) && Enabled(c, Run(c, block, h), a)
    ensures Legal(c, block, h + [a])
    ensures Run(c, block, h + [a]) == Step(c, Run(c, block, h), a)
  {
    assert (h + [a])[..|h|] == h;
  }

  lemma {:induction false} LegalPrefix(c: Config, block: U64, h: seq<Action>, j: nat)
    requires Legal(c, block, h) && j <= |h|
    ensures Legal(c, block, h[..j])
    ensures j < |h| ==> Enabled(c, Run(c, block, h[..j]), h[j])
    decreases |h|
  {
    if j == |h| {
      assert h[..j] == h;
    } else if j < |h| - 1 {
      var g := h[..|h| - 1];
      LegalPrefix(c, block, g, j);
      assert g[..j] == h[..j];
    }
  }
}
