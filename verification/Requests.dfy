/** The values the scheduler works on: block windows, simulation requests,
    handle messages, simulator outcomes and listener events. */
module Requests {
  import opened Common

  type U64 = n: nat | n < 0x1_0000_0000_0000_0000

  const U64_MAX: U64 := 0xFFFF_FFFF_FFFF_FFFF

  /** A point in time; only compared with other instants. */
  type Instant = nat

  /** `current_block + 1` on `u64`, with the wrap-around of a release build. */
  function NextBlock(block: U64): U64 {
    if block == U64_MAX then 0 else block + 1
  }

  /** The block window of a bundle. */
  datatype Inclusion = Inclusion(block: U64, maxBlock: Option<U64>) {

    function BlockNumber(): U64 { block }

    function MaxBlockNumber(): Option<U64> { maxBlock }
  }

  /** A bundle. `id` is the model's name for one submission, which no code
      reads; `body` stands for the fields the scheduler never looks at. */
  datatype SendBundleRequest = SendBundleRequest(id: nat, inclusion: Inclusion, body: string)

  datatype SimBundleOverrides = SimBundleOverrides(fields: string)

  datatype SimulationPriority = Normal | High

  datatype SimulationRequest = SimulationRequest(
    retries: nat,
    request: SendBundleRequest,
    overrides: SimBundleOverrides,
    priority: SimulationPriority,
    backedOffUntil: Option<Instant>)
  {
    predicate IsMinBlock(block: U64) {
      block > request.inclusion.BlockNumber()
    }

    predicate IsReadyAt(now: Instant) {
      backedOffUntil.Some? ==> now > backedOffUntil.value
    }

    predicate ExceedsTargetBlock(block: U64) {
      var target := request.inclusion.MaxBlockNumber();
      target.Some? && block > target.value
    }

    /** What travels unchanged from submission to the final event. */
    function Job(): Job { (request, overrides) }
  }

  type Job = (SendBundleRequest, SimBundleOverrides)

  datatype AddSimulationErr = QueueFull | ServiceUnavailable

  datatype Message =
    | ClearQueue
    | UpdateBlockNumber(num: U64)
    | AddSimulation(request: SimulationRequest)
    | AddEventListener(listener: nat)

  /** The request every handle method builds. */
  function NewRequest(request: SendBundleRequest, overrides: SimBundleOverrides, priority: SimulationPriority)
    : SimulationRequest
  {
    SimulationRequest(0, request, overrides, priority, None)
  }

  /** Messages only come from the handle, which sends unstarted requests without a back-off. */
  predicate FromHandle(m: Message) {
    m.AddSimulation? ==> m.request == NewRequest(m.request.request, m.request.overrides, m.request.priority)
  }

  datatype BundleSimulationOutcome = Success(response: string) | Fatal(fatal: string) | Reschedule(reason: string)

  datatype SimulatedBundle = SimulatedBundle(
    request: SendBundleRequest, overrides: SimBundleOverrides, response: string, retries: nat)

  datatype SimulatedBundleError = SimulatedBundleError(error: string, sim: SimulationRequest)

  datatype SimulationEvent =
    | Simulated(result: Result<SimulatedBundle, SimulatedBundleError>)
    | OutdatedRequest(request: SendBundleRequest, overrides: SimBundleOverrides, nextBlock: U64)
    | ExceededMaxRetries(request: SendBundleRequest, overrides: SimBundleOverrides)
    | BlockNumberUpdated(previous: U64, current: U64)

  /** A listener's channel: `open` until its receiver is dropped, `received` in order of sending. */
  datatype Listener = Listener(id: nat, open: bool, received: seq<SimulationEvent>)

  datatype Config = Config(
    maxRetries: nat,
    maxNormalPrioQueueLen: nat,
    maxHighPrioQueueLen: nat,
    maxConcurrentSimulations: nat)
}
