/** The work a scheduler can do is bounded by the messages it was sent,
    however simulations end. */
module Progress {
  import opened Common
  import opened Requests
  import opened Machine
  import opened Ledgers
  import opened Bounds

  /** Steps a queued request can still cause, given the retry limit. */
  function QueuedWeight(maxRetries: nat): SimulationRequest -> nat {
    (r: SimulationRequest) => if r.retries <= maxRetries then 2 * (maxRetries - r.retries) + 2 else 0
  }

  function FlyingWeight(maxRetries: nat): SimulationRequest -> nat {
    (r: SimulationRequest) => if r.retries <= maxRetries then 2 * (maxRetries - r.retries) + 1 else 0
  }

  function MessageWeight(maxRetries: nat): Message -> nat {
    (m: Message) => 2 * maxRetries + 3
  }

  function Potential(c: Config, s: State): nat {
    Sum(s.mailbox, MessageWeight(c.maxRetries))
    + Sum(s.high, QueuedWeight(c.maxRetries))
    + Sum(s.normal, QueuedWeight(c.maxRetries))
    + Sum(s.flying, FlyingWeight(c.maxRetries))
  }

  /** Actions of the service, as opposed to its environment. */
  predicate IsWork(a: Action) { !a.Send? && !a.HangUp? }

  lemma DeliverPotential(c: Config, s: State, m: Message)
    requires FromHandle(m)
    ensures Potential(c, Deliver(c, s, m)) <= Potential(c, s) + 2 * c.maxRetries + 2
  {
    if m.AddSimulation? {
      if m.request.priority.High? {
        SumAppend(s.high, m.request, QueuedWeight(c.maxRetries));
      } else {
        SumAppend(s.normal, m.request, QueuedWeight(c.maxRetries));
      }
    }
  }

  lemma SettlePotential(c: Config, s: State, outcome: BundleSimulationOutcome, sim: SimulationRequest)
    requires sim.retries <= c.maxRetries
    ensures Potential(c, Settle(c, s, outcome, sim)) < Potential(c, s) + FlyingWeight(c.maxRetries)(sim)
  {
    if outcome.Reschedule? {
      var again := sim.(retries := sim.retries + 1);
      if sim.priority.High? {
        SumAppend(s.high, again, QueuedWeight(c.maxRetries));
      } else {
        SumAppend(s.normal, again, QueuedWeight(c.maxRetries));
      }
    }
  }

  /** Every message handled, completion, drop and start lowers the potential. */
  lemma WorkLowersPotential(c: Config, s: State, a: Action)
    requires Enabled(c, s, a) && Tidy(c, s) && IsWork(a)
    ensures Potential(c, Step(c, s, a)) < Potential(c, s)
  {
    match a
    case Receive =>
      assert s.mailbox[0] in s.mailbox;
      DeliverPotential(c, Fetch(s), s.mailbox[0]);
    case Complete(i, outcome) =>
      assert s.flying[i] in s.flying;
      SumWithout(s.flying, i, FlyingWeight(c.maxRetries));
      SettlePotential(c, s.(flying := Without(s.flying, i)), outcome, s.flying[i]);
    case Drop(pos, now) =>
      assert s.Queued()[pos] in s.high || s.Queued()[pos] in s.normal;
      UnqueueSum(s, pos, QueuedWeight(c.maxRetries));
    case Launch(pos, now) =>
      assert s.Queued()[pos] in s.high || s.Queued()[pos] in s.normal;
      UnqueueSum(s, pos, QueuedWeight(c.maxRetries));
      SumAppend(s.flying, s.Queued()[pos], FlyingWeight(c.maxRetries));
  }

  function Work(h: seq<Action>): nat {
    if h == [] then 0 else Work(h[..|h| - 1]) + (if IsWork(h[|h| - 1]) then 1 else 0)
  }

  /** Over every run: work done so far plus work still possible is at most
      `2 * maxRetries + 3` per message sent. */
  lemma {:induction false} WorkIsBounded(c: Config, block: U64, h: seq<Action>)
    requires Legal(c, block, h)
    ensures Work(h) + Potential(c, Run(c, block, h)) <= (2 * c.maxRetries + 3) * |Sent(h)|
    decreases |h|
  {
    if h != [] {
      var n, w := |h| - 1, 2 * c.maxRetries + 3;
      WorkIsBounded(c, block, h[..n]);
      AlwaysTidy(c, block, h[..n]);
      var s := Run(c, block, h[..n]);
      match h[n]
      case Send(m) =>
        SumAppend(s.mailbox, m, MessageWeight(c.maxRetries));
        assert w * (|Sent(h[..n])| + 1) == w * |Sent(h[..n])| + w;
      case HangUp(_) =>
      case _ => WorkLowersPotential(c, s, h[n]);
    }
  }
}
