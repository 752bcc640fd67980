/** Conservation of requests and messages over all runs. */
module Ledgers {
  import opened Common
  import opened Requests
  import opened Selection
  import opened Machine

  function Is(job: Job): SimulationRequest -> nat {
    (r: SimulationRequest) => if r.Job() == job then 1 else 0
  }

  /** How often the job occurs in `q`. */
  function Count(q: seq<SimulationRequest>, job: Job): nat { Sum(q, Is(job)) }

  /** The job an event reports as finished, if it does. */
  function Closes(e: SimulationEvent): Option<Job> {
    match e
    case Simulated(Ok(b)) => Some((b.request, b.overrides))
    case Simulated(Err(f)) => Some(f.sim.Job())
    case OutdatedRequest(request, overrides, _) => Some((request, overrides))
    case ExceededMaxRetries(request, overrides) => Some((request, overrides))
    case BlockNumberUpdated(_, _) => None
  }

  function Finishes(job: Job): SimulationEvent -> nat {
    (e: SimulationEvent) => if Closes(e) == Some(job) then 1 else 0
  }

  /** How many events report the job as finished. */
  function Closed(events: seq<SimulationEvent>, job: Job): nat { Sum(events, Finishes(job)) }

  /** How often the job occurs anywhere: in the two queues, in flight, cleared, finished. */
  function Placed(s: State, job: Job): nat {
    Count(s.high, job) + Count(s.normal, job) + Count(s.flying, job)
    + Count(s.ledger.cleared, job) + Closed(s.ledger.events, job)
  }

  lemma UnqueueSum(s: State, pos: nat, weight: SimulationRequest -> nat)
    requires pos < |s.Queued()|
    ensures Sum(s.high, weight) + Sum(s.normal, weight)
         == Sum(Unqueue(s, pos).high, weight) + Sum(Unqueue(s, pos).normal, weight) + weight(s.Queued()[pos])
  {
    if pos < |s.high| {
      SumWithout(s.high, pos, weight);
    } else {
      SumWithout(s.normal, pos - |s.high|, weight);
    }
  }

  lemma EmitPlaced(s: State, e: SimulationEvent, job: Job)
    ensures Placed(Emit(s, e), job) == Placed(s, job) + Finishes(job)(e)
  {
    SumAppend(s.ledger.events, e, Finishes(job));
  }

  /** What a message adds to the accepted requests. */
  function Admitted(c: Config, s: State, m: Message): seq<SimulationRequest> {
    if m.AddSimulation? && (if m.request.priority.High? then |s.high| < c.maxHighPrioQueueLen
                            else |s.normal| < c.maxNormalPrioQueueLen)
    then [m.request] else []
  }

  /** Handling a message adds to what is placed exactly what it adds to what is accepted. */
  lemma DeliverPlaced(c: Config, s: State, m: Message, job: Job)
    ensures Deliver(c, s, m).ledger.accepted == s.ledger.accepted + Admitted(c, s, m)
    ensures Placed(Deliver(c, s, m), job) == Placed(s, job) + Count(Admitted(c, s, m), job)
  {
    match m
    case UpdateBlockNumber(num) =>
      EmitPlaced(s.(block := num), BlockNumberUpdated(s.block, s.block), job);
    case ClearQueue =>
      SumConcat(s.high, s.normal, Is(job));
      SumConcat(s.ledger.cleared, s.Queued(), Is(job));
    case AddEventListener(id) =>
    case AddSimulation(r) =>
      if r.priority.High? {
        SumAppend(s.high, r, Is(job));
      } else {
        SumAppend(s.normal, r, Is(job));
      }
      SumAppend([], r, Is(job));
      assert [] + [r] == [r];
  }

  lemma ReportPlaced(c: Config, s: State, outcome: BundleSimulationOutcome, sim: SimulationRequest, job: Job)
    requires !outcome.Reschedule?
    ensures Placed(Settle(c, s, outcome, sim), job) == Placed(s, job) + Is(job)(sim)
  {
    match outcome
    case Success(response) =>
      EmitPlaced(s, Simulated(Ok(SimulatedBundle(sim.request, sim.overrides, response, sim.retries))), job);
    case Fatal(error) =>
      EmitPlaced(s, Simulated(Err(SimulatedBundleError(error, sim))), job);
  }

  lemma ReschedulePlaced(c: Config, s: State, outcome: BundleSimulationOutcome, sim: SimulationRequest, job: Job)
    requires outcome.Reschedule?
    ensures Placed(Settle(c, s, outcome, sim), job) == Placed(s, job) + Is(job)(sim)
  {
    var again := sim.(retries := sim.retries + 1);
    if again.retries > c.maxRetries {
      EmitPlaced(s, ExceededMaxRetries(sim.request, sim.overrides), job);
    } else if sim.priority.High? {
      SumAppend(s.high, again, Is(job));
    } else {
      SumAppend(s.normal, again, Is(job));
    }
  }

  lemma SettlePlaced(c: Config, s: State, outcome: BundleSimulationOutcome, sim: SimulationRequest, job: Job)
    ensures Placed(Settle(c, s, outcome, sim), job) == Placed(s, job) + Is(job)(sim)
    ensures Settle(c, s, outcome, sim).ledger.accepted == s.ledger.accepted
  {
    if outcome.Reschedule? {
      ReschedulePlaced(c, s, outcome, sim, job);
    } else {
      ReportPlaced(c, s, outcome, sim, job);
    }
  }

  /** No action loses, duplicates or invents a request. */
  lemma StepConserves(c: Config, s: State, a: Action, job: Job)
    requires Enabled(c, s, a) && Count(s.ledger.accepted, job) == Placed(s, job)
    ensures Count(Step(c, s, a).ledger.accepted, job) == Placed(Step(c, s, a), job)
  {
    hide Deliver, Settle, Sum, Judge;
    match a
    case Send(_) =>
    case HangUp(_) =>
    case Receive =>
      var m, t := s.mailbox[0], Fetch(s);
      DeliverPlaced(c, t, m, job);
      SumConcat(t.ledger.accepted, Admitted(c, t, m), Is(job));
    case Complete(i, outcome) =>
      SumWithout(s.flying, i, Is(job));
      SettlePlaced(c, s.(flying := Without(s.flying, i)), outcome, s.flying[i], job);
    case Drop(pos, now) =>
      var r := s.Queued()[pos];
      UnqueueSum(s, pos, Is(job));
      EmitPlaced(Unqueue(s, pos), OutdatedRequest(r.request, r.overrides, NextBlock(s.block)), job);
    case Launch(pos, now) =>
      UnqueueSum(s, pos, Is(job));
      SumAppend(s.flying, s.Queued()[pos], Is(job));
  }

  /** Conservation over every run: a job was answered `Ok` exactly as often as
      it is in a queue, in flight, cleared, or reported by a final event. The
      job carries the whole payload, so no payload ever changes either. */
  lemma {:induction false} Conservation(c: Config, block: U64, h: seq<Action>, job: Job)
    requires Legal(c, block, h)
    ensures Count(Run(c, block, h).ledger.accepted, job) == Placed(Run(c, block, h), job)
    decreases |h|
  {
    if h != [] {
      var n := |h| - 1;
      Conservation(c, block, h[..n], job);
      StepConserves(c, Run(c, block, h[..n]), h[n], job);
    }
  }

  /** No two accepted submissions look the same (submissions carry distinct ids). */
  ghost predicate NoTwins(s: State) {
    forall job: Job :: Count(s.ledger.accepted, job) <= 1
  }

  /** Each accepted request is in exactly one place, and one that was not
      accepted is in none: a rejected submission never shows up anywhere. */
  lemma ExactlyOnePlace(c: Config, block: U64, h: seq<Action>, job: Job)
    requires Legal(c, block, h) && NoTwins(Run(c, block, h))
    ensures var s := Run(c, block, h);
            Count(s.high, job) + Count(s.normal, job) + Count(s.flying, job)
              + Count(s.ledger.cleared, job) + Closed(s.ledger.events, job)
            == if exists r :: r in s.ledger.accepted && r.Job() == job then 1 else 0
  {
    Conservation(c, block, h, job);
    CountMeaning(Run(c, block, h).ledger.accepted, job);
  }

  lemma {:induction false} CountMeaning(q: seq<SimulationRequest>, job: Job)
    ensures Count(q, job) > 0 <==> exists r :: r in q && r.Job() == job
  {
    if q != [] {
      CountMeaning(q[1..], job);
      assert q == [q[0]] + q[1..];
      if r :| r in q && r.Job() == job {
        assert r == q[0] || r in q[1..];
      }
    }
  }

  function Added(messages: seq<Message>): seq<SimulationRequest> {
    if messages == [] then []
    else
      var n := |messages| - 1;
      Added(messages[..n]) + (if messages[n].AddSimulation? then [messages[n].request] else [])
  }

  function Sent(h: seq<Action>): seq<Message> {
    if h == [] then [] else Sent(h[..|h| - 1]) + (if h[|h| - 1].Send? then [h[|h| - 1].message] else [])
  }

  lemma StepKeepsFifo(c: Config, s: State, a: Action)
    requires Enabled(c, s, a)
    ensures var t := Step(c, s, a);
            t.ledger.handled + t.mailbox == s.ledger.handled + s.mailbox + (if a.Send? then [a.message] else [])
  {
    if a.Receive? {
      assert s.mailbox == [s.mailbox[0]] + s.mailbox[1..];
    }
  }

  /** Messages are handled in the order sent, and none is lost. */
  lemma {:induction false} MailboxFifo(c: Config, block: U64, h: seq<Action>)
    requires Legal(c, block, h)
    ensures Sent(h) == Run(c, block, h).ledger.handled + Run(c, block, h).mailbox
    decreases |h|
  {
    if h != [] {
      var n := |h| - 1;
      MailboxFifo(c, block, h[..n]);
      StepKeepsFifo(c, Run(c, block, h[..n]), h[n]);
    }
  }

  lemma DeliverAnswers(c: Config, s: State, m: Message, job: Job)
    ensures var l, l' := s.ledger, Deliver(c, s, m).ledger;
            Count(l'.accepted, job) + Count(l'.rejected, job)
            == Count(l.accepted, job) + Count(l.rejected, job)
               + (if m.AddSimulation? then Is(job)(m.request) else 0)
    ensures Deliver(c, s, m).ledger.handled == s.ledger.handled
  {
    hide Sum;
    if m.AddSimulation? {
      SumAppend(s.ledger.accepted, m.request, Is(job));
      SumAppend(s.ledger.rejected, m.request, Is(job));
    }
  }

  lemma AddedAppend(messages: seq<Message>, m: Message, job: Job)
    ensures Count(Added(messages + [m]), job)
         == Count(Added(messages), job) + (if m.AddSimulation? then Is(job)(m.request) else 0)
  {
    assert (messages + [m])[..|messages|] == messages;
    if m.AddSimulation? {
      SumAppend(Added(messages), m.request, Is(job));
    } else {
      assert Added(messages) + [] == Added(messages);
    }
  }

  lemma SettleAnswersNothing(c: Config, s: State, outcome: BundleSimulationOutcome, sim: SimulationRequest)
    ensures var l, l' := s.ledger, Settle(c, s, outcome, sim).ledger;
            l'.accepted == l.accepted && l'.rejected == l.rejected && l'.handled == l.handled
  {
  }

  predicate Answered(l: Ledger, job: Job) {
    Count(Added(l.handled), job) == Count(l.accepted, job) + Count(l.rejected, job)
  }

  lemma ReceiveAnswers(c: Config, s: State, job: Job)
    requires s.mailbox != [] && Answered(s.ledger, job)
    ensures Answered(Step(c, s, Receive).ledger, job)
  {
    DeliverAnswers(c, Fetch(s), s.mailbox[0], job);
    AddedAppend(s.ledger.handled, s.mailbox[0], job);
  }

  lemma StepAnswers(c: Config, s: State, a: Action, job: Job)
    requires Enabled(c, s, a) && Answered(s.ledger, job)
    ensures Answered(Step(c, s, a).ledger, job)
  {
    match a
    case Receive =>
      ReceiveAnswers(c, s, job);
    case Complete(i, outcome) =>
      SettleAnswersNothing(c, s.(flying := Without(s.flying, i)), outcome, s.flying[i]);
    case _ =>
  }

  /** Every handled submission was answered exactly once: `Ok` or `QueueFull`. */
  lemma {:induction false} AnsweredOnce(c: Config, block: U64, h: seq<Action>, job: Job)
    requires Legal(c, block, h)
    ensures Answered(Run(c, block, h).ledger, job)
    decreases |h|
  {
    if h != [] {
      var n := |h| - 1;
      AnsweredOnce(c, block, h[..n], job);
      StepAnswers(c, Run(c, block, h[..n]), h[n], job);
    }
  }

  // ---- Clearing the queues ----

  lemma ClearedOnlyGrow(c: Config, s: State, a: Action, job: Job)
    requires Enabled(c, s, a)
    ensures Count(s.ledger.cleared, job) <= Count(Step(c, s, a).ledger.cleared, job)
  {
    hide Sum;
    SumConcat(s.ledger.cleared, s.Queued(), Is(job));
  }

  lemma {:induction false} ClearedStays(c: Config, block: U64, h: seq<Action>, j: nat, job: Job)
    requires Legal(c, block, h) && j <= |h|
    ensures Legal(c, block, h[..j])
    ensures Count(Run(c, block, h[..j]).ledger.cleared, job) <= Count(Run(c, block, h).ledger.cleared, job)
    decreases |h|
  {
    hide Step, Enabled, Sum;
    LegalPrefix(c, block, h, j);
    if j == |h| {
      assert h[..j] == h;
    } else {
      var n := |h| - 1;
      ClearedStays(c, block, h[..n], j, job);
      assert h[..n][..j] == h[..j];
      ClearedOnlyGrow(c, Run(c, block, h[..n]), h[n], job);
    }
  }

  /** What a clear removed never reappears: not in a queue, not in flight, not in any event. */
  lemma ClearedForGood(c: Config, block: U64, h: seq<Action>, j: nat, job: Job)
    requires Legal(c, block, h) && j <= |h| && NoTwins(Run(c, block, h))
    ensures Legal(c, block, h[..j])
    ensures Count(Run(c, block, h[..j]).ledger.cleared, job) > 0 ==>
              var s := Run(c, block, h);
              && Count(s.high, job) == 0 && Count(s.normal, job) == 0 && Count(s.flying, job) == 0
              && Closed(s.ledger.events, job) == 0
  {
    ClearedStays(c, block, h, j, job);
    Conservation(c, block, h, job);
    assert Count(Run(c, block, h).ledger.accepted, job) <= 1;
  }

  /** A handled clear empties both queues and leaves the simulations in flight
      alone: everything is gone exactly when nothing was in flight. One that is
      in flight then comes back to the queues, by being rescheduled, exactly
      when it has a retry left. */
  lemma ClearSparesFlight(c: Config, s: State, i: nat, reason: string)
    requires s.mailbox != [] && s.mailbox[0].ClearQueue?
    ensures var t := Step(c, s, Receive);
            && t.Queued() == [] && t.flying == s.flying
            && (t.Queued() == [] && t.flying == [] <==> s.flying == [])
            && (i < |s.flying| ==>
                  var again := s.flying[i].(retries := s.flying[i].retries + 1);
                  var u := Step(c, t, Complete(i, Reschedule(reason)));
                  && (again in u.Queued() <==> s.flying[i].retries < c.maxRetries)
                  && u.Queued() == if s.flying[i].retries < c.maxRetries then [again] else [])
  {
  }
}
