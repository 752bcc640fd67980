/** Retry accounting over all runs: what `retries` says about how often a
    request was started. */
module Accounting {
  import opened Common
  import opened Requests
  import opened Selection
  import opened Machine
  import opened Ledgers
  import opened Bounds

  lemma {:induction false} NoneCounted(q: seq<SimulationRequest>, job: Job)
    requires Count(q, job) == 0
    ensures forall r :: r in q ==> r.Job() != job
  {
    CountMeaning(q, job);
  }

  lemma {:induction false} NoneClosed(events: seq<SimulationEvent>, job: Job)
    requires Closed(events, job) == 0
    ensures forall e :: e in events ==> Closes(e) != Some(job)
  {
    if events != [] {
      NoneClosed(events[1..], job);
      assert events == [events[0]] + events[1..];
    }
  }

  /** What a final event reports agrees with how often the job was started. */
  predicate Tallies(c: Config, starts: multiset<Job>, e: SimulationEvent) {
    match e
    case Simulated(Ok(b)) => b.retries + 1 == starts[(b.request, b.overrides)]
    case Simulated(Err(f)) => f.sim.retries + 1 == starts[f.sim.Job()]
    case ExceededMaxRetries(request, overrides) => starts[(request, overrides)] == c.maxRetries + 1
    case OutdatedRequest(request, overrides, _) => starts[(request, overrides)] <= c.maxRetries
    case BlockNumberUpdated(_, _) => true
  }

  predicate QueuedTally(starts: multiset<Job>, q: seq<SimulationRequest>) {
    forall r :: r in q ==> r.retries == starts[r.Job()]
  }

  predicate FlyingTally(starts: multiset<Job>, q: seq<SimulationRequest>) {
    forall r :: r in q ==> r.retries + 1 == starts[r.Job()]
  }

  predicate EventsTally(c: Config, starts: multiset<Job>, events: seq<SimulationEvent>) {
    forall e :: e in events ==> Tallies(c, starts, e)
  }

  ghost predicate StartsBounded(c: Config, l: Ledger) {
    && (forall job: Job :: l.starts[job] <= c.maxRetries + 1)
    && (forall job: Job :: l.starts[job] > 0 ==> Count(l.accepted, job) > 0)
  }

  /** A queued request was started `retries` times, one in flight once more;
      nothing is started more than `maxRetries + 1` times or without having been accepted. */
  ghost predicate Accounted(c: Config, s: State) {
    && QueuedTally(s.ledger.starts, s.high)
    && QueuedTally(s.ledger.starts, s.normal)
    && FlyingTally(s.ledger.starts, s.flying)
    && EventsTally(c, s.ledger.starts, s.ledger.events)
    && StartsBounded(c, s.ledger)
  }

  /** The only trace of a job that is about to be started is its queue entry. */
  lemma Alone(s: State, pos: nat)
    requires pos < |s.Queued()| && Placed(s, s.Queued()[pos].Job()) <= 1
    ensures var job, t := s.Queued()[pos].Job(), Unqueue(s, pos);
            && (forall r :: r in t.high ==> r.Job() != job)
            && (forall r :: r in t.normal ==> r.Job() != job)
            && (forall r :: r in s.flying ==> r.Job() != job)
            && (forall e :: e in s.ledger.events ==> Closes(e) != Some(job))
  {
    var job, t := s.Queued()[pos].Job(), Unqueue(s, pos);
    UnqueueSum(s, pos, Is(job));
    NoneCounted(t.high, job);
    NoneCounted(t.normal, job);
    NoneCounted(s.flying, job);
    NoneClosed(s.ledger.events, job);
  }

  lemma OtherTalliesStay(
    c: Config, starts: multiset<Job>, job: Job, q: seq<SimulationRequest>, events: seq<SimulationEvent>)
    requires forall r :: r in q ==> r.Job() != job
    requires forall e :: e in events ==> Closes(e) != Some(job)
    ensures QueuedTally(starts, q) ==> QueuedTally(starts + multiset{job}, q)
    ensures FlyingTally(starts, q) ==> FlyingTally(starts + multiset{job}, q)
    ensures EventsTally(c, starts, events) ==> EventsTally(c, starts + multiset{job}, events)
  {
    assert forall other :: other != job ==> (starts + multiset{job})[other] == starts[other];
  }

  lemma TallyOfPart(starts: multiset<Job>, q: seq<SimulationRequest>, part: seq<SimulationRequest>)
    requires QueuedTally(starts, q) && forall r :: r in part ==> r in q
    ensures QueuedTally(starts, part)
  {
  }

  lemma UnqueueSubset(s: State, pos: nat)
    requires pos < |s.Queued()|
    ensures forall r :: r in Unqueue(s, pos).high ==> r in s.high
    ensures forall r :: r in Unqueue(s, pos).normal ==> r in s.normal
    ensures s.Queued()[pos] in s.high || s.Queued()[pos] in s.normal
  {
  }

  lemma StartsStayBounded(c: Config, l: Ledger, job: Job)
    requires StartsBounded(c, l) && l.starts[job] <= c.maxRetries && Count(l.accepted, job) > 0
    ensures StartsBounded(c, l.(starts := l.starts + multiset{job}))
  {
  }

  /** Counting one more start of a job that only its queue entry knows of. */
  lemma LaunchTallies(c: Config, s: State, pos: nat, job: Job)
    requires pos < |s.Queued()| && job == s.Queued()[pos].Job() && Accounted(c, s)
    requires Placed(s, job) <= 1 && s.Queued()[pos].retries == s.ledger.starts[job]
    ensures var starts, u := s.ledger.starts + multiset{job}, Unqueue(s, pos);
            && QueuedTally(starts, u.high) && QueuedTally(starts, u.normal)
            && FlyingTally(starts, s.flying + [s.Queued()[pos]])
            && EventsTally(c, starts, s.ledger.events)
  {
    var starts, u := s.ledger.starts, Unqueue(s, pos);
    Alone(s, pos);
    UnqueueSubset(s, pos);
    TallyOfPart(starts, s.high, u.high);
    TallyOfPart(starts, s.normal, u.normal);
    hide Sum, QueuedTally, EventsTally, StartsBounded;
    OtherTalliesStay(c, starts, job, u.high, s.ledger.events);
    OtherTalliesStay(c, starts, job, u.normal, s.ledger.events);
    OtherTalliesStay(c, starts, job, s.flying, s.ledger.events);
  }

  lemma LaunchAccounts(c: Config, s: State, pos: nat, now: Instant)
    requires Enabled(c, s, Launch(pos, now)) && Tidy(c, s) && Accounted(c, s)
    requires Placed(s, s.Queued()[pos].Job()) <= 1 == Count(s.ledger.accepted, s.Queued()[pos].Job())
    ensures Accounted(c, Step(c, s, Launch(pos, now)))
  {
    var r, u := s.Queued()[pos], Unqueue(s, pos);
    hide Sum, Judge, StartsBounded, EventsTally;
    Alone(s, pos);
    UnqueueSubset(s, pos);
    assert r.retries == s.ledger.starts[r.Job()];
    LaunchTallies(c, s, pos, r.Job());
    StartsStayBounded(c, s.ledger, r.Job());
  }

  lemma DropAccounts(c: Config, s: State, pos: nat, now: Instant)
    requires Enabled(c, s, Drop(pos, now)) && Tidy(c, s) && Accounted(c, s)
    ensures Accounted(c, Step(c, s, Drop(pos, now)))
  {
    UnqueueSubset(s, pos);
  }

  lemma SettleAccounts(c: Config, s: State, outcome: BundleSimulationOutcome, sim: SimulationRequest)
    requires Accounted(c, s) && sim.retries + 1 == s.ledger.starts[sim.Job()] <= c.maxRetries + 1
    ensures Accounted(c, Settle(c, s, outcome, sim))
  {
    assert sim.(retries := sim.retries + 1).Job() == sim.Job();
  }

  lemma CompleteAccounts(c: Config, s: State, i: nat, outcome: BundleSimulationOutcome)
    requires i < |s.flying| && Tidy(c, s) && Accounted(c, s)
    ensures Accounted(c, Step(c, s, Complete(i, outcome)))
  {
    hide Settle, QueuedTally, EventsTally, Sum;
    assert s.flying[i] in s.flying;
    assert forall r :: r in Without(s.flying, i) ==> r in s.flying;
    SettleAccounts(c, s.(flying := Without(s.flying, i)), outcome, s.flying[i]);
  }

  /** A newly accepted request has never been started. */
  lemma AcceptAccounts(c: Config, l: Ledger, r: SimulationRequest)
    requires StartsBounded(c, l) && Count(l.accepted + [r], r.Job()) <= 1
    ensures l.starts[r.Job()] == 0
    ensures StartsBounded(c, l.(accepted := l.accepted + [r]))
  {
    forall job: Job
      ensures Count(l.accepted + [r], job) == Count(l.accepted, job) + Is(job)(r)
    {
      SumAppend(l.accepted, r, Is(job));
    }
  }

  lemma DeliverAccounts(c: Config, s: State, m: Message)
    requires FromHandle(m) && Accounted(c, s) && NoTwins(Deliver(c, s, m))
    ensures Accounted(c, Deliver(c, s, m))
  {
    hide Sum;
    if Admitted(c, s, m) != [] {
      assert Deliver(c, s, m).ledger.accepted == s.ledger.accepted + [m.request];
      AcceptAccounts(c, s.ledger, m.request);
    }
  }

  lemma AcceptedOnlyGrow(c: Config, s: State, a: Action, job: Job)
    requires Enabled(c, s, a)
    ensures Count(s.ledger.accepted, job) <= Count(Step(c, s, a).ledger.accepted, job)
  {
    match a
    case Receive =>
      var m := s.mailbox[0];
      DeliverPlaced(c, Fetch(s), m, job);
      SumConcat(s.ledger.accepted, Admitted(c, Fetch(s), m), Is(job));
    case Complete(i, outcome) =>
      SettlePlaced(c, s.(flying := Without(s.flying, i)), outcome, s.flying[i], job);
    case _ =>
  }

  /** Retry accounting over every run in which no two accepted submissions look
      the same: `retries` of a queued request is how often it was started, no
      request is started more than `maxRetries + 1` times, giving up happens
      after exactly that many starts, and a result reports starts minus one. */
  lemma {:induction false} RetryAccounting(c: Config, block: U64, h: seq<Action>)
    requires Legal(c, block, h) && NoTwins(Run(c, block, h))
    ensures Accounted(c, Run(c, block, h))
    decreases |h|
  {
    if h != [] {
      var n := |h| - 1;
      var s := Run(c, block, h[..n]);
      forall job: Job
        ensures Count(s.ledger.accepted, job) <= 1
      {
        AcceptedOnlyGrow(c, s, h[n], job);
        assert Count(Run(c, block, h).ledger.accepted, job) <= 1;
      }
      RetryAccounting(c, block, h[..n]);
      AlwaysTidy(c, block, h[..n]);
      match h[n]
      case Receive =>
        assert s.mailbox[0] in s.mailbox;
        DeliverAccounts(c, Fetch(s), s.mailbox[0]);
      case Complete(i, outcome) => CompleteAccounts(c, s, i, outcome);
      case Drop(pos, now) => DropAccounts(c, s, pos, now);
      case Launch(pos, now) =>
        var r := s.Queued()[pos];
        Conservation(c, block, h[..n], r.Job());
        UnqueueSum(s, pos, Is(r.Job()));
        LaunchAccounts(c, s, pos, now);
      case _ =>
    }
  }
}
