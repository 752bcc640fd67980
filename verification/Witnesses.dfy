/** Runs that reach the bounds, and with them the exact conditions under which a
    limit or a window matters. Every run built here is one a poll loop can have. */
module Witnesses {
  import opened Common
  import opened Requests
  import opened Selection
  import opened Machine
  import opened Ledgers
  import opened Bounds
  import opened Windows
  import opened Limits
  import opened Progress
  import opened Rounds

  /** Send a message and handle it. */
  lemma Handle(c: Config, block: U64, h: seq<Action>, m: Message) returns (g: seq<Action>)
    requires AtRest(c, block, h) && Run(c, block, h).mailbox == [] && FromHandle(m)
    ensures Served(c, block, g) && PhaseOf(g) == Gathering && g == h + [Send(m)] + [Receive]
    ensures var s := Run(c, block, h);
            Run(c, block, g) == Deliver(c, s.(ledger := s.ledger.(handled := s.ledger.handled + [m])), m)
  {
    OthersKeepRest(c, block, h, Send(m));
    assert ([] + [m])[0] == m && ([] + [m])[1..] == [];
    ReceiveKeepsRest(c, block, h + [Send(m)]);
    g := h + [Send(m)] + [Receive];
  }

  /** Start the first request of the queues, as the last one of its selection. */
  lemma StartFirst(c: Config, block: U64, h: seq<Action>) returns (g: seq<Action>)
    requires Open(c, block, h) && Enabled(c, Run(c, block, h), Launch(0, 0))
    requires Finished(c, Step(c, Run(c, block, h), Launch(0, 0)), 0)
    ensures AtRest(c, block, g) && Open(c, block, g) && g == h + [Launch(0, 0)]
    ensures Run(c, block, g) == Step(c, Run(c, block, h), Launch(0, 0))
  {
    ServedAppend(c, block, h, Launch(0, 0));
    g := h + [Launch(0, 0)];
  }

  /** Reschedule the first request in flight. */
  lemma RescheduleFirst(c: Config, block: U64, h: seq<Action>) returns (g: seq<Action>)
    requires Open(c, block, h) && Run(c, block, h).flying != []
    ensures Open(c, block, g) && PhaseOf(g) == Completing && g == h + [Complete(0, Reschedule(""))]
    ensures Run(c, block, g) == Step(c, Run(c, block, h), Complete(0, Reschedule("")))
  {
    ServedAppend(c, block, h, Complete(0, Reschedule("")));
    g := h + [Complete(0, Reschedule(""))];
  }

  // ---- Queues over their limits ----

  /** A request that is eligible from the first block on. */
  function Probe(p: SimulationPriority): SimulationRequest {
    NewRequest(SendBundleRequest(0, Inclusion(0, None), ""), SimBundleOverrides(""), p)
  }

  predicate AllProbes(q: seq<SimulationRequest>, p: SimulationPriority) {
    forall i :: 0 <= i < |q| ==> q[i] == Probe(p)
  }

  function Other(p: SimulationPriority): SimulationPriority {
    if p == High then Normal else High
  }

  /** A run state with `queued` probes in their queue and `flying` in flight, and nothing else. */
  predicate Holds(s: State, p: SimulationPriority, queued: nat, flying: nat) {
    && s.mailbox == [] && s.block == 0 && Climbing(0, s.ledger.handled)
    && |Queue(s, p)| == queued && AllProbes(Queue(s, p), p)
    && Queue(s, Other(p)) == []
    && |s.flying| == flying && AllProbes(s.flying, p)
  }

  lemma ClimbingAppend(block: U64, handled: seq<Message>, m: Message)
    requires Climbing(block, handled) && m.AddSimulation?
    ensures Climbing(block, handled + [m])
  {
    assert (handled + [m])[..|handled|] == handled;
  }

  lemma Submit(c: Config, h: seq<Action>, p: SimulationPriority, queued: nat, flying: nat) returns (g: seq<Action>)
    requires AtRest(c, 0, h) && Holds(Run(c, 0, h), p, queued, flying) && queued < Limit(c, p)
    ensures AtRest(c, 0, g) && Open(c, 0, g) && Holds(Run(c, 0, g), p, queued + 1, flying)
  {
    ClimbingAppend(0, Run(c, 0, h).ledger.handled, AddSimulation(Probe(p)));
    g := Handle(c, 0, h, AddSimulation(Probe(p)));
  }

  lemma Takeoff(c: Config, h: seq<Action>, p: SimulationPriority, flying: nat) returns (g: seq<Action>)
    requires Open(c, 0, h) && Holds(Run(c, 0, h), p, 1, flying) && flying < c.maxConcurrentSimulations
    ensures AtRest(c, 0, g) && Holds(Run(c, 0, g), p, 0, flying + 1)
  {
    var s := Run(c, 0, h);
    assert s.Queued() == [Probe(p)];
    var t := Step(c, s, Launch(0, 0));
    assert t.Queued() == [];
    g := StartFirst(c, 0, h);
  }

  lemma {:induction false} FillFlight(c: Config, p: SimulationPriority, flying: nat) returns (h: seq<Action>)
    requires Limit(c, p) > 0 && flying <= c.maxConcurrentSimulations
    ensures AtRest(c, 0, h) && Holds(Run(c, 0, h), p, 0, flying)
  {
    if flying == 0 {
      h := [];
    } else {
      hide Run, Open, AtRest, Holds;
      h := FillFlight(c, p, flying - 1);
      h := Submit(c, h, p, 0, flying - 1);
      h := Takeoff(c, h, p, flying - 1);
    }
  }

  lemma {:induction false} FillQueue(c: Config, p: SimulationPriority, queued: nat) returns (h: seq<Action>)
    requires Limit(c, p) > 0 && queued <= Limit(c, p)
    ensures AtRest(c, 0, h) && Holds(Run(c, 0, h), p, queued, c.maxConcurrentSimulations)
  {
    if queued == 0 {
      h := FillFlight(c, p, c.maxConcurrentSimulations);
    } else {
      hide Run, Open, AtRest, Holds;
      h := FillQueue(c, p, queued - 1);
      h := Submit(c, h, p, queued - 1, c.maxConcurrentSimulations);
    }
  }

  lemma RescheduleOne(c: Config, h: seq<Action>, p: SimulationPriority) returns (g: seq<Action>)
    requires Open(c, 0, h) && Run(c, 0, h).flying != [] && AllProbes(Run(c, 0, h).flying, p) && c.maxRetries > 0
    ensures Open(c, 0, g)
    ensures |Run(c, 0, g).flying| == |Run(c, 0, h).flying| - 1 && AllProbes(Run(c, 0, g).flying, p)
    ensures |Queue(Run(c, 0, g), p)| == |Queue(Run(c, 0, h), p)| + 1
  {
    g := RescheduleFirst(c, 0, h);
    var s := Run(c, 0, h);
    assert s.flying[0] == Probe(p);
    assert forall i :: 0 <= i < |s.flying| - 1 ==> Without(s.flying, 0)[i] == s.flying[i + 1];
  }

  lemma {:induction false} RescheduleMany(c: Config, h: seq<Action>, p: SimulationPriority, n: nat)
    returns (g: seq<Action>)
    requires Open(c, 0, h) && n <= |Run(c, 0, h).flying| && AllProbes(Run(c, 0, h).flying, p) && c.maxRetries > 0
    ensures Open(c, 0, g) && |Queue(Run(c, 0, g), p)| == |Queue(Run(c, 0, h), p)| + n
    decreases n
  {
    if n == 0 {
      g := h;
    } else {
      hide Run, AllProbes;
      g := RescheduleOne(c, h, p);
      g := RescheduleMany(c, g, p, n - 1);
    }
  }

  /** The overshoot bound of `AlwaysFits` is attained for both priorities: a
      queue can reach its limit plus the concurrency limit. */
  lemma OvershootAttained(c: Config, p: SimulationPriority)
    requires Limit(c, p) > 0 && c.maxRetries > 0
    ensures exists h :: Served(c, 0, h) && |Queue(Run(c, 0, h), p)| == Limit(c, p) + c.maxConcurrentSimulations
  {
    var h := FillQueue(c, p, Limit(c, p));
    var g := RescheduleMany(c, h, p, c.maxConcurrentSimulations);
    assert |Queue(Run(c, 0, g), p)| == Limit(c, p) + c.maxConcurrentSimulations;
  }

  /** No queue gets past its limit on any run when one of the three limits is zero. */
  lemma NeverExceeded(c: Config, p: SimulationPriority, block: U64, h: seq<Action>)
    requires Legal(c, block, h)
    requires Limit(c, p) == 0 || c.maxRetries == 0 || c.maxConcurrentSimulations == 0
    ensures |Queue(Run(c, block, h), p)| <= Limit(c, p)
  {
    AlwaysFits(c, block, h);
    if Limit(c, p) == 0 {
      LimitZeroMeansNone(c, block, h, p);
    } else if c.maxRetries == 0 {
      NoRetriesMeansWithinLimit(c, block, h, p);
    }
  }

  /** A queue can get past its limit exactly when the limit, the retry limit
      and the concurrency limit are all positive: for a poll loop's runs, and
      for any runs. */
  lemma WhenLimitsAreExceeded(c: Config, p: SimulationPriority)
    ensures (exists block, h :: Served(c, block, h) && |Queue(Run(c, block, h), p)| > Limit(c, p))
       <==> Limit(c, p) > 0 && c.maxRetries > 0 && c.maxConcurrentSimulations > 0
    ensures (exists block, h :: Legal(c, block, h) && |Queue(Run(c, block, h), p)| > Limit(c, p))
       <==> Limit(c, p) > 0 && c.maxRetries > 0 && c.maxConcurrentSimulations > 0
  {
    if Limit(c, p) > 0 && c.maxRetries > 0 && c.maxConcurrentSimulations > 0 {
      OvershootAttained(c, p);
      var h :| Served(c, 0, h) && |Queue(Run(c, 0, h), p)| == Limit(c, p) + c.maxConcurrentSimulations;
      assert Served(c, 0, h) && Legal(c, 0, h) && |Queue(Run(c, 0, h), p)| > Limit(c, p);
    } else {
      forall block, h | Legal(c, block, h)
        ensures |Queue(Run(c, block, h), p)| <= Limit(c, p)
      {
        NeverExceeded(c, p, block, h);
      }
    }
  }

  // ---- The normal queue at the end of a round ----

  /** The normal queue full, all slots taken, and one high request queued. */
  predicate Packed(c: Config, s: State) {
    && s.mailbox == [] && s.block == 0 && Climbing(0, s.ledger.handled)
    && |s.normal| == c.maxNormalPrioQueueLen && s.high == [Probe(High)]
    && |s.flying| == c.maxConcurrentSimulations && AllProbes(s.flying, Normal)
  }

  lemma Pack(c: Config) returns (h: seq<Action>)
    requires c.maxHighPrioQueueLen > 0 && c.maxNormalPrioQueueLen > 0 && c.maxConcurrentSimulations > 0
    ensures Open(c, 0, h) && Packed(c, Run(c, 0, h))
  {
    h := FillQueue(c, Normal, c.maxNormalPrioQueueLen);
    ClimbingAppend(0, Run(c, 0, h).ledger.handled, AddSimulation(Probe(High)));
    h := Handle(c, 0, h, AddSimulation(Probe(High)));
  }

  /** A normal request put back is left over when a high request takes its slot. */
  lemma NormalLeftOver(c: Config) returns (h: seq<Action>)
    requires c.maxHighPrioQueueLen > 0 && c.maxNormalPrioQueueLen > 0
    requires c.maxRetries > 0 && c.maxConcurrentSimulations > 0
    ensures AtRest(c, 0, h) && RoundOver(c, Run(c, 0, h), PhaseOf(h))
    ensures Climbing(0, Run(c, 0, h).ledger.handled)
    ensures |Run(c, 0, h).normal| == c.maxNormalPrioQueueLen + 1
  {
    h := Pack(c);
    var s := Run(c, 0, h);
    assert s.flying[0] == Probe(Normal);
    h := RescheduleFirst(c, 0, h);
    s := Run(c, 0, h);
    assert s.high == [Probe(High)] && s.Queued()[0] == Probe(High);
    h := StartFirst(c, 0, h);
  }

  /** On a climbing run the normal queue can be over its limit at the end of a
      round exactly when the high, the normal, the retry and the concurrency
      limit are all positive; the high queue never is. */
  lemma WhenNormalIsLeftOver(c: Config)
    ensures (exists block, h ::
               && AtRest(c, block, h) && RoundOver(c, Run(c, block, h), PhaseOf(h))
               && Climbing(block, Run(c, block, h).ledger.handled)
               && |Run(c, block, h).normal| > c.maxNormalPrioQueueLen)
       <==> && c.maxHighPrioQueueLen > 0 && c.maxNormalPrioQueueLen > 0
            && c.maxRetries > 0 && c.maxConcurrentSimulations > 0
  {
    if && c.maxHighPrioQueueLen > 0 && c.maxNormalPrioQueueLen > 0
       && c.maxRetries > 0 && c.maxConcurrentSimulations > 0
    {
      var h := NormalLeftOver(c);
      assert |Run(c, 0, h).normal| > c.maxNormalPrioQueueLen;
    } else {
      forall block, h | AtRest(c, block, h) && Climbing(block, Run(c, block, h).ledger.handled)
        ensures |Run(c, block, h).normal| <= c.maxNormalPrioQueueLen
      {
        if c.maxHighPrioQueueLen == 0 {
          WithinLimitAtRest(c, block, h, Normal);
        } else {
          NeverExceeded(c, Normal, block, h);
        }
        assert Queue(Run(c, block, h), Normal) == Run(c, block, h).normal;
      }
    }
  }

  // ---- Without the assumption on block numbers ----

  function Urgent(id: nat, first: U64): SimulationRequest {
    NewRequest(SendBundleRequest(id, Inclusion(first, None), ""), SimBundleOverrides(""), High)
  }

  /** `waiting` requests of block 9 in the high queue and one of block 5 in flight. */
  predicate Crowd(s: State, waiting: nat) {
    && s.mailbox == [] && s.normal == [] && s.flying == [Urgent(1, 5)]
    && |s.high| == waiting && forall i :: 0 <= i < waiting ==> s.high[i] == Urgent(2, 9)
  }

  lemma CrowdTakesOff(c: Config) returns (h: seq<Action>)
    requires c.maxHighPrioQueueLen > 0 && c.maxConcurrentSimulations > 0
    ensures AtRest(c, 5, h) && Crowd(Run(c, 5, h), 0) && Run(c, 5, h).block == 5
  {
    h := Handle(c, 5, [], AddSimulation(Urgent(1, 5)));
    var s := Run(c, 5, h);
    assert s.Queued() == [Urgent(1, 5)];
    assert Step(c, s, Launch(0, 0)).Queued() == [];
    h := StartFirst(c, 5, h);
  }

  lemma {:induction false} CrowdGathers(c: Config, waiting: nat) returns (h: seq<Action>)
    requires 0 < c.maxHighPrioQueueLen && waiting <= c.maxHighPrioQueueLen && c.maxConcurrentSimulations > 0
    ensures AtRest(c, 5, h) && Crowd(Run(c, 5, h), waiting) && Run(c, 5, h).block == 5
  {
    if waiting == 0 {
      h := CrowdTakesOff(c);
    } else {
      h := CrowdGathers(c, waiting - 1);
      h := Handle(c, 5, h, AddSimulation(Urgent(2, 9)));
    }
  }

  /** Nothing is left to do: no message, nothing in flight, every queued request waits. */
  ghost predicate Quiet(s: State) {
    s.mailbox == [] && s.flying == [] && forall now :: AllWait(s.Queued(), NextBlock(s.block), now)
  }

  lemma CrowdLands(c: Config) returns (h: seq<Action>)
    requires c.maxHighPrioQueueLen > 0 && c.maxConcurrentSimulations > 0 && c.maxRetries > 0
    ensures AtRest(c, 5, h) && RoundOver(c, Run(c, 5, h), PhaseOf(h))
    ensures Quiet(Run(c, 5, h)) && |Run(c, 5, h).high| == c.maxHighPrioQueueLen + 1
  {
    h := CrowdGathers(c, c.maxHighPrioQueueLen);
    h := Handle(c, 5, h, UpdateBlockNumber(3));
    var s := Run(c, 5, h);
    assert Crowd(s, c.maxHighPrioQueueLen) && s.block == 3;
    h := RescheduleFirst(c, 5, h);
    var t := Run(c, 5, h);
    CrowdWaits(c, s, t);
    assert Finished(c, t, 0);
  }

  lemma CrowdWaits(c: Config, s: State, t: State)
    requires Crowd(s, c.maxHighPrioQueueLen) && s.block == 3 && c.maxRetries > 0
    requires t == Step(c, s, Complete(0, Reschedule("")))
    ensures Quiet(t) && |t.high| == c.maxHighPrioQueueLen + 1
  {
    assert t.high == s.high + [Urgent(1, 5).(retries := 1)] && t.normal == [];
    assert t.Queued() == t.high;
    forall now
      ensures AllWait(t.Queued(), NextBlock(t.block), now)
    {
      assert forall i :: 0 <= i < |s.high| ==> t.high[i] == Urgent(2, 9);
    }
  }

  /** When block numbers may also go down, the high queue can be left over its
      limit at the end of a round with nothing more to do, exactly when the
      limit, the retry limit and the concurrency limit are all positive. */
  lemma WhenHighLimitNeedsClimbing(c: Config)
    ensures (exists block, h ::
               && AtRest(c, block, h) && RoundOver(c, Run(c, block, h), PhaseOf(h))
               && Quiet(Run(c, block, h)) && |Run(c, block, h).high| > c.maxHighPrioQueueLen)
       <==> c.maxHighPrioQueueLen > 0 && c.maxRetries > 0 && c.maxConcurrentSimulations > 0
  {
    if c.maxHighPrioQueueLen > 0 && c.maxRetries > 0 && c.maxConcurrentSimulations > 0 {
      var h := CrowdLands(c);
      assert Quiet(Run(c, 5, h)) && |Run(c, 5, h).high| > c.maxHighPrioQueueLen;
    } else {
      forall block, h | Legal(c, block, h)
        ensures |Run(c, block, h).high| <= c.maxHighPrioQueueLen
      {
        NeverExceeded(c, High, block, h);
        assert Queue(Run(c, block, h), High) == Run(c, block, h).high;
      }
    }
  }

  // ---- The most work a message can cause ----

  lemma WorkAppend(h: seq<Action>, a: Action)
    ensures Work(h + [a]) == Work(h) + (if IsWork(a) then 1 else 0)
    ensures |Sent(h + [a])| == |Sent(h)| + (if a.Send? then 1 else 0)
  {
    assert (h + [a])[..|h|] == h;
  }

  /** Only these requests are there. */
  predicate Only(s: State, queued: seq<SimulationRequest>, flying: seq<SimulationRequest>) {
    s.mailbox == [] && s.high == [] && s.normal == queued && s.flying == flying && s.block == 0
  }

  lemma StartOnly(c: Config, h: seq<Action>, r: SimulationRequest) returns (g: seq<Action>)
    requires Open(c, 0, h) && Only(Run(c, 0, h), [r], []) && r.Job() == Probe(Normal).Job()
    requires c.maxConcurrentSimulations > 0 && r.backedOffUntil == None
    ensures Open(c, 0, g) && Only(Run(c, 0, g), [], [r]) && Work(g) == Work(h) + 1 && |Sent(g)| == |Sent(h)|
  {
    var s := Run(c, 0, h);
    assert s.Queued() == [r];
    assert Step(c, s, Launch(0, 0)).Queued() == [];
    g := StartFirst(c, 0, h);
    WorkAppend(h, Launch(0, 0));
  }

  lemma FailOnly(c: Config, h: seq<Action>, r: SimulationRequest) returns (g: seq<Action>)
    requires Open(c, 0, h) && Only(Run(c, 0, h), [], [r]) && r.priority == Normal
    ensures Open(c, 0, g) && Work(g) == Work(h) + 1 && |Sent(g)| == |Sent(h)|
    ensures Only(Run(c, 0, g), if r.retries < c.maxRetries then [r.(retries := r.retries + 1)] else [], [])
  {
    g := RescheduleFirst(c, 0, h);
    WorkAppend(h, Complete(0, Reschedule("")));
  }

  /** A queued request that is rescheduled until it is given up. */
  lemma {:induction false} LiveOut(c: Config, h: seq<Action>, retries: nat) returns (g: seq<Action>)
    requires Open(c, 0, h) && retries <= c.maxRetries && c.maxConcurrentSimulations > 0
    requires Only(Run(c, 0, h), [Probe(Normal).(retries := retries)], [])
    ensures Open(c, 0, g) && Only(Run(c, 0, g), [], [])
    ensures Work(g) == Work(h) + 2 * (c.maxRetries - retries) + 2 && |Sent(g)| == |Sent(h)|
    decreases c.maxRetries - retries
  {
    hide Run, Legal, Work, Sent, Open;
    g := StartOnly(c, h, Probe(Normal).(retries := retries));
    g := FailOnly(c, g, Probe(Normal).(retries := retries));
    if retries < c.maxRetries {
      g := LiveOut(c, g, retries + 1);
    }
  }

  lemma NothingLeftToDo(c: Config, h: seq<Action>)
    requires Open(c, 0, h) && Only(Run(c, 0, h), [], [])
    ensures AtRest(c, 0, h)
  {
    assert Run(c, 0, h).Queued() == [];
    assert Finished(c, Run(c, 0, h), 0);
  }

  lemma SubmitOnly(c: Config, h: seq<Action>) returns (g: seq<Action>)
    requires AtRest(c, 0, h) && Only(Run(c, 0, h), [], []) && c.maxNormalPrioQueueLen > 0
    ensures Open(c, 0, g) && Only(Run(c, 0, g), [Probe(Normal).(retries := 0)], [])
    ensures Work(g) == Work(h) + 1 && |Sent(g)| == |Sent(h)| + 1
  {
    var m := AddSimulation(Probe(Normal));
    g := Handle(c, 0, h, m);
    WorkAppend(h, Send(m));
    WorkAppend(h + [Send(m)], Receive);
  }

  /** The bound of `WorkIsBounded` is attained for every number of messages. */
  lemma {:induction false} WorkBoundAttained(c: Config, messages: nat) returns (h: seq<Action>)
    requires c.maxNormalPrioQueueLen > 0 && c.maxConcurrentSimulations > 0
    ensures AtRest(c, 0, h) && Only(Run(c, 0, h), [], [])
    ensures |Sent(h)| == messages && Work(h) == (2 * c.maxRetries + 3) * messages
  {
    if messages == 0 {
      h := [];
    } else {
      hide Run, Legal, Work, Sent, Open, AtRest;
      h := WorkBoundAttained(c, messages - 1);
      h := SubmitOnly(c, h);
      h := LiveOut(c, h, 0);
      NothingLeftToDo(c, h);
      assert (2 * c.maxRetries + 3) * messages == (2 * c.maxRetries + 3) * (messages - 1) + 2 * c.maxRetries + 3;
    }
  }

  // ---- Which bundles can be started ----

  /** Every bundle whose window has a second block is started on some run. */
  lemma StartsWhenItCan(c: Config, job: Job, p: SimulationPriority)
    requires HasSecondBlock(job.0.inclusion) && Limit(c, p) > 0 && c.maxConcurrentSimulations > 0
    ensures exists block, h :: Served(c, block, h) && Run(c, block, h).ledger.starts[job] > 0
  {
    var block, r := job.0.inclusion.block, NewRequest(job.0, job.1, p);
    var h := Handle(c, block, [], AddSimulation(r));
    var s := Run(c, block, h);
    assert s.Queued() == [r];
    assert Step(c, s, Launch(0, 0)).Queued() == [];
    var g := StartFirst(c, block, h);
    assert Run(c, block, g).ledger.starts[job] > 0;
  }

  /** A bundle is started on some run exactly when its window has a block after
      the first and the scheduler has a slot and a queue for it. In particular a
      bundle whose last block is its first is never started. */
  lemma WhenBundlesStart(c: Config, job: Job)
    ensures (exists block, h :: Served(c, block, h) && Run(c, block, h).ledger.starts[job] > 0)
       <==> && HasSecondBlock(job.0.inclusion) && c.maxConcurrentSimulations > 0
            && (c.maxHighPrioQueueLen > 0 || c.maxNormalPrioQueueLen > 0)
    ensures (exists block, h :: Legal(c, block, h) && Run(c, block, h).ledger.starts[job] > 0)
       <==> && HasSecondBlock(job.0.inclusion) && c.maxConcurrentSimulations > 0
            && (c.maxHighPrioQueueLen > 0 || c.maxNormalPrioQueueLen > 0)
  {
    if && HasSecondBlock(job.0.inclusion) && c.maxConcurrentSimulations > 0
       && (c.maxHighPrioQueueLen > 0 || c.maxNormalPrioQueueLen > 0)
    {
      StartsWhenItCan(c, job, if c.maxHighPrioQueueLen > 0 then High else Normal);
      var block, h :| Served(c, block, h) && Run(c, block, h).ledger.starts[job] > 0;
      assert Legal(c, block, h);
    } else {
      forall block, h | Legal(c, block, h)
        ensures Run(c, block, h).ledger.starts[job] == 0
      {
        if Run(c, block, h).ledger.starts[job] > 0 {
          StartNeedsRoom(c, block, h, job);
        }
      }
    }
  }

  lemma StartNeedsRoom(c: Config, block: U64, h: seq<Action>, job: Job)
    requires Legal(c, block, h) && Run(c, block, h).ledger.starts[job] > 0
    ensures HasSecondBlock(job.0.inclusion) && c.maxConcurrentSimulations > 0
    ensures c.maxHighPrioQueueLen > 0 || c.maxNormalPrioQueueLen > 0
  {
    StartedHasSecondBlock(c, block, h, job);
    var j: nat :| j < |h| && h[j].Launch? && Legal(c, block, h[..j]) && Enabled(c, Run(c, block, h[..j]), h[j]);
    if c.maxHighPrioQueueLen == 0 && c.maxNormalPrioQueueLen == 0 {
      LimitZeroMeansNone(c, block, h[..j], High);
      LimitZeroMeansNone(c, block, h[..j], Normal);
    }
  }
}
