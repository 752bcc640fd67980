/** The order in which a poll loop performs actions, and what holds whenever one
    of its rounds is over. Each round handles messages, then completions, then
    makes one selection at one instant until the capacity is used up or
    everything queued waits. */
module Rounds {
  import opened Common
  import opened Requests
  import opened Selection
  import opened Machine
  import opened Bounds
  import opened Windows
  import opened Limits

  /** What the last action of the service was part of. */
  datatype Phase = Gathering | Completing | Selecting(now: Instant)

  function PhaseOf(h: seq<Action>): Phase {
    if h == [] then Gathering
    else match h[|h| - 1]
      case Send(_) => PhaseOf(h[..|h| - 1])
      case HangUp(_) => PhaseOf(h[..|h| - 1])
      case Receive => Gathering
      case Complete(_, _) => Completing
      case Drop(_, now) => Selecting(now)
      case Launch(_, now) => Selecting(now)
  }

  /** A selection at `now` has nothing left to do. */
  predicate Finished(c: Config, s: State, now: Instant) {
    |s.flying| >= c.maxConcurrentSimulations || AllWait(s.Queued(), NextBlock(s.block), now)
  }

  /** The round is over: the selection that was begun has nothing left to do,
      or one made now would have nothing to do. */
  ghost predicate RoundOver(c: Config, s: State, phase: Phase) {
    if phase.Selecting? then Finished(c, s, phase.now) else exists now :: Finished(c, s, now)
  }

  /** May the action come next? Messages and completions wait for a begun
      selection to finish, messages also for completions' selection, and a
      selection keeps to its instant. */
  ghost predicate MayFollow(c: Config, s: State, phase: Phase, a: Action) {
    match a
    case Send(_) => true
    case HangUp(_) => true
    case Receive => phase.Gathering? || RoundOver(c, s, phase)
    case Complete(_, _) => phase.Selecting? ==> RoundOver(c, s, phase)
    case Drop(_, now) => phase.Selecting? ==> phase.now == now || RoundOver(c, s, phase)
    case Launch(_, now) => phase.Selecting? ==> phase.now == now || RoundOver(c, s, phase)
  }

  /** A history a poll loop can have. */
  ghost predicate PollShaped(c: Config, block: U64, h: seq<Action>)
    requires Legal(c, block, h)
    decreases |h|
  {
    h == [] ||
    var g := h[..|h| - 1];
    PollShaped(c, block, g) && MayFollow(c, Run(c, block, g), PhaseOf(g), h[|h| - 1])
  }

  ghost predicate Served(c: Config, block: U64, h: seq<Action>) {
    Legal(c, block, h) && PollShaped(c, block, h)
  }

  /** Completions and a new selection may come next. */
  ghost predicate Open(c: Config, block: U64, h: seq<Action>) {
    Served(c, block, h) && (PhaseOf(h).Selecting? ==> RoundOver(c, Run(c, block, h), PhaseOf(h)))
  }

  /** Anything may come next, as between two polls. */
  ghost predicate AtRest(c: Config, block: U64, h: seq<Action>) {
    Served(c, block, h) && (PhaseOf(h).Gathering? || RoundOver(c, Run(c, block, h), PhaseOf(h)))
  }

  lemma ServedAppend(c: Config, block: U64, h: seq<Action>, a: Action)
    requires Served(c, block, h) && Enabled(c, Run(c, block, h), a)
    requires MayFollow(c, Run(c, block, h), PhaseOf(h), a)
    ensures Served(c, block, h + [a])
    ensures Run(c, block, h + [a]) == Step(c, Run(c, block, h), a)
    ensures PhaseOf(h + [a]) == match a
                                case Send(_) => PhaseOf(h)
                                case HangUp(_) => PhaseOf(h)
                                case Receive => Gathering
                                case Complete(_, _) => Completing
                                case Drop(_, now) => Selecting(now)
                                case Launch(_, now) => Selecting(now)
  {
    assert (h + [a])[..|h|] == h;
    RunAppend(c, block, h, a);
  }

  // ---- What a poll loop does next ----

  /** A selection at `now` may begin or go on. */
  ghost predicate MaySelect(c: Config, block: U64, h: seq<Action>, now: Instant) {
    && Served(c, block, h)
    && (PhaseOf(h).Selecting? ==> PhaseOf(h).now == now || RoundOver(c, Run(c, block, h), PhaseOf(h)))
  }

  lemma StillOver(c: Config, s: State, t: State, phase: Phase)
    requires RoundOver(c, s, phase) && t.Queued() == s.Queued() && t.flying == s.flying && t.block == s.block
    ensures RoundOver(c, t, phase)
  {
    if !phase.Selecting? {
      var now :| Finished(c, s, now);
      assert Finished(c, t, now);
    }
  }

  /** What others do leaves the service at rest. */
  lemma OthersKeepRest(c: Config, block: U64, h: seq<Action>, a: Action)
    requires AtRest(c, block, h) && Enabled(c, Run(c, block, h), a) && (a.Send? || a.HangUp?)
    ensures AtRest(c, block, h + [a]) && PhaseOf(h + [a]) == PhaseOf(h)
    ensures Run(c, block, h + [a]) == Step(c, Run(c, block, h), a)
  {
    ServedAppend(c, block, h, a);
    if !PhaseOf(h).Gathering? {
      StillOver(c, Run(c, block, h), Run(c, block, h + [a]), PhaseOf(h));
    }
  }

  lemma ReceiveKeepsRest(c: Config, block: U64, h: seq<Action>)
    requires AtRest(c, block, h) && Run(c, block, h).mailbox != []
    ensures AtRest(c, block, h + [Receive]) && PhaseOf(h + [Receive]) == Gathering
    ensures Run(c, block, h + [Receive]) == Step(c, Run(c, block, h), Receive)
  {
    ServedAppend(c, block, h, Receive);
  }

  lemma CompleteKeepsOpen(c: Config, block: U64, h: seq<Action>, i: nat, outcome: BundleSimulationOutcome)
    requires Open(c, block, h) && i < |Run(c, block, h).flying|
    ensures Open(c, block, h + [Complete(i, outcome)])
  {
    ServedAppend(c, block, h, Complete(i, outcome));
  }

  lemma SelectionGoesOn(c: Config, block: U64, h: seq<Action>, a: Action, now: Instant)
    requires MaySelect(c, block, h, now) && Legal(c, block, h + [a])
    requires match a case Drop(_, t) => t == now case Launch(_, t) => t == now case _ => false
    ensures MaySelect(c, block, h + [a], now)
  {
    assert (h + [a])[..|h|] == h;
    ServedAppend(c, block, h, a);
  }

  /** After a selection that has nothing left to do, the service is at rest. */
  lemma SelectionEnds(c: Config, block: U64, h: seq<Action>, now: Instant)
    requires MaySelect(c, block, h, now) && Finished(c, Run(c, block, h), now)
    ensures AtRest(c, block, h)
  {
  }

  // ---- Limits at the end of a round ----

  /** The queue is over its limit by no more than its ripe requests and the free slots. */
  predicate Slack(c: Config, s: State, p: SimulationPriority) {
    var over := |Queue(s, p)| - Limit(c, p);
    over <= 0 ||
    (over <= Sum(Queue(s, p), RipeAt(NextBlock(s.block))) && |s.flying| + over <= c.maxConcurrentSimulations)
  }

  lemma {:induction false} WaitingIsNotRipe(q: seq<SimulationRequest>, next: U64, now: Instant)
    requires AllWait(q, next, now)
    ensures Sum(q, RipeAt(next)) == 0
  {
    if q != [] {
      assert Judge(q[0], next, now) == Waiting;
      WaitingIsNotRipe(q[1..], next, now);
    }
  }

  lemma QueueWaits(s: State, p: SimulationPriority, now: Instant)
    requires AllWait(s.Queued(), NextBlock(s.block), now)
    ensures AllWait(Queue(s, p), NextBlock(s.block), now)
  {
    assert forall i :: 0 <= i < |s.high| ==> s.high[i] == s.Queued()[i];
    assert forall i :: 0 <= i < |s.normal| ==> s.normal[i] == s.Queued()[|s.high| + i];
  }

  lemma FinishedIsWithinLimit(c: Config, s: State, p: SimulationPriority, now: Instant)
    requires Slack(c, s, p) && Finished(c, s, now)
    ensures |Queue(s, p)| <= Limit(c, p)
  {
    if |s.flying| < c.maxConcurrentSimulations {
      QueueWaits(s, p, now);
      WaitingIsNotRipe(Queue(s, p), NextBlock(s.block), now);
    }
  }

  lemma RoundOverIsWithinLimit(c: Config, s: State, phase: Phase, p: SimulationPriority)
    requires Slack(c, s, p) && RoundOver(c, s, phase)
    ensures |Queue(s, p)| <= Limit(c, p)
  {
    if phase.Selecting? {
      FinishedIsWithinLimit(c, s, p, phase.now);
    } else {
      var now :| Finished(c, s, now);
      FinishedIsWithinLimit(c, s, p, now);
    }
  }

  lemma ReceiveKeepsLimit(c: Config, s: State, p: SimulationPriority)
    requires s.mailbox != [] && |Queue(s, p)| <= Limit(c, p)
    ensures |Queue(Step(c, s, Receive), p)| <= Limit(c, p)
  {
  }

  /** A request put back fills a slot of the slack that its completion made. */
  lemma CompleteKeepsSlack(c: Config, s: State, i: nat, outcome: BundleSimulationOutcome, p: SimulationPriority)
    requires i < |s.flying| && Slack(c, s, p) && |s.flying| <= c.maxConcurrentSimulations
    requires s.flying[i].IsMinBlock(NextBlock(s.block)) && s.flying[i].backedOffUntil == None
    ensures Slack(c, Step(c, s, Complete(i, outcome)), p)
  {
    SumAppend(Queue(s, p), s.flying[i].(retries := s.flying[i].retries + 1), RipeAt(NextBlock(s.block)));
  }

  lemma UnqueueKeepsSlack(c: Config, s: State, pos: nat, now: Instant, p: SimulationPriority)
    requires IsFirstActive(s.Queued(), pos, NextBlock(s.block), now) && Slack(c, s, p)
    requires p == High || s.high == []
    ensures |Queue(Unqueue(s, pos), p)| <= Limit(c, p)
            || (&& |Queue(Unqueue(s, pos), p)| == |Queue(s, p)| - 1
                && Slack(c, Unqueue(s, pos), p))
  {
    var next := NextBlock(s.block);
    if pos < |s.high| {
      SumWithout(s.high, pos, RipeAt(next));
    } else {
      if p == High {
        assert forall i :: 0 <= i < |s.high| ==> s.high[i] == s.Queued()[i];
        WaitingIsNotRipe(s.high, next, now);
      } else {
        SumWithout(s.normal, pos - |s.high|, RipeAt(next));
      }
    }
  }

  lemma SelectKeepsSlack(c: Config, s: State, a: Action, p: SimulationPriority)
    requires Enabled(c, s, a) && (a.Drop? || a.Launch?) && Slack(c, s, p)
    requires p == High || s.high == []
    ensures Slack(c, Step(c, s, a), p)
  {
    UnqueueKeepsSlack(c, s, a.pos, a.now, p);
  }

  /** The slack holds throughout a poll loop's runs while blocks do not go
      down: for the high queue always, for the normal queue when no high
      request is ever let in. While messages are handled there is no excess at all. */
  lemma {:induction false} SlackAlways(c: Config, block: U64, h: seq<Action>, p: SimulationPriority)
    requires Served(c, block, h) && Climbing(block, Run(c, block, h).ledger.handled)
    requires p == High || c.maxHighPrioQueueLen == 0
    ensures Slack(c, Run(c, block, h), p)
    ensures PhaseOf(h).Gathering? ==> |Queue(Run(c, block, h), p)| <= Limit(c, p)
    decreases |h|
  {
    if h != [] {
      var n := |h| - 1;
      var g, s := h[..n], Run(c, block, h[..n]);
      BlockClimbs(c, block, h, n);
      SlackAlways(c, block, g, p);
      if p == Normal {
        LimitZeroMeansNone(c, block, g, High);
      }
      match h[n]
      case Receive =>
        if !PhaseOf(g).Gathering? {
          RoundOverIsWithinLimit(c, s, PhaseOf(g), p);
        }
        ReceiveKeepsLimit(c, s, p);
      case Complete(i, outcome) =>
        AlwaysTidy(c, block, g);
        AlwaysFits(c, block, g);
        RetriedNeverWaits(c, block, g);
        assert s.flying[i] in s.flying;
        CompleteKeepsSlack(c, s, i, outcome, p);
      case Drop(_, _) => SelectKeepsSlack(c, s, h[n], p);
      case Launch(_, _) => SelectKeepsSlack(c, s, h[n], p);
      case _ =>
    }
  }

  /** Whenever a round is over, on a climbing run, the high queue is within its
      limit; and so is the normal queue when the high limit is zero. */
  lemma WithinLimitAtRest(c: Config, block: U64, h: seq<Action>, p: SimulationPriority)
    requires AtRest(c, block, h) && Climbing(block, Run(c, block, h).ledger.handled)
    requires p == High || c.maxHighPrioQueueLen == 0
    ensures |Queue(Run(c, block, h), p)| <= Limit(c, p)
  {
    SlackAlways(c, block, h, p);
    if !PhaseOf(h).Gathering? {
      RoundOverIsWithinLimit(c, Run(c, block, h), PhaseOf(h), p);
    }
  }
}
